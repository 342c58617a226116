/**
 * Symmetry operators: an immutable named transform of a structural unit, with
 * its 4×4 matrix, the cached inverse, the lattice offset and an identity flag.
 *
 * Matrices are 16 reals in column-major order (entry (row, col) at
 * `col * 4 + row`), as `Mat4` stores them; arithmetic is exact.
 */
module StructureOperator {

  type Mat4 = m: seq<real> | |m| == 16 witness seq(16, _ => 0.0)

  /** Entry (row, col). */
  function At(m: Mat4, row: nat, col: nat): real
    requires row < 4 && col < 4
  {
    m[col * 4 + row]
  }

  /** `Mat4.identity()`. */
  const IdentityMatrix: Mat4 := [
    1.0, 0.0, 0.0, 0.0,
    0.0, 1.0, 0.0, 0.0,
    0.0, 0.0, 1.0, 0.0,
    0.0, 0.0, 0.0, 1.0]

  /** Row `row` of `a` times column `col` of `b`. */
  function RowTimesCol(a: Mat4, b: Mat4, row: nat, col: nat): real
    requires row < 4 && col < 4
  {
    At(a, row, 0) * At(b, 0, col) + At(a, row, 1) * At(b, 1, col) +
    At(a, row, 2) * At(b, 2, col) + At(a, row, 3) * At(b, 3, col)
  }

  /** The matrix product `a · b`. */
  function Mul(a: Mat4, b: Mat4): (r: Mat4)
    ensures forall row, col :: row < 4 && col < 4 ==> At(r, row, col) == RowTimesCol(a, b, row, col)
  {
    seq(16, i requires 0 <= i < 16 => RowTimesCol(a, b, i % 4, i / 4))
  }

  /** One entry of `I · m` and of `m · I` is the same entry of `m`. */
  lemma MulIdentityAt(m: Mat4, row: nat, col: nat)
    requires row < 4 && col < 4
    ensures RowTimesCol(IdentityMatrix, m, row, col) == At(m, row, col)
    ensures RowTimesCol(m, IdentityMatrix, row, col) == At(m, row, col)
  {
  }

  /** The identity matrix is a left and a right unit of the product. */
  lemma MulIdentity(m: Mat4)
    ensures Mul(IdentityMatrix, m) == m
    ensures Mul(m, IdentityMatrix) == m
  {
    forall i | 0 <= i < 16
      ensures Mul(IdentityMatrix, m)[i] == m[i] && Mul(m, IdentityMatrix)[i] == m[i]
    {
      var row, col := i % 4, i / 4;
      assert i == col * 4 + row;
      MulIdentityAt(m, row, col);
      assert At(Mul(IdentityMatrix, m), row, col) == At(m, row, col);
      assert At(Mul(m, IdentityMatrix), row, col) == At(m, row, col);
    }
  }

  /** The operator record; every field is read-only, so a value never changes after construction. */
  datatype Operator = Operator(
    name: string,
    hkl: seq<int>,
    matrix: Mat4,
    inverse: Mat4,
    isIdentity: bool)

  /** `inverse` really is the inverse of `matrix`, on both sides. */
  predicate InverseCached(op: Operator) {
    Mul(op.matrix, op.inverse) == IdentityMatrix && Mul(op.inverse, op.matrix) == IdentityMatrix
  }

  /** The identity flag is set exactly for the identity transform at the zero lattice offset. */
  predicate IdentityFlagAccurate(op: Operator) {
    op.isIdentity <==> op.matrix == IdentityMatrix && op.hkl == [0, 0, 0]
  }

  /** `Operator.Identity`. */
  const Identity := Operator("1_555", [0, 0, 0], IdentityMatrix, IdentityMatrix, true)

  /** The identity operator's fields: name `1_555`, a three-component zero offset, identity matrices, flag set. */
  lemma IdentityFields()
    ensures Identity.name == "1_555"
    ensures |Identity.hkl| == 3 && forall i :: 0 <= i < 3 ==> Identity.hkl[i] == 0
    ensures Identity.matrix == IdentityMatrix && Identity.inverse == IdentityMatrix
    ensures Identity.isIdentity
  {
  }

  /** The identity operator's cached inverse is correct and its flag is accurate. */
  lemma IdentityIsValid()
    ensures InverseCached(Identity)
    ensures IdentityFlagAccurate(Identity)
  {
    MulIdentity(IdentityMatrix);
  }
}

/**
 * Real-valued stand-ins for the linear-algebra and bounding-sphere helpers the
 * builders use (`Vec3.add/sub/scale`, `Sphere3D`, `Sphere3D.expand`).
 * Coordinates are mathematical reals: no IEEE-754 rounding is modelled.
 */
module Geometry {
  datatype Vec3 = Vec3(x: real, y: real, z: real)

  const Origin := Vec3(0.0, 0.0, 0.0)

  function Add(a: Vec3, b: Vec3): Vec3 {
    Vec3(a.x + b.x, a.y + b.y, a.z + b.z)
  }

  function Sub(a: Vec3, b: Vec3): Vec3 {
    Vec3(a.x - b.x, a.y - b.y, a.z - b.z)
  }

  function Scale(a: Vec3, s: real): Vec3 {
    Vec3(a.x * s, a.y * s, a.z * s)
  }

  /** The point a fraction `t` of the way from `a` to `b`: `a + t·(b − a)`. */
  function SplitPoint(a: Vec3, b: Vec3, t: real): (m: Vec3)
    ensures t == 0.0 ==> m == a
    ensures t == 1.0 ==> m == b
  {
    Add(a, Scale(Sub(b, a), t))
  }

  /**
   * Splitting a→b at `t` and splitting b→a at `1 − t` name the same point, so
   * the two half cylinders of one backbone pair meet without a gap.
   */
  lemma SplitPointFromEitherEnd(a: Vec3, b: Vec3, t: real)
    ensures SplitPoint(a, b, t) == SplitPoint(b, a, 1.0 - t)
  {
  }

  datatype Sphere = Sphere(center: Vec3, radius: real)

  /** `Sphere3D()`: the zero sphere at the origin. */
  const ZeroSphere := Sphere(Origin, 0.0)

  /** `Sphere3D.expand(out, s, delta)`: same centre, radius grown by `delta`. */
  function Expand(s: Sphere, delta: real): (r: Sphere)
    ensures r.center == s.center
    ensures r.radius - s.radius == delta
  {
    Sphere(s.center, s.radius + delta)
  }
}

/**
 * The polymer backbone cylinder visual: the choice between the impostor and the
 * mesh strategy, the per-strategy update rules, and the two geometry builders
 * that turn backbone pairs into half-cylinder records.
 *
 * The structure, the theme and the rendering device are reached only through
 * the abstractions below: an `Env` of uninterpreted pure functions, a unit
 * with its element count and boundary sphere, and the sequence of pair
 * records the backbone iterator yields.
 */
module PolymerBackboneCylinder {
  import opened Wrappers
  import opened Geometry

  // ---------------------------------------------------------------------------
  // Inputs

  /** The rendering context, reduced to the one capability consulted here. */
  datatype WebGLContext = WebGLContext(fragDepth: bool)

  /** The parameters that the visual reads. */
  datatype Props = Props(sizeFactor: real, radialSegments: int, tryUseImpostor: bool)

  /** A structure-element location: the element index within its unit. */
  datatype Location = Location(element: int)

  /** The molecule type code reported by the iterator for a pair. */
  datatype MoleculeType = MoleculeType(code: int)

  /** One step of the backbone iterator. */
  datatype BackbonePair = BackbonePair(
    centerA: Location, centerB: Location, moleculeType: MoleculeType, indexA: int, indexB: int)

  /** What the builders know about the unit. */
  datatype Unit = Unit(polymerElementCount: nat, boundary: Sphere)

  /**
   * The external collaborators, as pure functions: the unit's invariant
   * position lookup, the theme's size function, the nucleic classification
   * of a molecule type, and the two split constants.
   */
  datatype Env = Env(
    pos: int -> Vec3,
    size: Location -> real,
    isNucleic: MoleculeType -> bool,
    nucleicShift: real,
    standardShift: real)

  // ---------------------------------------------------------------------------
  // Strategy selection and the representation axis

  datatype Visual = ImpostorVisual(materialId: int) | MeshVisual(materialId: int)
  {
    /** The `mustRecreate` closure of this strategy. */
    predicate MustRecreate(props: Props, webgl: Option<WebGLContext>) {
      match this
      case ImpostorVisual(_) => ImpostorMustRecreate(props, webgl)
      case MeshVisual(_) => MeshMustRecreate(props, webgl)
    }
  }

  /** The factory: impostors need the preference, a context and its fragDepth extension. */
  function PolymerBackboneCylinderVisual(materialId: int, props: Props, webgl: Option<WebGLContext>): (v: Visual)
    ensures v.materialId == materialId
    ensures v.ImpostorVisual? <==> props.tryUseImpostor && webgl.Some? && webgl.value.fragDepth
    ensures v.MeshVisual? <==> !props.tryUseImpostor || webgl.None? || !webgl.value.fragDepth
  {
    if props.tryUseImpostor && webgl.Some? && webgl.value.fragDepth
    then ImpostorVisual(materialId)
    else MeshVisual(materialId)
  }

  /**
   * The impostor visual is stale once the preference or the context is gone;
   * for every props and context it fires exactly when the mesh rule does not.
   */
  predicate ImpostorMustRecreate(props: Props, webgl: Option<WebGLContext>)
    ensures ImpostorMustRecreate(props, webgl) <==> !MeshMustRecreate(props, webgl)
  {
    !props.tryUseImpostor || webgl.None?
  }

  /**
   * The mesh visual is stale once the preference and a context are present;
   * fragDepth is not consulted, so it fires exactly when the factory would now
   * pick the impostor or when the context lacks fragDepth (the material id does
   * not affect the factory's choice).
   */
  predicate MeshMustRecreate(props: Props, webgl: Option<WebGLContext>)
    ensures MeshMustRecreate(props, webgl) <==>
      PolymerBackboneCylinderVisual(0, props, webgl).ImpostorVisual? ||
      (props.tryUseImpostor && webgl.Some? && !webgl.value.fragDepth)
  {
    props.tryUseImpostor && webgl.Some?
  }

  /**
   * A visual fresh from the factory is not immediately recreated, except in the
   * one case the factory and the mesh rule disagree on: preference set, context
   * present, fragDepth missing.
   */
  lemma FactoryChoiceIsStable(materialId: int, props: Props, webgl: Option<WebGLContext>)
    ensures var v := PolymerBackboneCylinderVisual(materialId, props, webgl);
      v.MustRecreate(props, webgl) <==> props.tryUseImpostor && webgl.Some? && !webgl.value.fragDepth
  {
  }

  /**
   * The fragDepth asymmetry: without the extension the factory builds a mesh
   * visual whose own rule asks for recreation, so for unchanged props and
   * context the recreation request never settles.
   */
  lemma FragDepthQuirk(materialId: int, props: Props)
    requires props.tryUseImpostor
    ensures var webgl := Some(WebGLContext(false));
      var v := PolymerBackboneCylinderVisual(materialId, props, webgl);
      v == MeshVisual(materialId) && v.MustRecreate(props, webgl)
  {
  }

  // ---------------------------------------------------------------------------
  // The content axis

  /** The update flags a visual computes on every update call. */
  class VisualUpdateState {
    var createGeometry: bool
    var updateTransform: bool
    var updateMatrix: bool
    var updateColor: bool
    var updateSize: bool
  }

  /**
   * True when a prop that shapes the mesh geometry differs between the two calls:
   * identical props never rebuild, and a change of size factor or of radial
   * segments always does.
   */
  predicate MeshGeometryPropsChanged(newProps: Props, currentProps: Props)
    ensures newProps == currentProps ==> !MeshGeometryPropsChanged(newProps, currentProps)
    ensures newProps.radialSegments != currentProps.radialSegments ==> MeshGeometryPropsChanged(newProps, currentProps)
    ensures newProps.sizeFactor != currentProps.sizeFactor ==> MeshGeometryPropsChanged(newProps, currentProps)
  {
    newProps.sizeFactor != currentProps.sizeFactor || newProps.radialSegments != currentProps.radialSegments
  }

  /** The mesh rule ignores the impostor preference on either side. */
  lemma MeshGeometryPropsChangedExactly(newProps: Props, currentProps: Props, tryUseImpostor: bool)
    ensures MeshGeometryPropsChanged(newProps, currentProps) <==>
      MeshGeometryPropsChanged(newProps.(tryUseImpostor := tryUseImpostor), currentProps)
    ensures MeshGeometryPropsChanged(newProps, currentProps) <==>
      MeshGeometryPropsChanged(newProps, currentProps.(tryUseImpostor := tryUseImpostor))
  {
  }

  /** The mesh `setUpdateState`: overwrite `createGeometry`, leave every other flag alone. */
  method MeshSetUpdateState(state: VisualUpdateState, newProps: Props, currentProps: Props)
    modifies state`createGeometry
    ensures state.createGeometry == MeshGeometryPropsChanged(newProps, currentProps)
    ensures state.updateTransform == old(state.updateTransform) && state.updateMatrix == old(state.updateMatrix)
    ensures state.updateColor == old(state.updateColor) && state.updateSize == old(state.updateSize)
  {
    state.createGeometry := newProps.sizeFactor != currentProps.sizeFactor ||
                            newProps.radialSegments != currentProps.radialSegments;
  }

  /** The impostor `setUpdateState` does nothing: impostor topology does not depend on props. */
  method ImpostorSetUpdateState(state: VisualUpdateState, newProps: Props, currentProps: Props)
    ensures unchanged(state)
  {
  }

  /** Dispatch to the `setUpdateState` closure of the strategy in use. */
  method SetUpdateState(v: Visual, state: VisualUpdateState, newProps: Props, currentProps: Props)
    modifies state`createGeometry
    ensures v.ImpostorVisual? ==> unchanged(state)
    ensures v.MeshVisual? ==> state.createGeometry == MeshGeometryPropsChanged(newProps, currentProps)
    ensures state.updateTransform == old(state.updateTransform) && state.updateMatrix == old(state.updateMatrix)
    ensures state.updateColor == old(state.updateColor) && state.updateSize == old(state.updateSize)
  {
    match v
    case ImpostorVisual(_) => ImpostorSetUpdateState(state, newProps, currentProps);
    case MeshVisual(_) => MeshSetUpdateState(state, newProps, currentProps);
  }

  // ---------------------------------------------------------------------------
  // The backbone iterator

  /** `PolymerBackboneIterator`: yields the given pair records in order. */
  class PolymerBackboneIterator {
    const pairs: seq<BackbonePair>
    var index: nat

    ghost predicate Valid()
      reads this
    {
      index <= |pairs|
    }

    constructor (pairs: seq<BackbonePair>)
      ensures Valid() && this.pairs == pairs && index == 0
    {
      this.pairs := pairs;
      index := 0;
    }

    /** False exactly once every pair has been returned. */
    predicate HasNext()
      reads this
      ensures Valid() ==> (!HasNext() <==> index == |pairs|)
    {
      index < |pairs|
    }

    method Move() returns (p: BackbonePair)
      requires Valid() && HasNext()
      modifies this`index
      ensures Valid() && index == old(index) + 1
      ensures p == pairs[old(index)]
    {
      p := pairs[index];
      index := index + 1;
    }
  }

  // ---------------------------------------------------------------------------
  // Shared per-pair computation

  /** The split fraction of a pair: one constant for nucleic pairs, another for the rest. */
  function Shift(env: Env, p: BackbonePair): (t: real)
    ensures env.isNucleic(p.moleculeType) ==> t == env.nucleicShift
    ensures !env.isNucleic(p.moleculeType) ==> t == env.standardShift
  {
    if env.isNucleic(p.moleculeType) then env.nucleicShift else env.standardShift
  }

  /** The bounding sphere both builders attach: the unit sphere grown by `1 · sizeFactor`. */
  function BuiltBoundingSphere(unit: Unit, sizeFactor: real): (s: Sphere)
    ensures s.center == unit.boundary.center
    ensures s.radius == unit.boundary.radius + sizeFactor
  {
    Expand(unit.boundary, 1.0 * sizeFactor)
  }

  // ---------------------------------------------------------------------------
  // Impostor path

  /** One instanced cylinder: endpoints, radius scale, cap flags and group id. */
  datatype CylinderInstance = CylinderInstance(
    start: Vec3, end: Vec3, radiusScale: real, topCap: bool, bottomCap: bool, group: int)

  /** Impostor geometry: the instance list and its bounding sphere. */
  datatype Cylinders = Cylinders(instances: seq<CylinderInstance>, boundingSphere: Sphere)

  const EmptyCylinders := Cylinders([], ZeroSphere)

  /** `cylindersCountEstimate`: two cylinders per polymer element. */
  function CylindersCountEstimate(polymerElementCount: nat): (r: nat)
    ensures r == 2 * polymerElementCount
  {
    polymerElementCount * 2
  }

  /** `CylindersBuilder`: a growable buffer of cylinder instances. */
  class CylindersBuilder {
    const initialCount: nat
    var instances: seq<CylinderInstance>

    constructor Create(initialCount: nat)
      ensures this.initialCount == initialCount && instances == []
    {
      this.initialCount := initialCount;
      instances := [];
    }

    method Add(start: Vec3, end: Vec3, radiusScale: real, topCap: bool, bottomCap: bool, group: int)
      modifies this`instances
      ensures instances == old(instances) + [CylinderInstance(start, end, radiusScale, topCap, bottomCap, group)]
    {
      instances := instances + [CylinderInstance(start, end, radiusScale, topCap, bottomCap, group)];
    }

    /** Everything added so far, in the order of the `add` calls. */
    function GetCylinders(): (r: seq<CylinderInstance>)
      reads this
      ensures |r| == |instances| && forall i :: 0 <= i < |r| ==> r[i] == instances[i]
    {
      instances
    }
  }

  /** The two impostor half-cylinders of one pair: A→M tagged indexA, then M→B tagged indexB. */
  function ImpostorPairSegments(env: Env, p: BackbonePair): (r: seq<CylinderInstance>) {
    var pA := env.pos(p.centerA.element);
    var pB := env.pos(p.centerB.element);
    var pM := SplitPoint(pA, pB, Shift(env, p));
    [CylinderInstance(pA, pM, 1.0, false, false, p.indexA),
     CylinderInstance(pM, pB, 1.0, false, false, p.indexB)]
  }

  /** The impostor instances for a pair sequence, in iterator order. */
  function ImpostorSegments(env: Env, pairs: seq<BackbonePair>): seq<CylinderInstance> {
    if pairs == [] then []
    else ImpostorSegments(env, pairs[..|pairs| - 1]) + ImpostorPairSegments(env, pairs[|pairs| - 1])
  }

  /**
   * Two instances per pair, and instances 2i and 2i+1 are the halves of pair i:
   * from pos(centerA) to the split point with group indexA, then from the same
   * split point to pos(centerB) with group indexB, radius 1, no caps.
   */
  lemma {:induction false} ImpostorSegmentsAt(env: Env, pairs: seq<BackbonePair>, i: nat)
    requires i < |pairs|
    ensures |ImpostorSegments(env, pairs)| == 2 * |pairs|
    ensures var s := ImpostorSegments(env, pairs);
      var p := pairs[i];
      var pA, pB := env.pos(p.centerA.element), env.pos(p.centerB.element);
      && s[2 * i] == CylinderInstance(pA, SplitPoint(pA, pB, Shift(env, p)), 1.0, false, false, p.indexA)
      && s[2 * i + 1] == CylinderInstance(SplitPoint(pA, pB, Shift(env, p)), pB, 1.0, false, false, p.indexB)
  {
    var n := |pairs|;
    var init := pairs[..n - 1];
    if i == n - 1 {
      ImpostorSegmentsLength(env, init);
    } else {
      ImpostorSegmentsAt(env, init, i);
    }
  }

  lemma {:induction false} ImpostorSegmentsLength(env: Env, pairs: seq<BackbonePair>)
    ensures |ImpostorSegments(env, pairs)| == 2 * |pairs|
  {
    if pairs != [] {
      ImpostorSegmentsLength(env, pairs[..|pairs| - 1]);
    }
  }

  /** Consecutive instances of one pair share the split point, and every group id comes from the iterator. */
  lemma ImpostorSegmentsContinuous(env: Env, pairs: seq<BackbonePair>, i: nat)
    requires i < |pairs|
    ensures |ImpostorSegments(env, pairs)| == 2 * |pairs|
    ensures ImpostorSegments(env, pairs)[2 * i].end == ImpostorSegments(env, pairs)[2 * i + 1].start
    ensures ImpostorSegments(env, pairs)[2 * i].group == pairs[i].indexA
    ensures ImpostorSegments(env, pairs)[2 * i + 1].group == pairs[i].indexB
  {
    ImpostorSegmentsAt(env, pairs, i);
  }

  /** When the iterator yields at most one pair per polymer element, the preallocated size is never exceeded. */
  lemma ImpostorEstimateSuffices(env: Env, polymerElementCount: nat, pairs: seq<BackbonePair>)
    requires |pairs| <= polymerElementCount
    ensures |ImpostorSegments(env, pairs)| <= CylindersCountEstimate(polymerElementCount)
  {
    ImpostorSegmentsLength(env, pairs);
  }

  /** `createPolymerBackboneCylinderImpostor`. */
  method CreatePolymerBackboneCylinderImpostor(env: Env, unit: Unit, props: Props, pairs: seq<BackbonePair>)
    returns (c: Cylinders)
    ensures unit.polymerElementCount == 0 ==> c == EmptyCylinders
    ensures unit.polymerElementCount != 0 ==>
      c.instances == ImpostorSegments(env, pairs) &&
      c.boundingSphere == BuiltBoundingSphere(unit, props.sizeFactor)
  {
    var polymerElementCount := unit.polymerElementCount;
    if polymerElementCount == 0 {
      return EmptyCylinders;
    }

    var cylindersCountEstimate := CylindersCountEstimate(polymerElementCount);
    var builder := new CylindersBuilder.Create(cylindersCountEstimate);

    var polymerBackboneIt := new PolymerBackboneIterator(pairs);
    while polymerBackboneIt.HasNext()
      invariant polymerBackboneIt.Valid() && polymerBackboneIt.pairs == pairs
      invariant builder.instances == ImpostorSegments(env, pairs[..polymerBackboneIt.index])
      decreases |pairs| - polymerBackboneIt.index
    {
      ghost var i := polymerBackboneIt.index;
      var p := polymerBackboneIt.Move();
      var pA := env.pos(p.centerA.element);
      var pB := env.pos(p.centerB.element);

      var shift := if env.isNucleic(p.moleculeType) then env.nucleicShift else env.standardShift;

      var pM := Add(pA, Scale(Sub(pB, pA), shift));
      builder.Add(pA, pM, 1.0, false, false, p.indexA);
      builder.Add(pM, pB, 1.0, false, false, p.indexB);
      assert pairs[..i + 1][..i] == pairs[..i];
    }
    assert pairs[..polymerBackboneIt.index] == pairs;

    var instances := builder.GetCylinders();
    var sphere := Expand(unit.boundary, 1.0 * props.sizeFactor);
    c := Cylinders(instances, sphere);
  }

  // ---------------------------------------------------------------------------
  // Mesh path

  /** The `CylinderProps` object the mesh builder reuses for every call. */
  datatype CylinderProps = CylinderProps(radiusTop: real, radiusBottom: real, radialSegments: int)

  /** One `addCylinder` call: endpoints, length fraction, radii, tessellation and the current group. */
  datatype MeshCylinder = MeshCylinder(
    start: Vec3, end: Vec3, lengthScale: real,
    radiusTop: real, radiusBottom: real, radialSegments: int, group: int)

  /** Mesh geometry: the cylinders laid down, in order, and the bounding sphere. */
  datatype Mesh = Mesh(cylinders: seq<MeshCylinder>, boundingSphere: Sphere)

  const EmptyMesh := Mesh([], ZeroSphere)

  /** `vertexCountEstimate`: two rings of `radialSegments` vertices for each of the two cylinders per element. */
  function VertexCountEstimate(radialSegments: int, polymerElementCount: nat): (r: int)
    ensures r == radialSegments * 2 * CylindersCountEstimate(polymerElementCount)
  {
    radialSegments * 2 * polymerElementCount * 2
  }

  /** `MeshBuilder` state: the current group id and the cylinders added so far. */
  class MeshBuilderState {
    const vertexCountEstimate: int
    var currentGroup: int
    var cylinders: seq<MeshCylinder>

    constructor Create(vertexCountEstimate: int)
      ensures this.vertexCountEstimate == vertexCountEstimate && cylinders == []
    {
      this.vertexCountEstimate := vertexCountEstimate;
      cylinders := [];
    }
  }

  /** `addCylinder`: append one cylinder tagged with the builder's current group. */
  method AddCylinder(state: MeshBuilderState, start: Vec3, end: Vec3, lengthScale: real, props: CylinderProps)
    modifies state`cylinders
    ensures state.cylinders == old(state.cylinders) +
      [MeshCylinder(start, end, lengthScale, props.radiusTop, props.radiusBottom, props.radialSegments, state.currentGroup)]
  {
    state.cylinders := state.cylinders +
      [MeshCylinder(start, end, lengthScale, props.radiusTop, props.radiusBottom, props.radialSegments, state.currentGroup)];
  }

  /**
   * The two mesh cylinders of one pair: A→B cut at `shift`, radius size(centerA)·sizeFactor,
   * group indexA; then B→A cut at `1 − shift`, radius size(centerB)·sizeFactor, group indexB.
   */
  function MeshPairCylinders(env: Env, props: Props, p: BackbonePair): seq<MeshCylinder> {
    var pA := env.pos(p.centerA.element);
    var pB := env.pos(p.centerB.element);
    var shift := Shift(env, p);
    var rA := env.size(p.centerA) * props.sizeFactor;
    var rB := env.size(p.centerB) * props.sizeFactor;
    [MeshCylinder(pA, pB, shift, rA, rA, props.radialSegments, p.indexA),
     MeshCylinder(pB, pA, 1.0 - shift, rB, rB, props.radialSegments, p.indexB)]
  }

  /** The mesh cylinders for a pair sequence, in iterator order. */
  function MeshCylinders(env: Env, props: Props, pairs: seq<BackbonePair>): seq<MeshCylinder> {
    if pairs == [] then []
    else MeshCylinders(env, props, pairs[..|pairs| - 1]) + MeshPairCylinders(env, props, pairs[|pairs| - 1])
  }

  lemma {:induction false} MeshCylindersLength(env: Env, props: Props, pairs: seq<BackbonePair>)
    ensures |MeshCylinders(env, props, pairs)| == 2 * |pairs|
  {
    if pairs != [] {
      MeshCylindersLength(env, props, pairs[..|pairs| - 1]);
    }
  }

  /** Two `addCylinder` calls per pair, and calls 2i and 2i+1 belong to pair i, in that order. */
  lemma {:induction false} MeshCylindersAt(env: Env, props: Props, pairs: seq<BackbonePair>, i: nat)
    requires i < |pairs|
    ensures |MeshCylinders(env, props, pairs)| == 2 * |pairs|
    ensures var s := MeshCylinders(env, props, pairs);
      var p := pairs[i];
      var pA, pB := env.pos(p.centerA.element), env.pos(p.centerB.element);
      var rA, rB := env.size(p.centerA) * props.sizeFactor, env.size(p.centerB) * props.sizeFactor;
      && s[2 * i] == MeshCylinder(pA, pB, Shift(env, p), rA, rA, props.radialSegments, p.indexA)
      && s[2 * i + 1] == MeshCylinder(pB, pA, 1.0 - Shift(env, p), rB, rB, props.radialSegments, p.indexB)
  {
    var n := |pairs|;
    var init := pairs[..n - 1];
    if i == n - 1 {
      MeshCylindersLength(env, props, init);
    } else {
      MeshCylindersAt(env, props, init, i);
    }
  }

  /**
   * When the iterator yields at most one pair per polymer element, two rings of
   * `radialSegments` vertices per `addCylinder` call stay within the vertex estimate.
   */
  lemma MeshEstimateSuffices(env: Env, props: Props, polymerElementCount: nat, pairs: seq<BackbonePair>)
    requires |pairs| <= polymerElementCount && props.radialSegments >= 0
    ensures props.radialSegments * 2 * |MeshCylinders(env, props, pairs)|
         <= VertexCountEstimate(props.radialSegments, polymerElementCount)
  {
    MeshCylindersLength(env, props, pairs);
    var rs := props.radialSegments * 2;
    assert rs * (2 * |pairs|) <= rs * (2 * polymerElementCount) by {
      assert rs >= 0 && 2 * |pairs| <= 2 * polymerElementCount;
    }
  }

  /**
   * The two mesh halves of a pair run in opposite directions, their length
   * fractions sum to 1, so they end at the same point, which is the impostor's
   * split point for that pair.
   */
  lemma MeshHalvesMeetAtImpostorSplit(env: Env, props: Props, pairs: seq<BackbonePair>, i: nat)
    requires i < |pairs|
    ensures |MeshCylinders(env, props, pairs)| == 2 * |pairs| == |ImpostorSegments(env, pairs)|
    ensures var m := MeshCylinders(env, props, pairs);
      && m[2 * i].start == m[2 * i + 1].end && m[2 * i].end == m[2 * i + 1].start
      && m[2 * i].lengthScale + m[2 * i + 1].lengthScale == 1.0
      && SplitPoint(m[2 * i].start, m[2 * i].end, m[2 * i].lengthScale)
         == SplitPoint(m[2 * i + 1].start, m[2 * i + 1].end, m[2 * i + 1].lengthScale)
         == ImpostorSegments(env, pairs)[2 * i].end
  {
    MeshCylindersAt(env, props, pairs, i);
    ImpostorSegmentsAt(env, pairs, i);
    var p := pairs[i];
    SplitPointFromEitherEnd(env.pos(p.centerA.element), env.pos(p.centerB.element), Shift(env, p));
  }

  /** `createPolymerBackboneCylinderMesh`. */
  method CreatePolymerBackboneCylinderMesh(env: Env, unit: Unit, props: Props, pairs: seq<BackbonePair>)
    returns (m: Mesh)
    ensures unit.polymerElementCount == 0 ==> m == EmptyMesh
    ensures unit.polymerElementCount != 0 ==>
      m.cylinders == MeshCylinders(env, props, pairs) &&
      m.boundingSphere == BuiltBoundingSphere(unit, props.sizeFactor)
  {
    var polymerElementCount := unit.polymerElementCount;
    if polymerElementCount == 0 {
      return EmptyMesh;
    }

    var radialSegments, sizeFactor := props.radialSegments, props.sizeFactor;

    var vertexCountEstimate := VertexCountEstimate(radialSegments, polymerElementCount);
    var builderState := new MeshBuilderState.Create(vertexCountEstimate);

    var cylinderProps := CylinderProps(1.0, 1.0, radialSegments);

    var polymerBackboneIt := new PolymerBackboneIterator(pairs);
    while polymerBackboneIt.HasNext()
      invariant polymerBackboneIt.Valid() && polymerBackboneIt.pairs == pairs
      invariant cylinderProps.radialSegments == radialSegments
      invariant builderState.cylinders == MeshCylinders(env, props, pairs[..polymerBackboneIt.index])
      decreases |pairs| - polymerBackboneIt.index
    {
      ghost var i := polymerBackboneIt.index;
      var p := polymerBackboneIt.Move();
      var pA := env.pos(p.centerA.element);
      var pB := env.pos(p.centerB.element);

      var shift := if env.isNucleic(p.moleculeType) then env.nucleicShift else env.standardShift;

      var rA := env.size(p.centerA) * sizeFactor;
      cylinderProps := cylinderProps.(radiusTop := rA, radiusBottom := rA);
      builderState.currentGroup := p.indexA;
      AddCylinder(builderState, pA, pB, shift, cylinderProps);
      ghost var first := MeshCylinder(pA, pB, shift, rA, rA, radialSegments, p.indexA);

      var rB := env.size(p.centerB) * sizeFactor;
      cylinderProps := cylinderProps.(radiusTop := rB, radiusBottom := rB);
      builderState.currentGroup := p.indexB;
      AddCylinder(builderState, pB, pA, 1.0 - shift, cylinderProps);
      ghost var second := MeshCylinder(pB, pA, 1.0 - shift, rB, rB, radialSegments, p.indexB);

      assert shift == Shift(env, p);
      assert MeshPairCylinders(env, props, p)[0] == first;
      assert MeshPairCylinders(env, props, p)[1] == second;
      assert pairs[..i + 1][..i] == pairs[..i];
      assert builderState.cylinders == MeshCylinders(env, props, pairs[..i]) + [first, second];
    }
    assert pairs[..polymerBackboneIt.index] == pairs;

    var cylinders := builderState.cylinders;
    var sphere := Expand(unit.boundary, 1.0 * props.sizeFactor);
    m := Mesh(cylinders, sphere);
  }

  /**
   * The worked split example: a standard pair from (0,0,0) to (10,0,0) is split at
   * (10t, 0, 0), and the two mesh halves carry the endpoint sizes and group ids.
   */
  lemma StandardSplitExample(env: Env, props: Props, p: BackbonePair)
    requires !env.isNucleic(p.moleculeType)
    requires env.pos(p.centerA.element) == Origin && env.pos(p.centerB.element) == Vec3(10.0, 0.0, 0.0)
    ensures var m := MeshCylinders(env, props, [p]);
      var t := env.standardShift;
      && |m| == 2
      && SplitPoint(m[0].start, m[0].end, m[0].lengthScale) == Vec3(10.0 * t, 0.0, 0.0)
      && m[0].radiusTop == env.size(p.centerA) * props.sizeFactor && m[0].group == p.indexA
      && m[1].radiusTop == env.size(p.centerB) * props.sizeFactor && m[1].group == p.indexB
  {
    MeshCylindersAt(env, props, [p], 0);
  }
}

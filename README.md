# Polymer backbone cylinders, direct-volume renderables and symmetry operators

A Dafny model of three small pieces of Mol*'s structure-to-geometry pipeline.

- **Polymer backbone cylinder visual** (`PolymerBackboneCylinder`). The factory picks the
  impostor strategy when the `tryUseImpostor` preference is set, a WebGL context exists and the
  context has the `fragDepth` extension. Otherwise it picks the mesh strategy. Each strategy has
  a `mustRecreate` rule (the representation axis) and a `setUpdateState` rule (the content axis).
  Both geometry builders walk the backbone iterator's pairs in order. They split each pair at a
  type-dependent shift and emit two half cylinders, tagged with `indexA` and then `indexB`. An
  empty unit returns empty geometry before the iterator is created. The bounding sphere is the
  unit's boundary sphere grown by `1 · sizeFactor`.
  The iterator, both builders and the update-state record are classes, because the source
  mutates them in place. The builders are methods with loops, proved against the functions
  `ImpostorSegments` and `MeshCylinders`. Lemmas then state ordering, counts, group tagging and
  continuity over those functions.
  One asymmetry of the source is kept on purpose. The factory checks `fragDepth`, but the mesh
  `mustRecreate` rule does not. So with the preference set and a context that lacks the
  extension, a fresh mesh visual already asks to be recreated (`FragDepthQuirk`).
- **Direct-volume schemas and renderable assembly** (`DirectVolume`). A schema is a
  `map<string, Spec>`. The 2d and 3d schemas extend the base schema. `Object.assign({}, …)` is
  the right-biased merge `ObjectAssign`. The renderable's render item sees global ⊕ internal ⊕
  geometry schemas. It also sees the caller's values overlaid with the internal `uObjectId` cell.
  The renderable keeps the caller's own values and is never opaque. The shading-language
  version that the 2d and 3d entry points pass reaches only `getInternalValues`, and that
  function ignores it (`VersionIsIgnored`).
- **Symmetry operators** (`StructureOperator`). An immutable record holds a name, a lattice
  offset `hkl`, a column-major 4×4 matrix and its cached inverse, and an identity flag. The
  constant `Identity` is `1_555`.

Positions, sizes, the nucleic classification and the two shift constants are uninterpreted pure
functions and values (the `Env` record). Coordinates and radii are exact reals.

## Model

| member | source | states |
|---|---|---|
| `PolymerBackboneCylinder.PolymerBackboneCylinderVisual` | src/mol-repr/structure/visual/polymer-backbone-cylinder.ts:40-44 | The visual is the impostor visual exactly when `tryUseImpostor`, a context and its `fragDepth` extension are all present; otherwise it is the mesh visual; the material id is passed through |
| `PolymerBackboneCylinder.ImpostorMustRecreate` | src/mol-repr/structure/visual/polymer-backbone-cylinder.ts:93-95 | The impostor rule asks for recreation exactly when the mesh rule does not, for every props and context |
| `PolymerBackboneCylinder.MeshMustRecreate` | src/mol-repr/structure/visual/polymer-backbone-cylinder.ts:152-154 | The mesh rule asks for recreation exactly when the factory would now choose the impostor, or when the preference and a context are present but the context lacks `fragDepth` |
| `PolymerBackboneCylinder.FactoryChoiceIsStable` | src/mol-repr/structure/visual/polymer-backbone-cylinder.ts:41-43 | A visual fresh from the factory is asked to be recreated only when the preference is set and a context without `fragDepth` is present; an impostor choice is never recreated, nor a mesh chosen for lack of preference or context |
| `PolymerBackboneCylinder.FragDepthQuirk` | src/mol-repr/structure/visual/polymer-backbone-cylinder.ts:152-154 | With the preference set and a context lacking `fragDepth`, the factory yields a mesh visual whose own rule asks for recreation, so for unchanged props and context the recreation request never settles |
| `PolymerBackboneCylinder.MeshGeometryPropsChanged` | src/mol-repr/structure/visual/polymer-backbone-cylinder.ts:147-150 | Identical props never ask for a rebuild; a change of `sizeFactor` or of `radialSegments` always does |
| `PolymerBackboneCylinder.MeshGeometryPropsChangedExactly` | src/mol-repr/structure/visual/polymer-backbone-cylinder.ts:147-150 | The rebuild condition is the same whatever `tryUseImpostor` is on the new or on the current props |
| `PolymerBackboneCylinder.MeshSetUpdateState` | src/mol-repr/structure/visual/polymer-backbone-cylinder.ts:146-151 | `createGeometry` becomes true or false according to whether sizeFactor or radialSegments changed; the other flags keep their values |
| `PolymerBackboneCylinder.ImpostorSetUpdateState` | src/mol-repr/structure/visual/polymer-backbone-cylinder.ts:92 | The impostor rule leaves the update state entirely unchanged |
| `PolymerBackboneCylinder.SetUpdateState` | src/mol-repr/structure/visual/polymer-backbone-cylinder.ts:146-151 | Running the selected strategy's rule: unchanged state for the impostor, the mesh rebuild condition for the mesh; only `createGeometry` may change |
| `PolymerBackboneCylinder.PolymerBackboneIterator.constructor` | src/mol-repr/structure/visual/polymer-backbone-cylinder.ts:63 | A fresh iterator stands before the first pair of the given sequence |
| `PolymerBackboneCylinder.PolymerBackboneIterator.HasNext` | src/mol-repr/structure/visual/polymer-backbone-cylinder.ts:64 | `hasNext` is false exactly when every pair has been returned |
| `PolymerBackboneCylinder.PolymerBackboneIterator.Move` | src/mol-repr/structure/visual/polymer-backbone-cylinder.ts:64-65 | `move()` returns the next pair in order and advances by one |
| `PolymerBackboneCylinder.CylindersBuilder.Create` | src/mol-repr/structure/visual/polymer-backbone-cylinder.ts:56 | A new cylinders builder is empty and records its initial count |
| `PolymerBackboneCylinder.CylindersBuilder.Add` | src/mol-repr/structure/visual/polymer-backbone-cylinder.ts:73-74 | `add` appends one instance (start, end, radius scale, caps, group) after the existing ones |
| `PolymerBackboneCylinder.CylindersBuilder.GetCylinders` | src/mol-repr/structure/visual/polymer-backbone-cylinder.ts:77 | `getCylinders` yields every instance added so far, in the order of the `add` calls |
| `PolymerBackboneCylinder.MeshBuilderState.Create` | src/mol-repr/structure/visual/polymer-backbone-cylinder.ts:106 | A new mesh builder state is empty and records its vertex estimate |
| `PolymerBackboneCylinder.AddCylinder` | src/mol-repr/structure/visual/polymer-backbone-cylinder.ts:124 | `addCylinder` appends one cylinder with the given endpoints, length fraction and radii, tagged with the builder's current group |
| `PolymerBackboneCylinder.Shift` | src/mol-repr/structure/visual/polymer-backbone-cylinder.ts:69-70 | A pair is split at the nucleic shift when its molecule type is nucleic and at the standard shift otherwise |
| `PolymerBackboneCylinder.CylindersCountEstimate` | src/mol-repr/structure/visual/polymer-backbone-cylinder.ts:55 | The cylinder estimate is twice the unit's polymer element count |
| `PolymerBackboneCylinder.BuiltBoundingSphere` | src/mol-repr/structure/visual/polymer-backbone-cylinder.ts:79 | The built geometry's sphere has the unit sphere's centre and a radius larger by `sizeFactor` |
| `Geometry.Expand` | src/mol-repr/structure/visual/polymer-backbone-cylinder.ts:133 | Expanding a sphere keeps its centre and grows its radius by exactly the given amount |
| `Geometry.SplitPoint` | src/mol-repr/structure/visual/polymer-backbone-cylinder.ts:72 | `pA + shift·(pB − pA)` is `pA` at shift 0 and `pB` at shift 1 |
| `Geometry.SplitPointFromEitherEnd` | src/mol-repr/structure/visual/polymer-backbone-cylinder.ts:124-128 | Cutting A→B at `t` and B→A at `1 − t` give the same point |
| `PolymerBackboneCylinder.ImpostorSegmentsLength` | src/mol-repr/structure/visual/polymer-backbone-cylinder.ts:64-75 | The impostor build emits exactly two instances per backbone pair |
| `PolymerBackboneCylinder.ImpostorSegmentsAt` | src/mol-repr/structure/visual/polymer-backbone-cylinder.ts:64-75 | Instances 2i and 2i+1 are pair i's halves, in iterator order: pA→pM with group indexA, then pM→pB with group indexB; pM is the shift point (nucleic or standard shift); radius 1; both caps false |
| `PolymerBackboneCylinder.ImpostorSegmentsContinuous` | src/mol-repr/structure/visual/polymer-backbone-cylinder.ts:72-74 | Each pair's second instance starts where its first ends; group ids are indexA then indexB |
| `PolymerBackboneCylinder.ImpostorEstimateSuffices` | src/mol-repr/structure/visual/polymer-backbone-cylinder.ts:55-56 | The `2·n` cylinder estimate is never exceeded when the iterator yields at most n pairs |
| `PolymerBackboneCylinder.CreatePolymerBackboneCylinderImpostor` | src/mol-repr/structure/visual/polymer-backbone-cylinder.ts:51-83 | With no polymer elements the result is the empty geometry, whatever the pairs; otherwise the instances are exactly the per-pair halves in iterator order and the sphere is the expanded unit sphere |
| `PolymerBackboneCylinder.VertexCountEstimate` | src/mol-repr/structure/visual/polymer-backbone-cylinder.ts:105 | The vertex estimate `radialSegments·2·n·2` is two rings of radialSegments vertices for each of the `2·n` estimated cylinders |
| `PolymerBackboneCylinder.MeshEstimateSuffices` | src/mol-repr/structure/visual/polymer-backbone-cylinder.ts:105-106 | When the iterator yields at most n pairs, two rings of radialSegments vertices per `addCylinder` call stay within the vertex estimate |
| `PolymerBackboneCylinder.MeshCylindersLength` | src/mol-repr/structure/visual/polymer-backbone-cylinder.ts:123-128 | The mesh build makes exactly two `addCylinder` calls per pair |
| `PolymerBackboneCylinder.MeshCylindersAt` | src/mol-repr/structure/visual/polymer-backbone-cylinder.ts:119-128 | Calls 2i and 2i+1 are for pair i, in order: (pA, pB, shift) with both radii size(centerA)·sizeFactor and group indexA, then (pB, pA, 1 − shift) with radii size(centerB)·sizeFactor and group indexB |
| `PolymerBackboneCylinder.MeshHalvesMeetAtImpostorSplit` | src/mol-repr/structure/visual/polymer-backbone-cylinder.ts:124-128 | A pair's two mesh calls run in opposite directions with length fractions summing to 1, so they end at one point, and that point is the impostor's split point for the pair |
| `PolymerBackboneCylinder.CreatePolymerBackboneCylinderMesh` | src/mol-repr/structure/visual/polymer-backbone-cylinder.ts:99-137 | With no polymer elements the result is the empty mesh, whatever the pairs; otherwise the cylinders are exactly the per-pair calls in iterator order and the sphere is the expanded unit sphere |
| `PolymerBackboneCylinder.StandardSplitExample` | src/mol-repr/structure/visual/polymer-backbone-cylinder.ts:119-128 | A standard pair from (0,0,0) to (10,0,0) is split at (10t,0,0); the halves carry size(A)·sizeFactor and size(B)·sizeFactor and groups indexA and indexB |
| `DirectVolume.BaseSchemaEntries` | src/mol-gl/renderable/direct-volume.ts:14-33 | The base schema has `aPosition` as a float32 attribute of arity 3 and divisor 0, `elements` as uint32, `dRenderMode` limited to isosurface/volume, `tTransferTex` as an image-uint8 rgba texture, and none of the grid-texture keys |
| `DirectVolume.Schema2dExtendsBase` | src/mol-gl/renderable/direct-volume.ts:58-63 | The 2d schema is the base schema, every entry unchanged, plus `dGridTexType` limited to 2d, `uGridTexDim` as a v2 uniform and `tGridTex` as an image-uint8 texture |
| `DirectVolume.Schema3dExtendsBase` | src/mol-gl/renderable/direct-volume.ts:73-77 | The 3d schema is the base schema, every entry unchanged, plus `dGridTexType` limited to 3d and `tGridTex` as a volume-uint8 texture; it has no `uGridTexDim` |
| `DirectVolume.ObjectAssign` | src/mol-gl/renderable/direct-volume.ts:44 | The merge has exactly the union of the sources' keys |
| `DirectVolume.ObjectAssignKeys` | src/mol-gl/renderable/direct-volume.ts:44 | A merged map has exactly the keys that some source has |
| `DirectVolume.ObjectAssignLastWins` | src/mol-gl/renderable/direct-volume.ts:44 | A key of the merge takes the value from the last source that defines it |
| `DirectVolume.FullSchemaMerge` | src/mol-gl/renderable/direct-volume.ts:44 | The full schema has every key of the global, internal and geometry schemas; geometry entries win over internal ones, and internal entries win over global ones |
| `DirectVolume.FullValuesMerge` | src/mol-gl/renderable/direct-volume.ts:46 | The full values have the caller's keys and the internal keys; internal cells override the caller's |
| `DirectVolume.GetInternalValues` | src/mol-gl/renderable/direct-volume.ts:37-41 | The internal values are exactly one `uObjectId` cell holding the id |
| `DirectVolume.DirectVolumeRenderable` | src/mol-gl/renderable/direct-volume.ts:43-54 | The render item draws triangles with the right-biased merged schema and with the caller's values plus `uObjectId := id`, where every other caller key keeps its cell; the renderable keeps the caller's values and state and is not opaque |
| `DirectVolume.VersionIsIgnored` | src/mol-gl/renderable/direct-volume.ts:37-41 | The renderable built with '100es' equals the one built with '300es' |
| `DirectVolume.DirectVolume2dRenderable` | src/mol-gl/renderable/direct-volume.ts:67-69 | The 2d renderable's render item carries every 2d schema entry, including the image-uint8 `tGridTex` and the v2 `uGridTexDim`, draws triangles, binds `uObjectId` and keeps every other caller cell, keeps the caller's values and state, and is not opaque |
| `DirectVolume.DirectVolume3dRenderable` | src/mol-gl/renderable/direct-volume.ts:81-83 | The 3d renderable's render item carries every 3d schema entry, including the volume-uint8 `tGridTex`, has `uGridTexDim` only if a shared schema supplies it, draws triangles, binds `uObjectId` and keeps every other caller cell, keeps the caller's values and state, and is not opaque |
| `StructureOperator.IdentityFields` | src/mol-data/structure/structure/operator.ts:20 | `Identity` is named `1_555`, has the three-component zero offset, identity matrix and inverse, and the identity flag set |
| `StructureOperator.IdentityIsValid` | src/mol-data/structure/structure/operator.ts:13-20 | The identity operator's cached inverse is a two-sided inverse of its matrix, and its flag is set exactly as its matrix and offset are the identity ones |
| `StructureOperator.MulIdentity` | src/mol-data/structure/structure/operator.ts:20 | The identity matrix is a left and a right unit of the 4×4 product |

## Left out

- WebGL and GPU plumbing: `createRenderItem`, `createRenderable`, the shader code and the context objects are device-bound code that is not part of this model. The render item is the record of what it is built from. The context is reduced to `Option<WebGLContext(fragDepth)>`. The renderable state is a type parameter.
- `addCylinder`, `MeshBuilder`, `CylindersBuilder`, `Sphere3D` and `Vec3` internals: tessellation uses trigonometry and floating point. Each `addCylinder` call is one appended record, and each `Sphere3D.expand` is "radius + delta".
- Builder chunk sizes (`estimate / 4`, `estimate / 10`) and buffer growth: they affect allocation only, not content.
- `VertexCountEstimate`: the bound is proved for two rings of radialSegments vertices per `addCylinder` call (`MeshEstimateSuffices`); the caps and the exact vertex layout of the tessellation are not modelled.
- `PolymerBackboneIterator`, `PolymerLocationIterator`, `getPolymerElementLoci` and `eachPolymerElement` are not part of this model. The iterator's output is a given sequence of pair records. Location iteration and loci are not modelled.
- `theme.size.size`, `unit.conformation.invariantPosition`, `isNucleic`, `NucleicShift` and `StandardShift` are uninterpreted fields of `Env`, and no claim depends on their values.
- The optional `cylinders` and `mesh` arguments of the two create functions are handed to `Cylinders.createEmpty`/`CylindersBuilder.create` and `Mesh.createEmpty`/`MeshBuilder.createState` so that their buffers are reused. The model always returns fresh geometry (the empty one with the zero sphere when there are no polymer elements) and does not capture this in-place reuse.
- `MeshSetUpdateState`: numbers are exact reals, so a NaN `sizeFactor` (where `NaN !== NaN` would force a rebuild) is not modelled.
- The props the visual inherits from `UnitsMeshParams` and `UnitsCylindersParams` are not modelled. `ParamDefinition` bounds and defaults are interface hints only.
- The `UnitsMeshVisual` and `UnitsCylindersVisual` lifecycle that calls these closures is not part of this model.
- `GlobalUniformSchema` and `InternalSchema` are defined in `schema.ts`, which is not part of this model. They are parameters (`SharedSchemas`), and every merge property holds for any contents.
- Value-cell versioning (`ValueCell.create`) is not modelled: a cell is its value, and payloads other than the object id are opaque handles.
- `Operator`: general operators are plain records. Only `Identity` is proved to satisfy the inverse and identity-flag predicates, because the source constructs no other operator here.

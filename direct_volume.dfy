/**
 * Direct-volume rendering: the declarative resource schemas (base, 2d-texture
 * and 3d-texture variants) and the assembly of a renderable from a schema and
 * the caller's values.
 *
 * A schema maps resource names to resource specs; a values record maps names
 * to value cells. `Object.assign({}, a, b, …)` is modelled by `ObjectAssign`,
 * a right-biased merge of a sequence of maps.
 */
module DirectVolume {
  import opened Wrappers

  // ---------------------------------------------------------------------------
  // Schemas

  /** The resource kinds a schema entry can declare, with their type tags. */
  datatype Spec =
    | AttributeSpec(kind: string, itemSize: nat, divisor: nat)
    | UniformSpec(uniformType: string)
    | DefineSpec(defineType: string, values: Option<seq<string>>)
    | TextureSpec(textureKind: string, format: string, dataType: string, filter: string)
    | ElementsSpec(elementsType: string)
    | ValueSpec(valueType: string)

  type Schema = map<string, Spec>

  /** `Object.assign({}, s0, s1, …)`: later maps override earlier ones key by key. */
  function ObjectAssign<V>(sources: seq<map<string, V>>): (r: map<string, V>)
    ensures r.Keys == AllKeys(sources)
  {
    if sources == [] then map[]
    else ObjectAssign(sources[..|sources| - 1]) + sources[|sources| - 1]
  }

  /** The union of the sources' key sets. */
  ghost function AllKeys<V>(sources: seq<map<string, V>>): set<string> {
    if sources == [] then {} else AllKeys(sources[..|sources| - 1]) + sources[|sources| - 1].Keys
  }

  /** The merged map has exactly the keys that some source has. */
  lemma {:induction false} ObjectAssignKeys<V>(sources: seq<map<string, V>>)
    ensures forall k :: k in ObjectAssign(sources) <==> exists j :: 0 <= j < |sources| && k in sources[j]
  {
    if sources != [] {
      var n := |sources|;
      var init := sources[..n - 1];
      ObjectAssignKeys(init);
      forall k | k in ObjectAssign(sources)
        ensures exists j :: 0 <= j < n && k in sources[j]
      {
        if k !in sources[n - 1] {
          assert k in ObjectAssign(init);
          var j :| 0 <= j < n - 1 && k in init[j];
          assert k in sources[j];
        }
      }
      forall k, j | 0 <= j < n && k in sources[j]
        ensures k in ObjectAssign(sources)
      {
        if j < n - 1 {
          assert k in init[j];
        }
      }
    }
  }

  /** A key takes its value from the last source that defines it. */
  lemma {:induction false} ObjectAssignLastWins<V>(sources: seq<map<string, V>>, j: nat, k: string)
    requires j < |sources| && k in sources[j]
    requires forall j' :: j < j' < |sources| ==> k !in sources[j']
    ensures k in ObjectAssign(sources) && ObjectAssign(sources)[k] == sources[j][k]
  {
    var n := |sources|;
    if j < n - 1 {
      var init := sources[..n - 1];
      assert k !in sources[n - 1];
      ObjectAssignLastWins(init, j, k);
    }
  }

  /** The resources every direct-volume draw binds. */
  const DirectVolumeBaseSchema: Schema := map[
    "drawCount" := ValueSpec("number"),
    "instanceCount" := ValueSpec("number"),
    "aPosition" := AttributeSpec("float32", 3, 0),
    "elements" := ElementsSpec("uint32"),
    "uAlpha" := UniformSpec("f"),
    "dUseFog" := DefineSpec("boolean", None),
    "uIsoValue" := UniformSpec("f"),
    "uBboxMin" := UniformSpec("v3"),
    "uBboxMax" := UniformSpec("v3"),
    "uBboxSize" := UniformSpec("v3"),
    "dMaxSteps" := DefineSpec("number", None),
    "uTransform" := UniformSpec("m4"),
    "uGridDim" := UniformSpec("v3"),
    "dRenderMode" := DefineSpec("string", Some(["isosurface", "volume"])),
    "tTransferTex" := TextureSpec("image-uint8", "rgba", "ubyte", "linear")
  ]

  /** The entries of the base schema that the volume geometry and ray marcher rely on. */
  lemma BaseSchemaEntries()
    ensures DirectVolumeBaseSchema["aPosition"] == AttributeSpec("float32", 3, 0)
    ensures DirectVolumeBaseSchema["elements"] == ElementsSpec("uint32")
    ensures DirectVolumeBaseSchema["dRenderMode"] == DefineSpec("string", Some(["isosurface", "volume"]))
    ensures DirectVolumeBaseSchema["tTransferTex"] == TextureSpec("image-uint8", "rgba", "ubyte", "linear")
    ensures DirectVolumeBaseSchema["drawCount"] == ValueSpec("number")
    ensures DirectVolumeBaseSchema["uTransform"] == UniformSpec("m4")
    ensures "dGridTexType" !in DirectVolumeBaseSchema && "uGridTexDim" !in DirectVolumeBaseSchema
    ensures "tGridTex" !in DirectVolumeBaseSchema
  {
  }

  /** Volume data held in a 2d texture (tiled slices). */
  const DirectVolume2dSchema: Schema := DirectVolumeBaseSchema + map[
    "dGridTexType" := DefineSpec("string", Some(["2d"])),
    "uGridTexDim" := UniformSpec("v2"),
    "tGridTex" := TextureSpec("image-uint8", "rgba", "ubyte", "linear")
  ]

  /** Volume data held in a 3d texture. */
  const DirectVolume3dSchema: Schema := DirectVolumeBaseSchema + map[
    "dGridTexType" := DefineSpec("string", Some(["3d"])),
    "tGridTex" := TextureSpec("volume-uint8", "rgba", "ubyte", "linear")
  ]

  /** The 2d schema keeps every base entry unchanged and adds the 2d grid texture, its define and its dimension uniform. */
  lemma Schema2dExtendsBase()
    ensures DirectVolume2dSchema.Keys == DirectVolumeBaseSchema.Keys + {"dGridTexType", "uGridTexDim", "tGridTex"}
    ensures forall k :: k in DirectVolumeBaseSchema ==> DirectVolume2dSchema[k] == DirectVolumeBaseSchema[k]
    ensures DirectVolume2dSchema["dGridTexType"] == DefineSpec("string", Some(["2d"]))
    ensures DirectVolume2dSchema["uGridTexDim"] == UniformSpec("v2")
    ensures DirectVolume2dSchema["tGridTex"] == TextureSpec("image-uint8", "rgba", "ubyte", "linear")
  {
    BaseSchemaEntries();
  }

  /** The 3d schema keeps every base entry unchanged and adds a volume texture and its define, with no dimension uniform. */
  lemma Schema3dExtendsBase()
    ensures DirectVolume3dSchema.Keys == DirectVolumeBaseSchema.Keys + {"dGridTexType", "tGridTex"}
    ensures forall k :: k in DirectVolumeBaseSchema ==> DirectVolume3dSchema[k] == DirectVolumeBaseSchema[k]
    ensures DirectVolume3dSchema["dGridTexType"] == DefineSpec("string", Some(["3d"]))
    ensures DirectVolume3dSchema["tGridTex"] == TextureSpec("volume-uint8", "rgba", "ubyte", "linear")
    ensures "uGridTexDim" !in DirectVolume3dSchema
  {
    BaseSchemaEntries();
  }

  // ---------------------------------------------------------------------------
  // Values and the renderable

  /** What a value cell holds: an integer, or a payload (array, vector, texture) the model does not inspect. */
  datatype CellValue = Number(n: int) | Payload(handle: nat)

  /** A value cell, as bound into a render item. */
  datatype ValueCell = ValueCell(value: CellValue)

  type Values = map<string, ValueCell>

  /** The shading-language version a variant asks for. */
  datatype GlslVersion = Es100 | Es300

  /**
   * The shared schemas merged below every geometry schema: the process-wide
   * global uniforms and the internal per-object entries.
   */
  datatype SharedSchemas = SharedSchemas(globalUniformSchema: Schema, internalSchema: Schema)

  /** What the render item is built from. */
  datatype RenderItem = RenderItem(drawMode: string, schema: Schema, values: Values)

  /** The renderable: its render item, the caller's values, its state and whether it draws opaquely. */
  datatype Renderable<S> = Renderable(renderItem: RenderItem, values: Values, state: S, isOpaque: bool)

  /** `getInternalValues`: the per-object id cell; the context and the version are not consulted. */
  function GetInternalValues(id: int, version: GlslVersion): (r: Values)
    ensures r.Keys == {"uObjectId"}
    ensures r["uObjectId"].value == Number(id)
  {
    map["uObjectId" := ValueCell(Number(id))]
  }

  /**
   * `DirectVolumeRenderable`: the render item sees the right-biased merge of global,
   * internal and geometry schemas and the caller's values overlaid with the object
   * id; the renderable itself keeps the caller's values and is never opaque.
   */
  function DirectVolumeRenderable<S>(
    shared: SharedSchemas, id: int, values: Values, state: S, schema: Schema, version: GlslVersion): (r: Renderable<S>)
    requires DirectVolumeBaseSchema.Keys <= schema.Keys && DirectVolumeBaseSchema.Keys <= values.Keys
    ensures r.renderItem.drawMode == "triangles"
    ensures r.renderItem.schema.Keys == shared.globalUniformSchema.Keys + shared.internalSchema.Keys + schema.Keys
    ensures forall k :: k in schema ==> r.renderItem.schema[k] == schema[k]
    ensures forall k :: k in shared.internalSchema && k !in schema ==>
      r.renderItem.schema[k] == shared.internalSchema[k]
    ensures forall k :: k in shared.globalUniformSchema && k !in shared.internalSchema && k !in schema ==>
      r.renderItem.schema[k] == shared.globalUniformSchema[k]
    ensures r.renderItem.values.Keys == values.Keys + {"uObjectId"}
    ensures r.renderItem.values["uObjectId"] == ValueCell(Number(id))
    ensures forall k :: k in values && k != "uObjectId" ==> r.renderItem.values[k] == values[k]
    ensures DirectVolumeBaseSchema.Keys <= r.renderItem.values.Keys
    ensures r.values == values && r.state == state && !r.isOpaque
  {
    var parts := [shared.globalUniformSchema, shared.internalSchema, schema];
    var fullSchema := ObjectAssign(parts);
    var internalValues := GetInternalValues(id, version);
    var fullValues := ObjectAssign([values, internalValues]);
    FullSchemaMerge(parts);
    FullValuesMerge(values, internalValues);
    var renderItem := RenderItem("triangles", fullSchema, fullValues);
    Renderable(renderItem, values, state, false)
  }

  /** The three-part schema merge, spelled out key by key. */
  lemma FullSchemaMerge(parts: seq<Schema>)
    requires |parts| == 3
    ensures ObjectAssign(parts).Keys == parts[0].Keys + parts[1].Keys + parts[2].Keys
    ensures forall k :: k in parts[2] ==> ObjectAssign(parts)[k] == parts[2][k]
    ensures forall k :: k in parts[1] && k !in parts[2] ==> ObjectAssign(parts)[k] == parts[1][k]
    ensures forall k :: k in parts[0] && k !in parts[1] && k !in parts[2] ==> ObjectAssign(parts)[k] == parts[0][k]
  {
    ObjectAssignKeys(parts);
    forall k ensures k in ObjectAssign(parts) <==> k in parts[0] || k in parts[1] || k in parts[2] {
      if k in ObjectAssign(parts) {
        var j :| 0 <= j < 3 && k in parts[j];
      }
    }
    forall k | k in parts[2] ensures ObjectAssign(parts)[k] == parts[2][k] {
      ObjectAssignLastWins(parts, 2, k);
    }
    forall k | k in parts[1] && k !in parts[2] ensures ObjectAssign(parts)[k] == parts[1][k] {
      ObjectAssignLastWins(parts, 1, k);
    }
    forall k | k in parts[0] && k !in parts[1] && k !in parts[2] ensures ObjectAssign(parts)[k] == parts[0][k] {
      ObjectAssignLastWins(parts, 0, k);
    }
  }

  /** The caller's values overlaid with the internal values: the internal cells win. */
  lemma FullValuesMerge(values: Values, internalValues: Values)
    ensures ObjectAssign([values, internalValues]).Keys == values.Keys + internalValues.Keys
    ensures forall k :: k in internalValues ==> ObjectAssign([values, internalValues])[k] == internalValues[k]
    ensures forall k :: k in values && k !in internalValues ==> ObjectAssign([values, internalValues])[k] == values[k]
  {
    var parts := [values, internalValues];
    ObjectAssignKeys(parts);
    assert ObjectAssign(parts).Keys == values.Keys + internalValues.Keys by {
      assert parts[0] == values && parts[1] == internalValues;
    }
    forall k | k in internalValues ensures ObjectAssign(parts)[k] == internalValues[k] {
      ObjectAssignLastWins(parts, 1, k);
    }
    forall k | k in values && k !in internalValues ensures ObjectAssign(parts)[k] == values[k] {
      ObjectAssignLastWins(parts, 0, k);
    }
  }

  /** The version argument reaches only `getInternalValues`, which ignores it. */
  lemma VersionIsIgnored<S>(shared: SharedSchemas, id: int, values: Values, state: S, schema: Schema)
    requires DirectVolumeBaseSchema.Keys <= schema.Keys && DirectVolumeBaseSchema.Keys <= values.Keys
    ensures DirectVolumeRenderable(shared, id, values, state, schema, Es100)
         == DirectVolumeRenderable(shared, id, values, state, schema, Es300)
  {
  }

  /** `DirectVolume2dRenderable`: the 2d schema, shading-language version 100es. */
  function DirectVolume2dRenderable<S>(shared: SharedSchemas, id: int, values: Values, state: S): (r: Renderable<S>)
    requires DirectVolume2dSchema.Keys <= values.Keys
    ensures DirectVolume2dSchema.Keys <= r.renderItem.schema.Keys
    ensures forall k :: k in DirectVolume2dSchema ==> r.renderItem.schema[k] == DirectVolume2dSchema[k]
    ensures "tGridTex" in r.renderItem.schema && r.renderItem.schema["tGridTex"] == TextureSpec("image-uint8", "rgba", "ubyte", "linear")
    ensures "uGridTexDim" in r.renderItem.schema && r.renderItem.schema["uGridTexDim"] == UniformSpec("v2")
    ensures DirectVolume2dSchema.Keys + {"uObjectId"} <= r.renderItem.values.Keys
    ensures r.renderItem.values["uObjectId"] == ValueCell(Number(id))
    ensures forall k :: k in values && k != "uObjectId" ==> k in r.renderItem.values && r.renderItem.values[k] == values[k]
    ensures r.renderItem.drawMode == "triangles"
    ensures r.values == values && r.state == state && !r.isOpaque
  {
    Schema2dExtendsBase();
    DirectVolumeRenderable(shared, id, values, state, DirectVolume2dSchema, Es100)
  }

  /** `DirectVolume3dRenderable`: the 3d schema, shading-language version 300es. */
  function DirectVolume3dRenderable<S>(shared: SharedSchemas, id: int, values: Values, state: S): (r: Renderable<S>)
    requires DirectVolume3dSchema.Keys <= values.Keys
    ensures DirectVolume3dSchema.Keys <= r.renderItem.schema.Keys
    ensures forall k :: k in DirectVolume3dSchema ==> r.renderItem.schema[k] == DirectVolume3dSchema[k]
    ensures "tGridTex" in r.renderItem.schema && r.renderItem.schema["tGridTex"] == TextureSpec("volume-uint8", "rgba", "ubyte", "linear")
    ensures "uGridTexDim" in r.renderItem.schema <==>
      "uGridTexDim" in shared.globalUniformSchema || "uGridTexDim" in shared.internalSchema
    ensures DirectVolume3dSchema.Keys + {"uObjectId"} <= r.renderItem.values.Keys
    ensures r.renderItem.values["uObjectId"] == ValueCell(Number(id))
    ensures forall k :: k in values && k != "uObjectId" ==> k in r.renderItem.values && r.renderItem.values[k] == values[k]
    ensures r.renderItem.drawMode == "triangles"
    ensures r.values == values && r.state == state && !r.isOpaque
  {
    Schema3dExtendsBase();
    DirectVolumeRenderable(shared, id, values, state, DirectVolume3dSchema, Es300)
  }
}

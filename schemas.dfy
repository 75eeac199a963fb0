/** Schema fingerprints of a resource (`summarise_schema`) and the geo-HXL test run over them
    (`check_schemas`). */
module Schemas {
  import opened Common
  import opened Metadata
  import opened CheckHistory

  /** One schema of the fingerprint dictionary. */
  datatype Schema = Schema(
    sheet: string,
    sharedWith: seq<string>,
    headers: seq<string>,
    hxlHeaders: Option<seq<string>>,
    dataTypes: seq<string>)

  /** The sheet name given to the single schema of a geospatial resource. */
  const DefaultSheet: string := "__DEFAULT__"

  /** `SHAPE_INFO_DATA_TYPE_LOOKUP`. */
  const DataTypeLookup: map<string, string> := map[
    "character varying" := "string",
    "integer" := "integer",
    "bigint" := "integer",
    "numeric" := "float",
    "USER-DEFINED" := "user-defined",
    "timestamp with time zone" := "timestamp",
    "date" := "date",
    "ARRAY" := "list"]

  /** The HXL tags that count as a standard geodenomination. */
  const GeodenominationHxl: seq<string> := ["#geo+lat", "#geo+lon", "#geo+coord"]

  /** `[""] * n`. */
  function Blanks(n: nat): (r: seq<string>)
    ensures |r| == n && forall i :: 0 <= i < n ==> r[i] == ""
  {
    seq(n, _ => "")
  }

  /** The schemas of the sheets of one completed check: the first sheet with a header hash
      creates its schema, every later one adds the resource name to `shared_with` again. */
  function SheetSchemas(sheets: seq<Sheet>, resourceName: string): map<string, Schema>
    decreases |sheets|
  {
    if sheets == [] then map[]
    else
      var schemas := SheetSchemas(sheets[..|sheets| - 1], resourceName);
      var sheet := sheets[|sheets| - 1];
      if sheet.headerHash !in schemas then
        schemas[sheet.headerHash := Schema(sheet.name, [resourceName], sheet.headers, sheet.hxlHeaders,
                                           Blanks(|sheet.headers|))]
      else
        var known := schemas[sheet.headerHash];
        schemas[sheet.headerHash := known.(sharedWith := known.sharedWith + [resourceName])]
  }

  /** The field names of the layer, in order. */
  function FieldNames(fields: seq<LayerField>): (names: seq<string>)
    ensures |names| == |fields|
    ensures forall i :: 0 <= i < |fields| ==> names[i] == fields[i].fieldName
  {
    seq(|fields|, i requires 0 <= i < |fields| => fields[i].fieldName)
  }

  /** The data types of the layer fields through the lookup table; the first type missing from
      it raises KeyError. */
  function LayerDataTypes(fields: seq<LayerField>): (r: Result<seq<string>>)
    ensures r.Ok? <==> forall i :: 0 <= i < |fields| ==> fields[i].dataType in DataTypeLookup
    ensures r.Ok? ==> |r.value| == |fields|
    ensures r.Ok? ==> forall i :: 0 <= i < |fields| ==> r.value[i] == DataTypeLookup[fields[i].dataType]
    decreases |fields|
  {
    if fields == [] then Ok([])
    else
      match LayerDataTypes(fields[..|fields| - 1])
      case Err(e) => Err(e)
      case Ok(types) =>
        var t := fields[|fields| - 1].dataType;
        if t in DataTypeLookup then Ok(types + [DataTypeLookup[t]]) else Err(MissingKey(t))
  }

  /** What `summarise_schema(resource)` returns; `hashRow` stands for the `hxl` library's
      `hash_row`. Only the last completed check is consulted. */
  function ResourceSchemas(r: Resource, hashRow: seq<string> -> string): Result<map<string, Schema>> {
    if r.fsCheckInfo.Some? then
      var (check, status) := LastCompleteCheck(r, FsCheckInfo);
      if status != Success then Ok(map[])
      else
        match check.fs.sheets
        case None => Err(MissingKey("sheets"))
        case Some(sheets) => Ok(SheetSchemas(sheets, r.name))
    else if r.shapeInfo.Some? then
      var (check, status) := LastCompleteCheck(r, ShapeInfo);
      if status != Success then Ok(map[])
      else
        match check.shape.layerFields
        case None => Err(MissingKey("layer_fields"))
        case Some(fields) =>
          var headers := FieldNames(fields);
          match LayerDataTypes(fields)
          case Err(e) => Err(e)
          case Ok(types) =>
            Ok(map[hashRow(headers) := Schema(DefaultSheet, [r.name], headers, Some(Blanks(|headers|)), types)])
    else
      Ok(map[])
  }

  /** The sheet loop of `summarise_schema`. */
  method SheetSchemaEntries(sheets: seq<Sheet>, resourceName: string) returns (schemas: map<string, Schema>)
    ensures schemas == SheetSchemas(sheets, resourceName)
  {
    schemas := map[];
    var i := 0;
    while i < |sheets|
      invariant 0 <= i <= |sheets|
      invariant schemas == SheetSchemas(sheets[..i], resourceName)
    {
      assert sheets[..i + 1][..i] == sheets[..i];
      var sheet := sheets[i];
      var headerHash := sheet.headerHash;
      if headerHash !in schemas {
        schemas := schemas[headerHash := Schema(sheet.name, [resourceName], sheet.headers,
                                                sheet.hxlHeaders, Blanks(|sheet.headers|))];
      } else {
        schemas := schemas[headerHash := schemas[headerHash].(sharedWith := schemas[headerHash].sharedWith
                                                                             + [resourceName])];
      }
      i := i + 1;
    }
    assert sheets[..i] == sheets;
  }

  /** `summarise_schema`. */
  method SummariseSchema(resource: Resource, hashRow: seq<string> -> string)
    returns (result: Result<map<string, Schema>>)
    ensures result == ResourceSchemas(resource, hashRow)
  {
    var schemas: map<string, Schema> := map[];
    if resource.fsCheckInfo.Some? {
      var check, status := GetLastCompleteCheck(resource, FsCheckInfo);
      if status == Success {
        if check.fs.sheets.None? {
          return Err(MissingKey("sheets"));
        }
        schemas := SheetSchemaEntries(check.fs.sheets.value, resource.name);
      }
    } else if resource.shapeInfo.Some? {
      var check, status := GetLastCompleteCheck(resource, ShapeInfo);
      if status == Success {
        if check.shape.layerFields.None? {
          return Err(MissingKey("layer_fields"));
        }
        var fields := check.shape.layerFields.value;
        var headers := FieldNames(fields);
        var dataTypes := LayerDataTypes(fields);
        if dataTypes.Err? {
          return Err(dataTypes.error);
        }
        var headerHash := hashRow(headers);
        schemas := schemas[headerHash := Schema(DefaultSheet, [resource.name], headers,
                                                Some(Blanks(|headers|)), dataTypes.value)];
      }
    }
    return Ok(schemas);
  }

  /** On an empty `fs_check_info` list the fingerprint dictionary is empty, by the corrected
      lookup; the code as written raises there. */
  lemma EmptyHistorySchemas(r: Resource, hashRow: seq<string> -> string)
    requires r.fsCheckInfo == Some([])
    ensures LastCompleteCheckAsWritten(r, FsCheckInfo).None?
    ensures ResourceSchemas(r, hashRow) == Ok(map[])
  {
  }

  /** A schema carries one of the geodenomination HXL tags. */
  predicate HasGeoTag(schema: Schema) {
    schema.hxlHeaders.Some? &&
    exists i :: 0 <= i < |schema.hxlHeaders.value| && schema.hxlHeaders.value[i] in GeodenominationHxl
  }

  /** Some schema of the dictionary carries a geodenomination tag. */
  predicate AnyGeoTag(schemas: map<string, Schema>) {
    exists h :: h in schemas && HasGeoTag(schemas[h])
  }

  /** `check_schemas`: True exactly when some schema's HXL headers contain "#geo+lat",
      "#geo+lon" or "#geo+coord"; schemas without HXL headers are skipped. */
  method CheckSchemas(schemas: map<string, Schema>) returns (hasGeodenominationHxl: bool)
    ensures hasGeodenominationHxl <==> AnyGeoTag(schemas)
  {
    hasGeodenominationHxl := false;
    var remaining := schemas.Keys;
    while remaining != {}
      invariant remaining <= schemas.Keys
      invariant hasGeodenominationHxl <==> exists h :: h in schemas.Keys - remaining && HasGeoTag(schemas[h])
      decreases remaining
    {
      var schemaHash :| schemaHash in remaining;
      var schema := schemas[schemaHash];
      var found := false;
      if schema.hxlHeaders.Some? {
        var tags := schema.hxlHeaders.value;
        var i := 0;
        while i < |tags|
          invariant 0 <= i <= |tags|
          invariant found ==> HasGeoTag(schema)
          invariant !found ==> forall j :: 0 <= j < i ==> tags[j] !in GeodenominationHxl
        {
          if tags[i] in GeodenominationHxl {
            found := true;
            break;
          }
          i := i + 1;
        }
      }
      assert found <==> HasGeoTag(schema);
      if found {
        hasGeodenominationHxl := true;
      }
      remaining := remaining - {schemaHash};
    }
  }

  // ---------------------------------------------------------------------------------------------
  // Properties of the fingerprints


  function CountHash(sheets: seq<Sheet>, h: string): nat
    decreases |sheets|
  {
    if sheets == [] then 0
    else CountHash(sheets[..|sheets| - 1], h) + (if sheets[|sheets| - 1].headerHash == h then 1 else 0)
  }

  /** The fingerprints are keyed by exactly the header hashes of the sheets. */
  lemma {:induction false} SheetSchemasKeys(sheets: seq<Sheet>, resourceName: string, h: string)
    ensures h in SheetSchemas(sheets, resourceName) <==> exists i :: 0 <= i < |sheets| && sheets[i].headerHash == h
    decreases |sheets|
  {
    if sheets != [] {
      var init := sheets[..|sheets| - 1];
      SheetSchemasKeys(init, resourceName, h);
      if h in SheetSchemas(init, resourceName) {
        var i :| 0 <= i < |init| && init[i].headerHash == h;
        assert sheets[i] == init[i];
      }
      if exists i :: 0 <= i < |sheets| && sheets[i].headerHash == h {
        var i :| 0 <= i < |sheets| && sheets[i].headerHash == h;
        if i < |init| { assert init[i] == sheets[i]; }
      }
    }
  }

  /** Each schema lists the resource name once for every sheet with its header hash. */
  lemma {:induction false} SheetSchemasShared(sheets: seq<Sheet>, resourceName: string, h: string)
    requires h in SheetSchemas(sheets, resourceName)
    ensures SheetSchemas(sheets, resourceName)[h].sharedWith == seq(CountHash(sheets, h), _ => resourceName)
    decreases |sheets|
  {
    var init := sheets[..|sheets| - 1];
    var before := SheetSchemas(init, resourceName);
    if h in before {
      SheetSchemasShared(init, resourceName, h);
    } else {
      assert h == sheets[|sheets| - 1].headerHash;
      if CountHash(init, h) != 0 {
        CountHashPositive(init, h);
        SheetSchemasKeys(init, resourceName, h);
      }
    }
  }

  lemma {:induction false} CountHashPositive(sheets: seq<Sheet>, h: string)
    requires CountHash(sheets, h) != 0
    ensures exists i :: 0 <= i < |sheets| && sheets[i].headerHash == h
    decreases |sheets|
  {
    var init := sheets[..|sheets| - 1];
    if sheets[|sheets| - 1].headerHash != h {
      CountHashPositive(init, h);
      var i :| 0 <= i < |init| && init[i].headerHash == h;
      assert sheets[i] == init[i];
    }
  }

  /** The schema of a header hash is taken from the first sheet that has it. */
  lemma {:induction false} SheetSchemasFirst(sheets: seq<Sheet>, resourceName: string, i: nat)
    requires i < |sheets|
    requires forall j :: 0 <= j < i ==> sheets[j].headerHash != sheets[i].headerHash
    ensures sheets[i].headerHash in SheetSchemas(sheets, resourceName)
    ensures SheetSchemas(sheets, resourceName)[sheets[i].headerHash].sheet == sheets[i].name
    ensures SheetSchemas(sheets, resourceName)[sheets[i].headerHash].headers == sheets[i].headers
    ensures SheetSchemas(sheets, resourceName)[sheets[i].headerHash].hxlHeaders == sheets[i].hxlHeaders
    decreases |sheets|
  {
    var init := sheets[..|sheets| - 1];
    var h := sheets[i].headerHash;
    SheetSchemasKeys(init, resourceName, h);
    if i < |init| {
      assert init[i] == sheets[i];
      assert forall j :: 0 <= j < i ==> init[j] == sheets[j];
      SheetSchemasFirst(init, resourceName, i);
    }
  }

  /** A geospatial resource's schema has blank HXL headers, so it never carries a geo tag. */
  lemma ShapeSchemasHaveNoGeoTag(r: Resource, hashRow: seq<string> -> string)
    requires r.fsCheckInfo.None? && r.shapeInfo.Some?
    requires ResourceSchemas(r, hashRow).Ok?
    ensures forall h :: h in ResourceSchemas(r, hashRow).value ==> !HasGeoTag(ResourceSchemas(r, hashRow).value[h])
  {
    var m := ResourceSchemas(r, hashRow).value;
    forall h | h in m ensures !HasGeoTag(m[h]) {
      var schema := m[h];
      assert schema.hxlHeaders.Some?;
      var tags := schema.hxlHeaders.value;
      forall i | 0 <= i < |tags| ensures tags[i] !in GeodenominationHxl {
        assert tags[i] == "";
      }
    }
  }
}

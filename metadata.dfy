/** The catalog metadata the scoring engine reads: a dataset record, its resources and
    their two kinds of check history, as they look after the JSON-encoded history fields
    have been decoded. A key the Python code tests with `in` or reads with `.get` is an
    `Option` here; a key it indexes unconditionally is a plain field, except `last_modified`,
    whose absence (a KeyError in the timeliness scorer) is modelled. */
module Metadata {
  import opened Common

  /** A scalar metadata value whose Python truthiness matters (copied into a report and
      counted with `if v`). */
  datatype Value = JNull | JBool(b: bool) | JNumber(n: int) | JString(s: string)

  /** Python truthiness of a scalar value. */
  predicate Truthy(v: Value) {
    match v
    case JNull => false
    case JBool(b) => b
    case JNumber(n) => n != 0
    case JString(s) => s != ""
  }

  /** One event of a history list: either a bare string (which the code skips) or a record. */
  datatype Entry<T> = Note(text: string) | Record(record: T)

  /** One entry of a tabular check's `sheet_changes`. For a `spreadsheet-sheet-changed` event
      `firstChangedField` is the `field` of `changed_fields[0]`, the only one the code reads. */
  datatype SheetChange = SheetChange(name: string, eventType: string, firstChangedField: string)

  /** One sheet of `hxl_proxy_response.sheets`. */
  datatype Sheet = Sheet(
    name: string,
    headerHash: string,
    headers: seq<string>,
    hxlHeaders: Option<seq<string>>,
    isHxlated: bool,
    nrows: nat,
    ncols: nat)

  /** One record of `fs_check_info` (a tabular file-structure check). `sheets` is `None` when
      `hxl_proxy_response` has no `sheets` key. */
  datatype FsCheck = FsCheck(
    message: string,
    timestamp: string,
    sheetChanges: seq<SheetChange>,
    sheets: Option<seq<Sheet>>)

  datatype LayerField = LayerField(fieldName: string, dataType: string)

  /** One record of `shape_info` (a geospatial import check). */
  datatype ShapeCheck = ShapeCheck(
    message: string,
    timestamp: Option<string>,
    boundingBox: string,
    layerFields: Option<seq<LayerField>>)

  datatype Resource = Resource(
    name: string,
    id: string,
    format: string,
    downloadUrl: Option<string>,
    inQuarantine: Option<bool>,
    datastoreActive: Option<bool>,
    pCoded: Option<bool>,
    fsCheckInfo: Option<seq<Entry<FsCheck>>>,
    shapeInfo: Option<seq<Entry<ShapeCheck>>>)

  /** The `result` object of a catalog `package_show` response. */
  datatype Dataset = Dataset(
    name: string,
    organizationName: string,
    tags: seq<string>,
    groups: seq<string>,
    dataUpdateFrequency: string,
    dueDate: Option<Value>,          // absent reads as `False`
    lastModified: Option<string>,
    isFresh: Option<Value>,
    dataseriesName: Option<Value>,
    updatedByScript: Option<Value>,
    codLevel: Option<Value>,
    resources: seq<Resource>)

  /** The ways a report compilation stops with a Python exception or an exit. */
  datatype Failure =
    | NoMetadata            // a scorer indexes `None["result"]` (TypeError)
    | NoResources           // `max()` over an empty resource list (ValueError)
    | UnknownFormat(format: string)  // the `sys.exit()` on a format in none of the tiers
    | MissingKey(key: string)        // a KeyError: `summarise_schema`, `summarise_resource`, `last_modified`
    | TypeMismatch(key: string)      // a TypeError: the clock's text compared with a non-text `due_date`
    | NotANumber(text: string)       // a ValueError: `float()` of an update frequency that is no number

  datatype Result<+T> = Ok(value: T) | Err(error: Failure)
}

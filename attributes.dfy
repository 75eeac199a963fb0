/** `read_attributes`: the attributes of one dataset, folded from the rows of an attributes CSV
    file. Four attributes collect their values into lists; every other attribute keeps the
    value of its last row. */
module Attributes {
  import opened Common

  /** One row as `csv.DictReader` yields it: its keys in order and the three columns read. */
  datatype CsvRow = CsvRow(keys: seq<string>, datasetName: string, attribute: string, value: string)

  /** The columns an attributes file must have, in this order. */
  const AttributeColumns: seq<string> := ["dataset_name", "timestamp", "attribute", "value", "secondary_value"]

  /** The attributes whose values accumulate into a list. */
  const ListAttributes: seq<string> := ["resource", "skip_country", "showcase", "tags"]

  /** The attributes dictionary, split by the kind of its values: a list for the attributes of
      `ListAttributes`, a single string for every other attribute. */
  datatype AttributeMap = AttributeMap(lists: map<string, seq<string>>, singles: map<string, string>)

  const NoAttributes := AttributeMap(map[], map[])

  /** The two halves never share a key: list attributes only in `lists`, others only in
      `singles`. */
  predicate WellKinded(attrs: AttributeMap) {
    && (forall a :: a in attrs.lists ==> a in ListAttributes)
    && (forall a :: a in attrs.singles ==> a !in ListAttributes)
  }

  /** One row of this dataset added to the attributes. */
  function AddRow(attrs: AttributeMap, row: CsvRow): (r: AttributeMap)
    requires WellKinded(attrs)
    ensures WellKinded(r)
  {
    var a := row.attribute;
    if a in ListAttributes then
      if a !in attrs.lists then attrs.(lists := attrs.lists[a := [row.value]])
      else attrs.(lists := attrs.lists[a := attrs.lists[a] + [row.value]])
    else attrs.(singles := attrs.singles[a := row.value])
  }

  /** The fold over rows whose header is accepted: rows of other datasets are skipped. */
  function Collect(datasetName: string, rows: seq<CsvRow>): (r: AttributeMap)
    ensures WellKinded(r)
    decreases |rows|
  {
    if rows == [] then NoAttributes
    else
      var before := Collect(datasetName, rows[..|rows| - 1]);
      var row := rows[|rows| - 1];
      if row.datasetName != datasetName then before else AddRow(before, row)
  }

  /** The index of the first row whose keys are not the attribute columns, or the number of
      rows when there is none. */
  function FirstMismatch(rows: seq<CsvRow>): (k: nat)
    ensures k <= |rows|
    ensures forall j :: 0 <= j < k ==> rows[j].keys == AttributeColumns
    ensures k < |rows| ==> rows[k].keys != AttributeColumns
    decreases |rows|
  {
    if rows == [] || rows[0].keys != AttributeColumns then 0
    else 1 + FirstMismatch(rows[1..])
  }

  /** The CSV branch of `read_attributes`: the fold of the rows before the first row with the
      wrong columns, at which the function returns what it has collected. */
  function CsvAttributes(datasetName: string, rows: seq<CsvRow>): AttributeMap {
    Collect(datasetName, rows[..FirstMismatch(rows)])
  }

  /** The loop of the CSV branch. */
  method ReadAttributesCsv(datasetName: string, rows: seq<CsvRow>) returns (attributes: AttributeMap)
    ensures attributes == CsvAttributes(datasetName, rows)
  {
    attributes := NoAttributes;
    var i := 0;
    while i < |rows|
      invariant 0 <= i <= FirstMismatch(rows)
      invariant attributes == Collect(datasetName, rows[..i])
    {
      var row := rows[i];
      assert rows[..i + 1][..i] == rows[..i];
      if row.keys != AttributeColumns {
        return;
      }
      if row.datasetName != datasetName {
        i := i + 1;
        continue;
      }
      if row.attribute in ListAttributes {
        if row.attribute !in attributes.lists {
          attributes := attributes.(lists := attributes.lists[row.attribute := [row.value]]);
        } else {
          attributes := attributes.(lists := attributes.lists[row.attribute := attributes.lists[row.attribute] + [row.value]]);
        }
      } else {
        attributes := attributes.(singles := attributes.singles[row.attribute := row.value]);
      }
      i := i + 1;
    }
  }

  /** Which branch of `read_attributes` a path takes, by its lower-cased extension. */
  datatype FileKind = CsvFile | JsonFile | Unrecognised

  function KindOf(path: string): (k: FileKind)
    ensures k == CsvFile <==> EndsWith(Lower(path), ".csv")
    ensures k == JsonFile <==> !EndsWith(Lower(path), ".csv") && EndsWith(Lower(path), ".json")
  {
    if EndsWith(Lower(path), ".csv") then CsvFile
    else if EndsWith(Lower(path), ".json") then JsonFile
    else Unrecognised
  }

  /** `read_attributes` for a CSV file or an unrecognised extension; the JSON branch is not
      interpreted (`None`). An unrecognised extension gives no attributes. */
  method ReadAttributes(datasetName: string, attributesFilepath: string, rows: seq<CsvRow>)
    returns (attributes: Option<AttributeMap>)
    ensures KindOf(attributesFilepath) == CsvFile ==> attributes == Some(CsvAttributes(datasetName, rows))
    ensures KindOf(attributesFilepath) == JsonFile ==> attributes == None
    ensures KindOf(attributesFilepath) == Unrecognised ==> attributes == Some(NoAttributes)
  {
    var path := Lower(attributesFilepath);
    if EndsWith(path, ".csv") {
      var csv := ReadAttributesCsv(datasetName, rows);
      attributes := Some(csv);
    } else if EndsWith(path, ".json") {
      attributes := None;
    } else {
      attributes := Some(NoAttributes);
    }
  }

  /** The rows of one dataset, in order. */
  function OfDataset(datasetName: string, rows: seq<CsvRow>): (r: seq<CsvRow>)
    ensures forall j :: 0 <= j < |r| ==> r[j].datasetName == datasetName
    ensures |r| <= |rows|
    decreases |rows|
  {
    if rows == [] then []
    else
      var before := OfDataset(datasetName, rows[..|rows| - 1]);
      if rows[|rows| - 1].datasetName == datasetName then before + [rows[|rows| - 1]] else before
  }

  /** Rows of other datasets do not matter: the fold over all rows equals the fold over the
      rows of this dataset. */
  lemma {:induction false} OtherDatasetsIgnored(datasetName: string, rows: seq<CsvRow>)
    ensures Collect(datasetName, rows) == Collect(datasetName, OfDataset(datasetName, rows))
    decreases |rows|
  {
    if rows != [] {
      var init := rows[..|rows| - 1];
      var last := rows[|rows| - 1];
      OtherDatasetsIgnored(datasetName, init);
      if last.datasetName == datasetName {
        var kept := OfDataset(datasetName, init) + [last];
        assert kept[..|kept| - 1] == OfDataset(datasetName, init);
      }
    }
  }

  /** The values of the rows of this dataset that set `attribute`, in row order. */
  function ValuesOf(datasetName: string, attribute: string, rows: seq<CsvRow>): seq<string>
    decreases |rows|
  {
    if rows == [] then []
    else
      var before := ValuesOf(datasetName, attribute, rows[..|rows| - 1]);
      var row := rows[|rows| - 1];
      if row.datasetName == datasetName && row.attribute == attribute then before + [row.value] else before
  }

  /** A list attribute is present exactly when some row of the dataset sets it, and holds the
      values of those rows in order. */
  lemma {:induction false} ListAttributesAccumulate(datasetName: string, attribute: string, rows: seq<CsvRow>)
    requires attribute in ListAttributes
    ensures attribute in Collect(datasetName, rows).lists <==> ValuesOf(datasetName, attribute, rows) != []
    ensures attribute in Collect(datasetName, rows).lists ==>
              Collect(datasetName, rows).lists[attribute] == ValuesOf(datasetName, attribute, rows)
    decreases |rows|
  {
    if rows != [] {
      ListAttributesAccumulate(datasetName, attribute, rows[..|rows| - 1]);
    }
  }

  /** The value of the last row of this dataset that sets `attribute`, if any. */
  function LastValueOf(datasetName: string, attribute: string, rows: seq<CsvRow>): Option<string>
    decreases |rows|
  {
    if rows == [] then None
    else
      var row := rows[|rows| - 1];
      if row.datasetName == datasetName && row.attribute == attribute then Some(row.value)
      else LastValueOf(datasetName, attribute, rows[..|rows| - 1])
  }

  /** Any other attribute holds the value of the last row of the dataset that sets it, and is
      absent when no row does. */
  lemma {:induction false} LastWriteWins(datasetName: string, attribute: string, rows: seq<CsvRow>)
    requires attribute !in ListAttributes
    ensures attribute in Collect(datasetName, rows).singles <==> LastValueOf(datasetName, attribute, rows).Some?
    ensures attribute in Collect(datasetName, rows).singles ==>
              Some(Collect(datasetName, rows).singles[attribute]) == LastValueOf(datasetName, attribute, rows)
    decreases |rows|
  {
    if rows != [] {
      LastWriteWins(datasetName, attribute, rows[..|rows| - 1]);
    }
  }

  /** Rows after a row with the wrong columns are never read. */
  lemma StopsAtMismatch(datasetName: string, rows: seq<CsvRow>, more: seq<CsvRow>)
    requires exists j :: 0 <= j < |rows| && rows[j].keys != AttributeColumns
    ensures CsvAttributes(datasetName, rows + more) == CsvAttributes(datasetName, rows)
  {
    FirstMismatchPrefix(rows, more);
    var k := FirstMismatch(rows);
    assert (rows + more)[..k] == rows[..k];
  }

  lemma {:induction false} FirstMismatchPrefix(rows: seq<CsvRow>, more: seq<CsvRow>)
    requires exists j :: 0 <= j < |rows| && rows[j].keys != AttributeColumns
    ensures FirstMismatch(rows + more) == FirstMismatch(rows) < |rows|
    decreases |rows|
  {
    var all := rows + more;
    assert all[0] == rows[0];
    if rows[0].keys == AttributeColumns {
      var j :| 0 <= j < |rows| && rows[j].keys != AttributeColumns;
      assert j > 0 && rows[1..][j - 1] == rows[j];
      FirstMismatchPrefix(rows[1..], more);
      assert all[1..] == rows[1..] + more;
    }
  }

  /** With every row well-formed, the whole file is folded. */
  lemma AllRowsRead(datasetName: string, rows: seq<CsvRow>)
    requires forall j :: 0 <= j < |rows| ==> rows[j].keys == AttributeColumns
    ensures CsvAttributes(datasetName, rows) == Collect(datasetName, rows)
  {
    assert FirstMismatch(rows) == |rows|;
    assert rows[..|rows|] == rows;
  }
}

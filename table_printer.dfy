/** The arithmetic of `print_table_from_list_of_dicts`: one width per column, the width of the
    horizontal rules, and the lines the table is printed as. */
module TablePrinter {
  import opened Common
  import opened Metadata
  import opened Utilities

  /** One row of the table: its keys in dictionary order and the `str()` of each value. */
  datatype Row = Row(keys: seq<string>, values: map<string, string>)

  const DefaultTruncateWidth: nat := 130
  const DefaultMaxTotalWidth: int := 150

  /** `max(len(str(x[field])) for x in rows + [len(field)])`; a row without the field raises
      `KeyError`. */
  function FieldWidth(rows: seq<Row>, field: string): (w: Result<nat>)
    ensures w.Ok? <==> forall i :: 0 <= i < |rows| ==> field in rows[i].values
    ensures w.Err? ==> w.error == MissingKey(field)
    ensures w.Ok? ==> |field| <= w.value && forall i :: 0 <= i < |rows| ==> |rows[i].values[field]| <= w.value
    ensures w.Ok? ==> w.value == |field| || exists i :: 0 <= i < |rows| && |rows[i].values[field]| == w.value
    decreases |rows|
  {
    if rows == [] then Ok(|field|)
    else
      var init := rows[..|rows| - 1];
      var last := rows[|rows| - 1];
      assert forall i :: 0 <= i < |init| ==> init[i] == rows[i];
      match FieldWidth(init, field)
      case Err(e) => Err(e)
      case Ok(m) =>
        if field in last.values then Ok(Max(m, |last.values[field]|)) else Err(MissingKey(field))
  }

  /** The width of a column whose widest entry is `widest`: one more than that, or the
      truncation width when the entry is wider than it. */
  function ColumnWidth(widest: nat, truncateWidth: nat): (w: nat)
    ensures w <= truncateWidth + 1
    ensures w > widest <==> widest <= truncateWidth
  {
    if widest > truncateWidth then truncateWidth else widest + 1
  }

  /** `column_table_header_dict`: the width of every included field, or the `KeyError` of the
      first included field some row lacks. A field listed twice is entered once. */
  function HeaderWidths(rows: seq<Row>, fields: seq<string>, truncateWidth: nat): (r: Result<map<string, nat>>)
    ensures r.Ok? <==> forall k :: k in fields ==> FieldWidth(rows, k).Ok?
    ensures r.Ok? ==> forall k :: k in r.value <==> k in fields
    ensures r.Ok? ==> forall k :: k in r.value ==> r.value[k] == ColumnWidth(FieldWidth(rows, k).value, truncateWidth)
    decreases |fields|
  {
    if fields == [] then Ok(map[])
    else
      var init := fields[..|fields| - 1];
      var last := fields[|fields| - 1];
      assert forall k :: k in fields <==> k in init || k == last;
      match HeaderWidths(rows, init, truncateWidth)
      case Err(e) => Err(e)
      case Ok(m) =>
        match FieldWidth(rows, last)
        case Err(e) => Err(e)
        case Ok(w) => Ok(m[last := ColumnWidth(w, truncateWidth)])
  }

  /** The error is the `KeyError` of the first included field that some row lacks. */
  lemma {:induction false} HeaderWidthsError(rows: seq<Row>, fields: seq<string>, truncateWidth: nat)
    requires HeaderWidths(rows, fields, truncateWidth).Err?
    ensures exists j :: 0 <= j < |fields| && FieldWidth(rows, fields[j]).Err?
                        && HeaderWidths(rows, fields, truncateWidth).error == MissingKey(fields[j])
                        && forall i :: 0 <= i < j ==> FieldWidth(rows, fields[i]).Ok?
    decreases |fields|
  {
    var init := fields[..|fields| - 1];
    var last := fields[|fields| - 1];
    if HeaderWidths(rows, init, truncateWidth).Err? {
      HeaderWidthsError(rows, init, truncateWidth);
      var j :| 0 <= j < |init| && FieldWidth(rows, init[j]).Err?
               && HeaderWidths(rows, init, truncateWidth).error == MissingKey(init[j])
               && forall i :: 0 <= i < j ==> FieldWidth(rows, init[i]).Ok?;
      assert init[j] == fields[j];
      assert forall i :: 0 <= i < j ==> init[i] == fields[i];
    } else {
      assert FieldWidth(rows, last).Err?;
      assert HeaderWidths(rows, fields, truncateWidth).error == MissingKey(last);
      forall i | 0 <= i < |fields| - 1
        ensures FieldWidth(rows, fields[i]).Ok?
      {
        assert fields[i] == init[i] && init[i] in init;
      }
    }
  }

  /** The inner loop of the width computation: the widest entry of one field. */
  method MaxFieldWidth(rows: seq<Row>, field: string) returns (w: Result<nat>)
    ensures w == FieldWidth(rows, field)
  {
    var widest := |field|;
    var i := 0;
    while i < |rows|
      invariant 0 <= i <= |rows|
      invariant FieldWidth(rows[..i], field) == Ok(widest)
    {
      assert rows[..i + 1][..i] == rows[..i];
      if field !in rows[i].values {
        return Err(MissingKey(field));
      }
      widest := Max(widest, |rows[i].values[field]|);
      i := i + 1;
    }
    assert rows[..i] == rows;
    w := Ok(widest);
  }

  /** The loop that fills `column_table_header_dict`. */
  method ColumnWidths(rows: seq<Row>, fields: seq<string>, truncateWidth: nat) returns (widths: Result<map<string, nat>>)
    ensures widths == HeaderWidths(rows, fields, truncateWidth)
  {
    var header: map<string, nat> := map[];
    var j := 0;
    while j < |fields|
      invariant 0 <= j <= |fields|
      invariant HeaderWidths(rows, fields[..j], truncateWidth) == Ok(header)
    {
      assert fields[..j + 1][..j] == fields[..j];
      var widest := MaxFieldWidth(rows, fields[j]);
      if widest.Err? {
        assert HeaderWidths(rows, fields[..j + 1], truncateWidth).Err?;
        HeaderWidthsStopsAtError(rows, fields, truncateWidth, j + 1);
        return Err(widest.error);
      }
      header := header[fields[j] := ColumnWidth(widest.value, truncateWidth)];
      j := j + 1;
    }
    assert fields[..j] == fields;
    widths := Ok(header);
  }

  /** Once a prefix of the fields fails, the whole list fails with the same error. */
  lemma {:induction false} HeaderWidthsStopsAtError(rows: seq<Row>, fields: seq<string>, truncateWidth: nat, n: nat)
    requires n <= |fields| && HeaderWidths(rows, fields[..n], truncateWidth).Err?
    ensures HeaderWidths(rows, fields, truncateWidth) == HeaderWidths(rows, fields[..n], truncateWidth)
    decreases |fields| - n
  {
    if n < |fields| {
      assert fields[..n + 1][..n] == fields[..n];
      HeaderWidthsStopsAtError(rows, fields, truncateWidth, n + 1);
    } else {
      assert fields[..n] == fields;
    }
  }

  /** The fields in order, each kept at its first occurrence: the keys of the header dictionary
      in insertion order. */
  function Dedup(fields: seq<string>): (d: seq<string>)
    ensures forall k :: k in d <==> k in fields
    ensures forall i, j :: 0 <= i < j < |d| ==> d[i] != d[j]
    decreases |fields|
  {
    if fields == [] then []
    else
      var d := Dedup(fields[..|fields| - 1]);
      assert forall k :: k in fields <==> k in fields[..|fields| - 1] || k == fields[|fields| - 1];
      if fields[|fields| - 1] in d then d else d + [fields[|fields| - 1]]
  }

  predicate Distinct(s: seq<string>) {
    forall i, j :: 0 <= i < j < |s| ==> s[i] != s[j]
  }

  /** Fields without repetitions are their own header keys. */
  lemma {:induction false} DedupDistinct(fields: seq<string>)
    requires Distinct(fields)
    ensures Dedup(fields) == fields
    decreases |fields|
  {
    if fields != [] {
      var init := fields[..|fields| - 1];
      assert Distinct(init);
      DedupDistinct(init);
      assert fields[|fields| - 1] !in init;
      assert init + [fields[|fields| - 1]] == fields;
    }
  }

  /** The fields not in `excluded`, in order. */
  function Shown(fields: seq<string>, excluded: seq<string>): (s: seq<string>)
    ensures forall k :: k in s <==> k in fields && k !in excluded
    ensures |s| <= |fields|
    ensures excluded == [] ==> s == fields
    decreases |fields|
  {
    if fields == [] then []
    else
      var rest := Shown(fields[1..], excluded);
      assert forall k :: k in fields <==> k == fields[0] || k in fields[1..];
      if fields[0] in excluded then rest else [fields[0]] + rest
  }

  /** The sum of the widths of `keys`. */
  function WidthSum(widths: map<string, nat>, keys: seq<string>): nat
    requires forall k :: k in keys ==> k in widths
    decreases |keys|
  {
    if keys == [] then 0 else widths[keys[0]] + WidthSum(widths, keys[1..])
  }

  /** `total_width`: the widths of the shown header keys, plus one per header key, less one. It
      is the width of the horizontal rules. */
  function TotalWidth(widths: map<string, nat>, fields: seq<string>, excluded: seq<string>): int
    requires forall k :: k in fields ==> k in widths
  {
    var keys := Dedup(fields);
    WidthSum(widths, Shown(keys, excluded)) + |keys| - 1
  }

  /** Python's `"|" + f"{text:<{width}.{width}}"`: a bar, then the text cut or padded with
      spaces to exactly `width` characters. */
  function Cell(text: string, width: nat): (c: string)
    ensures |c| == width + 1
    ensures c[0] == '|'
    ensures c[1..1 + |Take(text, width)|] == Take(text, width)
    ensures forall i :: 1 + |Take(text, width)| <= i < |c| ==> c[i] == ' '
    ensures |text| < width ==> c[1..1 + |text|] == text
  {
    var shown := Take(text, width);
    "|" + shown + Repeat(' ', width - |shown|)
  }

  /** The cells of one printed line, over the shown fields; `text` gives each field's text. */
  function Cells(widths: map<string, nat>, keys: seq<string>, text: string -> string): (line: string)
    requires forall k :: k in keys ==> k in widths
    ensures |line| == WidthSum(widths, keys) + |keys|
    decreases |keys|
  {
    if keys == [] then "" else Cell(text(keys[0]), widths[keys[0]]) + Cells(widths, keys[1..], text)
  }

  /** The length of a line of cells over `shown`: each cell and the closing bar. */
  function LineWidth(widths: map<string, nat>, shown: seq<string>): nat
    requires forall k :: k in shown ==> k in widths
  {
    WidthSum(widths, shown) + |shown| + 1
  }

  /** The header line: the field names in their cells, closed by a bar. */
  function HeaderLine(widths: map<string, nat>, fields: seq<string>, excluded: seq<string>): (line: string)
    requires forall k :: k in fields ==> k in widths
    ensures |line| == LineWidth(widths, Shown(fields, excluded))
    ensures line[0] == '|' && line[|line| - 1] == '|'
  {
    Cells(widths, Shown(fields, excluded), k => k) + "|"
  }

  /** The line of one row. */
  function RowLine(widths: map<string, nat>, fields: seq<string>, excluded: seq<string>, row: Row): (line: string)
    requires forall k :: k in fields ==> k in widths
    ensures |line| == LineWidth(widths, Shown(fields, excluded))
    ensures line[0] == '|' && line[|line| - 1] == '|'
  {
    Cells(widths, Shown(fields, excluded), k => if k in row.values then row.values[k] else "") + "|"
  }

  function RowLines(widths: map<string, nat>, fields: seq<string>, excluded: seq<string>, rows: seq<Row>)
    : (lines: seq<string>)
    requires forall k :: k in fields ==> k in widths
    ensures |lines| == |rows|
    ensures forall i :: 0 <= i < |rows| ==> lines[i] == RowLine(widths, fields, excluded, rows[i])
    decreases |rows|
  {
    if rows == [] then [] else [RowLine(widths, fields, excluded, rows[0])] + RowLines(widths, fields, excluded, rows[1..])
  }

  const WarningHead := "Calculated total_width of "
  const WarningMiddle := " exceeds proposed max_total_width of "
  const WarningTail := ". The resulting table may be unattractive."

  /** The warning printed (after an empty line) when the rules are wider than allowed. */
  function WidthWarning(totalWidth: int, maxTotalWidth: int): string {
    WarningHead + IntText(totalWidth) + WarningMiddle + IntText(maxTotalWidth) + WarningTail
  }

  /** The lines of a table over `fields` whose column widths are `widths`. */
  function TableLines(rows: seq<Row>, fields: seq<string>, excluded: seq<string>, widths: map<string, nat>,
                      maxTotalWidth: int)
    : seq<string>
    requires forall k :: k in fields ==> k in widths
  {
    var total := TotalWidth(widths, fields, excluded);
    var rule := Repeat('-', if total < 0 then 0 else total);
    var warning := if total > maxTotalWidth then ["", WidthWarning(total, maxTotalWidth)] else [];
    warning + [rule, HeaderLine(widths, fields, excluded), rule]
    + RowLines(widths, fields, excluded, rows) + [rule]
  }

  /** `print_table_from_list_of_dicts` as the lines it prints. `included` defaults to the keys
      of the first row; the only error is the `KeyError` of a row lacking an included field. */
  function Table(rows: seq<Row>, excluded: seq<string>, included: Option<seq<string>>,
                 truncateWidth: nat, maxTotalWidth: int)
    : (r: Result<seq<string>>)
    ensures rows == [] ==> r == Ok([])
  {
    if rows == [] then Ok([])
    else
      var fields := included.GetOr(rows[0].keys);
      match HeaderWidths(rows, fields, truncateWidth)
      case Err(e) => Err(e)
      case Ok(widths) => Ok(TableLines(rows, fields, excluded, widths, maxTotalWidth))
  }

  /** Every column is wider than every entry when nothing is truncated, so no entry is cut;
      otherwise it is the truncation width. */
  lemma ColumnWidthFits(rows: seq<Row>, field: string, truncateWidth: nat)
    requires FieldWidth(rows, field).Ok?
    ensures var w := ColumnWidth(FieldWidth(rows, field).value, truncateWidth);
            FieldWidth(rows, field).value <= truncateWidth ==>
              |field| < w && forall i :: 0 <= i < |rows| ==> |rows[i].values[field]| < w
    ensures FieldWidth(rows, field).value > truncateWidth ==>
              ColumnWidth(FieldWidth(rows, field).value, truncateWidth) == truncateWidth
  {
  }

  /** With no exclusions and no repeated field, every line of cells is two characters longer
      than the rules. */
  lemma LinesAgainstRules(widths: map<string, nat>, fields: seq<string>, row: Row)
    requires forall k :: k in fields ==> k in widths
    requires Distinct(fields) && |fields| > 0
    ensures |HeaderLine(widths, fields, [])| == TotalWidth(widths, fields, []) + 2
    ensures |RowLine(widths, fields, [], row)| == TotalWidth(widths, fields, []) + 2
  {
    DedupDistinct(fields);
  }

  /** The printed table of a non-empty list: a warning (an empty line and the message) when
      the rules are too wide, then a rule, the header line, a rule, one line per row and a
      closing rule. The rules are `total_width` dashes; every other line has the width of the
      shown cells and the closing bar. */
  lemma TableLayout(rows: seq<Row>, excluded: seq<string>, included: Option<seq<string>>,
                    truncateWidth: nat, maxTotalWidth: int)
    requires rows != [] && HeaderWidths(rows, included.GetOr(rows[0].keys), truncateWidth).Ok?
    ensures var fields := included.GetOr(rows[0].keys);
            var widths := HeaderWidths(rows, fields, truncateWidth).value;
            var total := TotalWidth(widths, fields, excluded);
            var shown := Shown(fields, excluded);
            var off := if total > maxTotalWidth then 2 else 0;
            var r := Table(rows, excluded, included, truncateWidth, maxTotalWidth);
            && r.Ok? && |r.value| == off + |rows| + 4
            && (total > maxTotalWidth ==> r.value[0] == "" && r.value[1] == WidthWarning(total, maxTotalWidth))
            && |r.value[off]| == |r.value[off + 2]| == |r.value[|r.value| - 1]| == Max(total, 0)
            && forall i :: (i == off + 1 || off + 3 <= i < |r.value| - 1) ==>
                 |r.value[i]| == LineWidth(widths, shown)
  {
    var fields := included.GetOr(rows[0].keys);
    var widths := HeaderWidths(rows, fields, truncateWidth).value;
    TableRules(rows, fields, excluded, widths, maxTotalWidth);
    TableCells(rows, fields, excluded, widths, maxTotalWidth);
  }

  /** Where the parts of a printed table sit among its lines. */
  lemma FrameAt<T>(warning: seq<T>, rule: T, header: T, body: seq<T>)
    ensures var lines := warning + [rule, header, rule] + body + [rule];
            && |lines| == |warning| + |body| + 4
            && (forall i :: 0 <= i < |warning| ==> lines[i] == warning[i])
            && lines[|warning|] == rule && lines[|warning| + 1] == header && lines[|warning| + 2] == rule
            && lines[|lines| - 1] == rule
            && forall i :: 0 <= i < |body| ==> lines[|warning| + 3 + i] == body[i]
  {
  }

  /** The warning, the rules and the number of lines of a table. */
  lemma TableRules(rows: seq<Row>, fields: seq<string>, excluded: seq<string>, widths: map<string, nat>,
                   maxTotalWidth: int)
    requires forall k :: k in fields ==> k in widths
    ensures var total := TotalWidth(widths, fields, excluded);
            var off := if total > maxTotalWidth then 2 else 0;
            var lines := TableLines(rows, fields, excluded, widths, maxTotalWidth);
            && |lines| == off + |rows| + 4
            && (total > maxTotalWidth ==> lines[0] == "" && lines[1] == WidthWarning(total, maxTotalWidth))
            && |lines[off]| == |lines[off + 2]| == |lines[|lines| - 1]| == Max(total, 0)
  {
    var total := TotalWidth(widths, fields, excluded);
    var rule := Repeat('-', if total < 0 then 0 else total);
    var warning: seq<string> := if total > maxTotalWidth then ["", WidthWarning(total, maxTotalWidth)] else [];
    FrameAt(warning, rule, HeaderLine(widths, fields, excluded), RowLines(widths, fields, excluded, rows));
  }

  /** The header line and the row lines of a table. */
  lemma TableCells(rows: seq<Row>, fields: seq<string>, excluded: seq<string>, widths: map<string, nat>,
                   maxTotalWidth: int)
    requires forall k :: k in fields ==> k in widths
    ensures var total := TotalWidth(widths, fields, excluded);
            var shown := Shown(fields, excluded);
            var off := if total > maxTotalWidth then 2 else 0;
            var lines := TableLines(rows, fields, excluded, widths, maxTotalWidth);
            && |lines| == off + |rows| + 4
            && forall i :: (i == off + 1 || off + 3 <= i < |lines| - 1) ==>
                 |lines[i]| == LineWidth(widths, shown)
  {
    var total := TotalWidth(widths, fields, excluded);
    var shown := Shown(fields, excluded);
    var rule := Repeat('-', if total < 0 then 0 else total);
    var warning: seq<string> := if total > maxTotalWidth then ["", WidthWarning(total, maxTotalWidth)] else [];
    var body := RowLines(widths, fields, excluded, rows);
    FrameAt(warning, rule, HeaderLine(widths, fields, excluded), body);
  }

  lemma ThreeColumnWidths(row: Row, widths: map<string, nat>)
    requires row == Row(["column a", "column b", "column c"],
                        map["column a" := "a", "column b" := "b", "column c" := "c"])
    requires widths == map["column a" := 9, "column b" := 9, "column c" := 9]
    ensures HeaderWidths([row], row.keys, DefaultTruncateWidth) == Ok(widths)
  {
    assert FieldWidth([row], "column a") == Ok(8);
    assert FieldWidth([row], "column b") == Ok(8);
    assert FieldWidth([row], "column c") == Ok(8);
    assert row.keys[..2][..1] == ["column a"];
  }

  /** The three-column table of one row with one-letter values: rules of 29 characters and
      lines of 31. */
  lemma ThreeColumnExample()
    ensures var row := Row(["column a", "column b", "column c"],
                           map["column a" := "a", "column b" := "b", "column c" := "c"]);
            var r := Table([row], [], None, DefaultTruncateWidth, DefaultMaxTotalWidth);
            && r.Ok? && |r.value| == 5
            && |r.value[0]| == 29 && |r.value[1]| == 31 && |r.value[2]| == 29
            && |r.value[3]| == 31 && |r.value[4]| == 29
  {
    var row := Row(["column a", "column b", "column c"],
                   map["column a" := "a", "column b" := "b", "column c" := "c"]);
    var widths := map["column a" := 9, "column b" := 9, "column c" := 9];
    ThreeColumnWidths(row, widths);
    ThreeColumnTotals(row, widths);
    TableLayout([row], [], None, DefaultTruncateWidth, DefaultMaxTotalWidth);
  }

  lemma ThreeColumnTotals(row: Row, widths: map<string, nat>)
    requires row.keys == ["column a", "column b", "column c"]
    requires widths == map["column a" := 9, "column b" := 9, "column c" := 9]
    ensures TotalWidth(widths, row.keys, []) == 29
    ensures LineWidth(widths, Shown(row.keys, [])) == 31
  {
    assert Distinct(row.keys);
    DedupDistinct(row.keys);
    var keys := row.keys;
    assert keys[1..][1..] == ["column c"] && keys[1..][1..][1..] == [];
    assert WidthSum(widths, ["column c"]) == 9;
    assert WidthSum(widths, keys[1..]) == 18;
    assert WidthSum(widths, keys) == 27;
  }
}

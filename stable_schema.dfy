/** The per-resource overview the stable-schema helpers print (`summarise_resource`): file
    name, format, quarantine flag and one line per sheet of the last completed check. */
module StableSchema {
  import opened Common
  import opened Metadata
  import opened CheckHistory

  datatype ResourceSummary = ResourceSummary(
    format: string,
    filename: string,
    inQuarantine: bool,
    sheets: seq<string>,
    boundingBox: Option<string>)

  /** Python's `s.split("/")[-1]`: the text after the last "/", or all of `s` when it has none. */
  function LastSegment(s: string): (r: string)
    ensures EndsWith(s, r)
    ensures '/' !in r
    ensures |r| < |s| ==> s[|s| - |r| - 1] == '/'
    decreases |s|
  {
    if s == [] then []
    else if s[|s| - 1] == '/' then []
    else
      var init := s[..|s| - 1];
      var r := LastSegment(init);
      assert s[|s| - 1 - |r|..] == init[|init| - |r|..] + [s[|s| - 1]];
      assert |r| < |init| ==> s[|s| - |r| - 2] == init[|init| - |r| - 1];
      r + [s[|s| - 1]]
  }

  /** The description line of one sheet. */
  function SheetLine(name: string, ncols: string, nrows: string): string {
    name + " (n_columns:" + ncols + " x n_rows:" + nrows + ")"
  }

  function SheetLines(sheets: seq<Sheet>): (lines: seq<string>)
    ensures |lines| == |sheets|
    ensures forall i :: 0 <= i < |sheets| ==>
              lines[i] == SheetLine(sheets[i].name, NatToString(sheets[i].ncols), NatToString(sheets[i].nrows))
    decreases |sheets|
  {
    if sheets == [] then []
    else
      var s := sheets[|sheets| - 1];
      SheetLines(sheets[..|sheets| - 1]) + [SheetLine(s.name, NatToString(s.ncols), NatToString(s.nrows))]
  }

  /** The sheet lines and bounding box of one resource; reading `sheets` or `layer_fields` of
      a completed check that lacks them raises KeyError. */
  function CheckSummary(r: Resource): Result<(seq<string>, Option<string>)> {
    if r.fsCheckInfo.Some? then
      var (check, status) := LastCompleteCheck(r, FsCheckInfo);
      if status != Success then Ok(([], None))
      else if check.fs.sheets.None? then Err(MissingKey("sheets"))
      else Ok((SheetLines(check.fs.sheets.value), None))
    else if r.shapeInfo.Some? then
      var (check, status) := LastCompleteCheck(r, ShapeInfo);
      if status != Success then Ok(([], None))
      else if check.shape.layerFields.None? then Err(MissingKey("layer_fields"))
      else Ok(([SheetLine(DefaultSheetName, NatToString(|check.shape.layerFields.value|), "N/A")],
               Some(check.shape.boundingBox)))
    else Ok(([], None))
  }

  /** On an empty `fs_check_info` list the summary has no sheet lines, by the corrected lookup;
      the code as written raises there. */
  lemma EmptyHistorySummary(r: Resource)
    requires r.fsCheckInfo == Some([])
    ensures LastCompleteCheckAsWritten(r, FsCheckInfo).None?
    ensures CheckSummary(r) == Ok(([], None))
  {
  }

  function Filename(r: Resource): string {
    if r.downloadUrl.Some? then LastSegment(r.downloadUrl.value) else ""
  }

  /** The summary of one resource. */
  function Summary(r: Resource): Result<ResourceSummary> {
    match CheckSummary(r)
    case Err(e) => Err(e)
    case Ok((sheets, boundingBox)) =>
      Ok(ResourceSummary(r.format, Filename(r), r.inQuarantine.GetOr(false), sheets, boundingBox))
  }

  const DefaultSheetName: string := "__DEFAULT__"

  /** The summaries keyed by resource name; the first failing resource stops the whole call. */
  function Summaries(resources: seq<Resource>): Result<map<string, ResourceSummary>>
    decreases |resources|
  {
    if resources == [] then Ok(map[])
    else
      match Summaries(resources[..|resources| - 1])
      case Err(e) => Err(e)
      case Ok(m) =>
        var last := resources[|resources| - 1];
        match Summary(last)
        case Err(e) => Err(e)
        case Ok(s) => Ok(m[last.name := s])
  }

  /** `summarise_resource`. The closing print of the last status text is not modelled. */
  method SummariseResource(metadata: Dataset) returns (result: Result<map<string, ResourceSummary>>)
    ensures result == Summaries(metadata.resources)
  {
    var resources := metadata.resources;
    var summaries: map<string, ResourceSummary> := map[];
    var i := 0;
    while i < |resources|
      invariant 0 <= i <= |resources|
      invariant Summaries(resources[..i]) == Ok(summaries)
    {
      assert resources[..i + 1][..i] == resources[..i];
      var resource := resources[i];
      var summary := SummariseOne(resource);
      if summary.Err? {
        SummariesStopAtFailure(resources, i + 1);
        return Err(summary.error);
      }
      summaries := summaries[resource.name := summary.value];
      i := i + 1;
    }
    assert resources[..i] == resources;
    return Ok(summaries);
  }

  /** Once a prefix of the resources fails, the whole list fails the same way. */
  lemma {:induction false} SummariesStopAtFailure(resources: seq<Resource>, n: nat)
    requires n <= |resources|
    requires Summaries(resources[..n]).Err?
    ensures Summaries(resources) == Summaries(resources[..n])
    decreases |resources| - n
  {
    if n < |resources| {
      assert resources[..n + 1][..n] == resources[..n];
      SummariesStopAtFailure(resources, n + 1);
    } else {
      assert resources[..n] == resources;
    }
  }

  /** The loop over the sheets of a completed tabular check: one description line per sheet. */
  method DescribeSheets(sheets: seq<Sheet>) returns (sheetLines: seq<string>)
    ensures sheetLines == SheetLines(sheets)
  {
    sheetLines := [];
    var j := 0;
    while j < |sheets|
      invariant 0 <= j <= |sheets|
      invariant sheetLines == SheetLines(sheets[..j])
    {
      assert sheets[..j + 1][..j] == sheets[..j];
      var sheet := sheets[j];
      sheetLines := sheetLines + [SheetLine(sheet.name, NatToString(sheet.ncols), NatToString(sheet.nrows))];
      j := j + 1;
    }
    assert sheets[..j] == sheets;
  }

  /** The body of the loop of `summarise_resource` for one resource. */
  method SummariseOne(resource: Resource) returns (result: Result<ResourceSummary>)
    ensures result == Summary(resource)
  {
    var filename := if resource.downloadUrl.Some? then LastSegment(resource.downloadUrl.value) else "";
    var sheetLines: seq<string> := [];
    var boundingBox: Option<string> := None;
    if resource.fsCheckInfo.Some? {
      var check, status := GetLastCompleteCheck(resource, FsCheckInfo);
      if status == Success {
        if check.fs.sheets.None? {
          return Err(MissingKey("sheets"));
        }
        sheetLines := DescribeSheets(check.fs.sheets.value);
      }
    } else if resource.shapeInfo.Some? {
      var check, status := GetLastCompleteCheck(resource, ShapeInfo);
      if status == Success {
        if check.shape.layerFields.None? {
          return Err(MissingKey("layer_fields"));
        }
        var ncols := |check.shape.layerFields.value|;
        sheetLines := sheetLines + [SheetLine(DefaultSheetName, NatToString(ncols), "N/A")];
        boundingBox := Some(check.shape.boundingBox);
        assert sheetLines == [SheetLine(DefaultSheetName, NatToString(ncols), "N/A")];
      }
    }
    assert CheckSummary(resource) == Ok((sheetLines, boundingBox));
    return Ok(ResourceSummary(resource.format, filename, resource.inQuarantine.GetOr(false), sheetLines, boundingBox));
  }

  // ---------------------------------------------------------------------------------------------
  // Properties of the summary

  /** Every resource field copied into the summary, and the sheet lines: one per sheet of the
      last completed tabular check, none when there is none, exactly one "__DEFAULT__" line
      with the layer-field count for a completed geospatial check. */
  lemma SummaryFields(r: Resource)
    requires Summary(r).Ok?
    ensures var s := Summary(r).value;
            && s.format == r.format
            && s.inQuarantine == (r.inQuarantine == Some(true))
            && (r.downloadUrl.None? ==> s.filename == "")
            && (r.downloadUrl.Some? ==> EndsWith(r.downloadUrl.value, s.filename) && '/' !in s.filename)
    ensures var s := Summary(r).value;
            var (check, status) := LastCompleteCheck(r, FsCheckInfo);
            r.fsCheckInfo.Some? ==>
              && s.boundingBox.None?
              && (status != Success ==> s.sheets == [])
              && (status == Success ==> check.fs.sheets.Some? && |s.sheets| == |check.fs.sheets.value|)
    ensures var s := Summary(r).value;
            var (check, status) := LastCompleteCheck(r, ShapeInfo);
            r.fsCheckInfo.None? && r.shapeInfo.Some? ==>
              && (status != Success ==> s.sheets == [] && s.boundingBox.None?)
              && (status == Success ==>
                    && check.shape.layerFields.Some?
                    && s.sheets == [DefaultSheetName + " (n_columns:" + NatToString(|check.shape.layerFields.value|)
                                    + " x n_rows:" + "N/A" + ")"]
                    && s.boundingBox == Some(check.shape.boundingBox))
    ensures r.fsCheckInfo.None? && r.shapeInfo.None? ==> Summary(r).value.sheets == []
  {
  }

  /** A successful call has exactly one entry per resource name, and the entry of a name is
      the summary of the last resource carrying it. */
  lemma {:induction false} SummariesEntry(resources: seq<Resource>, i: nat)
    requires Summaries(resources).Ok?
    requires i < |resources|
    requires forall j :: i < j < |resources| ==> resources[j].name != resources[i].name
    ensures Summary(resources[i]).Ok?
    ensures resources[i].name in Summaries(resources).value
    ensures Summaries(resources).value[resources[i].name] == Summary(resources[i]).value
    decreases |resources|
  {
    var init := resources[..|resources| - 1];
    if i < |init| {
      assert forall j :: i < j < |init| ==> init[j] == resources[j];
      assert init[i] == resources[i];
      SummariesEntry(init, i);
    } else {
      assert Summaries(init).Ok?;
    }
  }

  /** When the call fails, some resource's own summary fails. */
  lemma {:induction false} SummariesFailure(resources: seq<Resource>)
    requires Summaries(resources).Err?
    ensures exists i :: 0 <= i < |resources| && Summary(resources[i]) == Err(Summaries(resources).error)
    decreases |resources|
  {
    var init := resources[..|resources| - 1];
    if Summaries(init).Err? {
      SummariesFailure(init);
      var i :| 0 <= i < |init| && Summary(init[i]) == Err(Summaries(init).error);
      assert resources[i] == init[i];
    } else {
      assert Summary(resources[|resources| - 1]) == Err(Summaries(resources).error);
    }
  }

  /** Some resource of `resources` is called `name`. */
  predicate Named(resources: seq<Resource>, name: string) {
    exists i :: 0 <= i < |resources| && resources[i].name == name
  }

  lemma NamedSnoc(resources: seq<Resource>, name: string)
    requires resources != []
    ensures Named(resources, name) <==>
              Named(resources[..|resources| - 1], name) || resources[|resources| - 1].name == name
  {
    var init := resources[..|resources| - 1];
    if Named(init, name) {
      var i :| 0 <= i < |init| && init[i].name == name;
      assert resources[i] == init[i];
    }
    if Named(resources, name) {
      var i :| 0 <= i < |resources| && resources[i].name == name;
      if i < |init| { assert init[i] == resources[i]; }
    }
  }

  /** The keys of a successful call are exactly the resource names. */
  lemma {:induction false} SummariesKeys(resources: seq<Resource>)
    requires Summaries(resources).Ok?
    ensures forall name :: name in Summaries(resources).value <==> Named(resources, name)
    decreases |resources|
  {
    if resources != [] {
      var init := resources[..|resources| - 1];
      var last := resources[|resources| - 1];
      SummariesKeys(init);
      assert Summaries(resources).value.Keys == Summaries(init).value.Keys + {last.name};
      forall name ensures name in Summaries(resources).value <==> Named(resources, name) {
        NamedSnoc(resources, name);
      }
    }
  }
}

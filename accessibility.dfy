/** The accessibility dimension: a three-tier format lookup, the per-resource score (tier,
    HAPI input, HXL-tagged sheets, a single schema change) and the dataset score, which takes
    the best resource and adds one for a non-empty tag list. */
module Accessibility {
  import opened Common
  import opened Metadata
  import opened CheckHistory

  const GoldFormats: seq<string> := ["CSV", "JSON", "GEOJSON", "XML", "KML", "GEOTIFF", "GEOPACKAGE", "TXT"]
  const SilverFormats: seq<string> := ["XLSX", "XLS", "SHP", "GEODATABASE", "GEOSERVICE"]
  const BronzeFormats: seq<string> := ["PDF", "DOC", "DOCX", "WEB APP", "GARMIN IMG", "EMF"]

  /** The format score of the upper-cased format; `None` is the fatal "Unknown resource format". */
  function FormatTier(format: string): Option<nat> {
    var f := Upper(format);
    if f in GoldFormats then Some(2)
    else if f in SilverFormats then Some(1)
    else if f in BronzeFormats then Some(0)
    else None
  }

  lemma UpperIdempotent(s: string)
    ensures Upper(Upper(s)) == Upper(s)
  {
    assert forall i :: 0 <= i < |s| ==> Upper(Upper(s))[i] == Upper(s)[i];
  }

  lemma UpperOfLower(s: string)
    ensures Upper(Lower(s)) == Upper(s)
  {
    assert forall i :: 0 <= i < |s| ==> Upper(Lower(s))[i] == Upper(s)[i];
  }

  /** The lookup ignores case: "csv", "Csv" and "CSV" score alike. */
  lemma FormatTierIgnoresCase(format: string)
    ensures FormatTier(Upper(format)) == FormatTier(format)
    ensures FormatTier(Lower(format)) == FormatTier(format)
  {
    UpperIdempotent(format);
    UpperOfLower(format);
  }

  /** The tiers are disjoint and every tier is at most 2. */
  lemma FormatTierValues(format: string)
    ensures FormatTier(format).Some? ==> FormatTier(format).value <= 2
    ensures FormatTier(format) == Some(2) <==> Upper(format) in GoldFormats
    ensures FormatTier(format) == Some(1) <==> Upper(format) in SilverFormats
    ensures FormatTier(format) == Some(0) <==> Upper(format) in BronzeFormats
    ensures FormatTier(format).None? <==>
              Upper(format) !in GoldFormats && Upper(format) !in SilverFormats && Upper(format) !in BronzeFormats
  {
  }

  /** `f"{format_score} ({format_})"`. */
  function FormatScoreText(tier: nat, format: string): string {
    NatToString(tier) + " (" + Upper(format) + ")"
  }

  /** One entry of `accessibility.resources`. */
  datatype ResourceAccessibility = ResourceAccessibility(
    name: string,
    formatScore: string,
    inHapi: bool,
    isHxlated: bool,
    nSchemaChanges: nat)

  function CountHxlated(sheets: seq<Sheet>): (n: nat)
    ensures n <= |sheets|
    decreases |sheets|
  {
    if sheets == [] then 0
    else CountHxlated(sheets[..|sheets| - 1]) + BoolToNat(sheets[|sheets| - 1].isHxlated)
  }

  /** The number of HXL-tagged sheets of the last completed file-structure check; a check
      whose proxy response has no `sheets` key contributes none. */
  function HxlatedSheets(r: Resource): nat {
    if r.fsCheckInfo.None? then 0
    else
      var (check, status) := LastCompleteCheck(r, FsCheckInfo);
      if status == Success && check.fs.sheets.Some? then CountHxlated(check.fs.sheets.value) else 0
  }

  /** On an empty `fs_check_info` list no sheet counts as HXL-tagged, by the corrected lookup;
      the code as written raises there. */
  lemma EmptyHistoryHxlated(r: Resource)
    requires r.fsCheckInfo == Some([])
    ensures LastCompleteCheckAsWritten(r, FsCheckInfo).None?
    ensures HxlatedSheets(r) == 0
  {
  }

  /** An indicator that marks a schema change: it contains "*" and not "nrows". */
  predicate IsSchemaChange(indicator: string) {
    Contains(indicator, "*") && !Contains(indicator, "nrows")
  }

  function SchemaChanges(checks: seq<string>): (n: nat)
    ensures n <= |checks|
    decreases |checks|
  {
    if checks == [] then 0
    else SchemaChanges(checks[..|checks| - 1]) + BoolToNat(IsSchemaChange(checks[|checks| - 1]))
  }

  /** The entry and the score of one resource whose change indicators are `checks`. */
  function ResourceAccessOf(r: Resource, checks: seq<string>, hapiIds: set<string>)
    : Result<(ResourceAccessibility, nat)>
  {
    match FormatTier(r.format)
    case None => Err(UnknownFormat(r.format))
    case Some(tier) =>
      var nSchemaChanges := SchemaChanges(checks);
      var hxlated := HxlatedSheets(r);
      Ok((ResourceAccessibility(r.name, FormatScoreText(tier, r.format), r.id in hapiIds, hxlated > 0, nSchemaChanges),
          tier + BoolToNat(r.id in hapiIds) + hxlated + BoolToNat(nSchemaChanges == 1)))
  }

  /** The per-resource outcomes, in resource order. */
  function AccessResults(all: seq<Resource>, changes: map<string, seq<string>>, hapiIds: set<string>): (results: seq<Result<(ResourceAccessibility, nat)>>)
    ensures |results| == |all|
    ensures forall i {:trigger results[i]} :: 0 <= i < |all| ==>
              results[i] == ResourceAccessOf(all[i], ChecksIn(changes, all[i].name), hapiIds)
  {
    seq(|all|, i requires 0 <= i < |all| => ResourceAccessOf(all[i], ChecksIn(changes, all[i].name), hapiIds))
  }

  /** The loop over the resources: the entries in order and the running maximum of the scores,
      which starts at 0; the first resource of unknown format stops the scan. */
  function Scan(results: seq<Result<(ResourceAccessibility, nat)>>): Result<(seq<ResourceAccessibility>, nat)>
    decreases |results|
  {
    if results == [] then Ok(([], 0))
    else
      match Scan(results[..|results| - 1])
      case Err(e) => Err(e)
      case Ok((reports, best)) =>
        match results[|results| - 1]
        case Err(e) => Err(e)
        case Ok((report, score)) => Ok((reports + [report], if score > best then score else best))
  }

  /** The accessibility section: `n_tags` counts tags and groups together. */
  datatype AccessibilityReport = AccessibilityReport(nTags: nat, resources: seq<ResourceAccessibility>)

  /** The accessibility section and score of a dataset. */
  function AccessibilityOf(metadata: Dataset, changes: map<string, seq<string>>, hapiIds: set<string>): Result<(AccessibilityReport, nat)> {
    match Scan(AccessResults(metadata.resources, changes, hapiIds))
    case Err(e) => Err(e)
    case Ok((reports, best)) =>
      Ok((AccessibilityReport(|metadata.tags| + |metadata.groups|, reports), best + BoolToNat(|metadata.tags| > 0)))
  }

  /** The loop over the sheets of the last completed check: one per HXL-tagged sheet. */
  method HxlatedSheetCount(resource: Resource) returns (hxlated: nat)
    ensures hxlated == HxlatedSheets(resource)
  {
    hxlated := 0;
    if resource.fsCheckInfo.Some? {
      var check, status := GetLastCompleteCheck(resource, FsCheckInfo);
      if status == Success && check.fs.sheets.Some? {
        hxlated := CountHxlatedSheets(check.fs.sheets.value);
      }
    }
  }

  /** The loop over the sheets of the last completed check: one per hxlated sheet. */
  method CountHxlatedSheets(sheets: seq<Sheet>) returns (hxlated: nat)
    ensures hxlated == CountHxlated(sheets)
  {
    hxlated := 0;
    var j := 0;
    while j < |sheets|
      invariant 0 <= j <= |sheets|
      invariant hxlated == CountHxlated(sheets[..j])
    {
      assert sheets[..j + 1][..j] == sheets[..j];
      if sheets[j].isHxlated {
        hxlated := hxlated + 1;
      }
      j := j + 1;
    }
    assert sheets[..j] == sheets;
  }

  /** The loop that counts the schema-change indicators of a resource. */
  method SchemaChangeCount(checks: seq<string>) returns (nSchemaChanges: nat)
    ensures nSchemaChanges == SchemaChanges(checks)
  {
    nSchemaChanges := 0;
    var k := 0;
    while k < |checks|
      invariant 0 <= k <= |checks|
      invariant nSchemaChanges == SchemaChanges(checks[..k])
    {
      assert checks[..k + 1][..k] == checks[..k];
      if Contains(checks[k], "*") && !Contains(checks[k], "nrows") {
        nSchemaChanges := nSchemaChanges + 1;
      }
      k := k + 1;
    }
    assert checks[..k] == checks;
  }

  /** The three-tier lookup of the upper-cased format. */
  method FormatScore(format: string) returns (tier: Option<nat>)
    ensures tier == FormatTier(format)
  {
    var f := Upper(format);
    if f in GoldFormats {
      tier := Some(2);
    } else if f in SilverFormats {
      tier := Some(1);
    } else if f in BronzeFormats {
      tier := Some(0);
    } else {
      tier := None;
    }
  }

  /** The body of the resource loop of `add_accessibility_entries`: the entry and score of one
      resource, given its entry `checks` of the change summary. */
  method ResourceAccessibilityEntry(resource: Resource, checks: seq<string>, hapiIds: set<string>)
    returns (result: Result<(ResourceAccessibility, nat)>)
    ensures result == ResourceAccessOf(resource, checks, hapiIds)
  {
    var resourceScore := 0;
    var tier := FormatScore(resource.format);
    if tier.None? {
      return Err(UnknownFormat(resource.format));
    }
    var format := Upper(resource.format);
    var formatScore := tier.value;
    var formatText := NatToString(formatScore) + " (" + format + ")";
    resourceScore := resourceScore + formatScore;
    var inHapi := false;
    if resource.id in hapiIds {
      inHapi := true;
      resourceScore := resourceScore + 1;
    }
    var hxlated := HxlatedSheetCount(resource);
    var isHxlated := hxlated > 0;
    resourceScore := resourceScore + hxlated;
    var nSchemaChanges := SchemaChangeCount(checks);
    if nSchemaChanges == 1 {
      resourceScore := resourceScore + 1;
    }
    ResourceAccessOfTier(resource, checks, hapiIds, formatScore);
    return Ok((ResourceAccessibility(resource.name, formatText, inHapi, isHxlated, nSchemaChanges), resourceScore));
  }

  /** `ResourceAccessOf` for a resource whose format has a tier. */
  lemma ResourceAccessOfTier(r: Resource, checks: seq<string>, hapiIds: set<string>, tier: nat)
    requires FormatTier(r.format) == Some(tier)
    ensures ResourceAccessOf(r, checks, hapiIds)
              == Ok((ResourceAccessibility(r.name, NatToString(tier) + " (" + Upper(r.format) + ")", r.id in hapiIds,
                                           HxlatedSheets(r) > 0, SchemaChanges(checks)),
                     tier + BoolToNat(r.id in hapiIds) + HxlatedSheets(r) + BoolToNat(SchemaChanges(checks) == 1)))
  {
  }

  /** The resource loop of `add_accessibility_entries`: the entries and the running maximum;
      a resource of unknown format stops it, leaving the entries of the resources before it. */
  method ScoreResources(all: seq<Resource>, changes: map<string, seq<string>>, hapiIds: set<string>)
    returns (reports: seq<ResourceAccessibility>, best: nat, failure: Option<Failure>)
    ensures failure.None? ==> Scan(AccessResults(all, changes, hapiIds)) == Ok((reports, best))
    ensures failure.Some? ==>
              && Scan(AccessResults(all, changes, hapiIds)) == Err(failure.value)
              && |reports| < |all|
  {
    ghost var results := AccessResults(all, changes, hapiIds);
    reports := [];
    best := 0;
    var i := 0;
    while i < |all|
      invariant 0 <= i <= |all|
      invariant |reports| == i
      invariant Scan(results[..i]) == Ok((reports, best))
    {
      var checks := if all[i].name in changes then changes[all[i].name] else [];
      var result := ResourceAccessibilityEntry(all[i], checks, hapiIds);
      assert results[i] == result;
      ScanExtend(results, i);
      if result.Err? {
        ScanStopsAtFailure(results, i + 1);
        return reports, best, Some(result.error);
      }
      var (report, resourceScore) := result.value;
      reports := reports + [report];
      if resourceScore > best {
        best := resourceScore;
      }
      i := i + 1;
    }
    assert results[..i] == results;
    return reports, best, None;
  }

  /** One more outcome extends a scan: an error ends it, an entry is appended and its score
      raises the maximum. */
  lemma ScanExtend(results: seq<Result<(ResourceAccessibility, nat)>>, i: nat)
    requires i < |results|
    ensures Scan(results[..i + 1]) ==
              match Scan(results[..i])
              case Err(e) => Err(e)
              case Ok((reports, best)) =>
                match results[i]
                case Err(e) => Err(e)
                case Ok((report, score)) => Ok((reports + [report], if score > best then score else best))
  {
    assert results[..i + 1][..i] == results[..i];
  }

  /** `add_accessibility_entries` on a found dataset: the section and the score, or the
      failure of the first resource of unknown format with the section as it then stands. */
  method AccessibilityEntries(metadata: Dataset, changes: map<string, seq<string>>, hapiIds: set<string>)
    returns (report: AccessibilityReport, score: nat, failure: Option<Failure>)
    ensures failure.None? ==> AccessibilityOf(metadata, changes, hapiIds) == Ok((report, score))
    ensures failure.Some? ==>
              && AccessibilityOf(metadata, changes, hapiIds) == Err(failure.value)
              && report.nTags == |metadata.tags| + |metadata.groups|
              && |report.resources| < |metadata.resources|
  {
    var nTags := |metadata.tags|;
    var nCountries := |metadata.groups|;
    var reports, maxResourceScore, error := ScoreResources(metadata.resources, changes, hapiIds);
    report := AccessibilityReport(nTags + nCountries, reports);
    score := maxResourceScore;
    failure := error;
    AccessibilityOfScan(metadata, changes, hapiIds);
    if error.None? && nTags > 0 && nTags > 0 {
      score := score + 1;
    }
  }

  lemma AccessibilityOfScan(metadata: Dataset, changes: map<string, seq<string>>, hapiIds: set<string>)
    ensures var scan := Scan(AccessResults(metadata.resources, changes, hapiIds));
            && (scan.Err? ==> AccessibilityOf(metadata, changes, hapiIds) == Err(scan.error))
            && (scan.Ok? ==>
                  AccessibilityOf(metadata, changes, hapiIds)
                    == Ok((AccessibilityReport(|metadata.tags| + |metadata.groups|, scan.value.0),
                           scan.value.1 + if |metadata.tags| > 0 then 1 else 0)))
  {
  }

  /** Once a prefix of the outcomes fails, the whole scan fails the same way. */
  lemma {:induction false} ScanStopsAtFailure(results: seq<Result<(ResourceAccessibility, nat)>>, n: nat)
    requires n <= |results|
    requires Scan(results[..n]).Err?
    ensures Scan(results) == Scan(results[..n])
    decreases |results| - n
  {
    if n < |results| {
      assert results[..n + 1][..n] == results[..n];
      ScanStopsAtFailure(results, n + 1);
    } else {
      assert results[..n] == results;
    }
  }

  // ---------------------------------------------------------------------------------------------
  // Properties

  /** The parts of a resource score: the format tier, one for a HAPI input resource, one per
      HXL-tagged sheet (not "at most one"), and one when exactly one indicator is a schema change. */
  lemma ResourceScoreParts(r: Resource, checks: seq<string>, hapiIds: set<string>)
    ensures ResourceAccessOf(r, checks, hapiIds).Err? <==> FormatTier(r.format).None?
    ensures ResourceAccessOf(r, checks, hapiIds).Err? ==> ResourceAccessOf(r, checks, hapiIds).error == UnknownFormat(r.format)
    ensures ResourceAccessOf(r, checks, hapiIds).Ok? ==>
              var (report, score) := ResourceAccessOf(r, checks, hapiIds).value;
              && (report.inHapi <==> r.id in hapiIds)
              && (report.isHxlated <==> HxlatedSheets(r) > 0)
              && report.nSchemaChanges <= |checks|
              && FormatTier(r.format).value <= score <= FormatTier(r.format).value + 2 + HxlatedSheets(r)
              && (score == FormatTier(r.format).value + 2 + HxlatedSheets(r) <==>
                    r.id in hapiIds && report.nSchemaChanges == 1)
  {
    FormatTierValues(r.format);
  }

  /** A scan succeeds exactly when every resource scores. */
  lemma {:induction false} ScanOk(results: seq<Result<(ResourceAccessibility, nat)>>)
    ensures Scan(results).Ok? <==> forall i :: 0 <= i < |results| ==> results[i].Ok?
    decreases |results|
  {
    if results != [] {
      var init := results[..|results| - 1];
      ScanOk(init);
      assert forall i :: 0 <= i < |init| ==> init[i] == results[i];
    }
  }

  /** A failing scan reports the error of the first resource that does not score. */
  lemma {:induction false} ScanFailure(results: seq<Result<(ResourceAccessibility, nat)>>)
    requires Scan(results).Err?
    ensures exists i :: 0 <= i < |results| && results[i].Err?
              && (forall j :: 0 <= j < i ==> results[j].Ok?)
              && Scan(results).error == results[i].error
    decreases |results|
  {
    var init := results[..|results| - 1];
    assert forall i :: 0 <= i < |init| ==> init[i] == results[i];
    if Scan(init).Err? {
      ScanFailure(init);
    } else {
      ScanOk(init);
    }
  }

  /** A successful scan has one entry per resource, in order; its maximum is at least every
      resource score, and is either 0 or the score of some resource. */
  lemma {:induction false} ScanEntries(results: seq<Result<(ResourceAccessibility, nat)>>)
    requires Scan(results).Ok?
    ensures |Scan(results).value.0| == |results|
    ensures forall i :: 0 <= i < |results| ==>
              results[i].Ok? && Scan(results).value.0[i] == results[i].value.0 && results[i].value.1 <= Scan(results).value.1
    ensures Scan(results).value.1 == 0 ||
            exists i :: 0 <= i < |results| && results[i].Ok? && results[i].value.1 == Scan(results).value.1
    decreases |results|
  {
    if results != [] {
      var init := results[..|results| - 1];
      ScanEntries(init);
      assert forall i :: 0 <= i < |init| ==> init[i] == results[i];
    }
  }

  /** A successful scorer writes one entry per resource, in order: entry `i` carries the name
      of resource `i` and the format text "{tier} ({FORMAT})" of its tier. */
  lemma AccessibilityEntriesAt(metadata: Dataset, changes: map<string, seq<string>>, hapiIds: set<string>)
    requires AccessibilityOf(metadata, changes, hapiIds).Ok?
    ensures var all := metadata.resources;
            var entries := AccessibilityOf(metadata, changes, hapiIds).value.0.resources;
            && |entries| == |all|
            && forall i :: 0 <= i < |entries| ==>
                 && FormatTier(all[i].format).Some?
                 && entries[i].name == all[i].name
                 && entries[i].formatScore == FormatScoreText(FormatTier(all[i].format).value, all[i].format)
  {
    var all := metadata.resources;
    var results := AccessResults(all, changes, hapiIds);
    AccessibilityOfScan(metadata, changes, hapiIds);
    ScanEntries(results);
    forall i | 0 <= i < |all|
      ensures FormatTier(all[i].format).Some?
      ensures results[i].value.0.name == all[i].name
      ensures results[i].value.0.formatScore == FormatScoreText(FormatTier(all[i].format).value, all[i].format)
    {
      var checks := ChecksIn(changes, all[i].name);
      assert results[i].Ok?;
      assert results[i] == ResourceAccessOf(all[i], checks, hapiIds);
      ResourceAccessOfOk(all[i], checks, hapiIds);
    }
  }

  /** A resource scored without failure has a tier, and its entry its name and format text. */
  lemma ResourceAccessOfOk(r: Resource, checks: seq<string>, hapiIds: set<string>)
    requires ResourceAccessOf(r, checks, hapiIds).Ok?
    ensures FormatTier(r.format).Some?
    ensures ResourceAccessOf(r, checks, hapiIds).value.0.name == r.name
    ensures ResourceAccessOf(r, checks, hapiIds).value.0.formatScore == FormatScoreText(FormatTier(r.format).value, r.format)
  {
  }

  /** Groups count towards `n_tags` but not towards the score. */
  lemma AccessibilityIgnoresGroups(metadata: Dataset, changes: map<string, seq<string>>, hapiIds: set<string>,
                                   groups: seq<string>)
    ensures AccessibilityOf(metadata.(groups := groups), changes, hapiIds).Ok? == AccessibilityOf(metadata, changes, hapiIds).Ok?
    ensures AccessibilityOf(metadata, changes, hapiIds).Ok? ==>
              AccessibilityOf(metadata.(groups := groups), changes, hapiIds).value.1 == AccessibilityOf(metadata, changes, hapiIds).value.1
  {
  }

  /** The accessibility score is the best resource score (0 without resources) plus one when
      the dataset has a tag; the scorer fails exactly when some format is unknown, with the
      first such format. */
  lemma AccessibilityScore(metadata: Dataset, changes: map<string, seq<string>>, hapiIds: set<string>)
    ensures var all := metadata.resources;
            AccessibilityOf(metadata, changes, hapiIds).Ok? <==> forall i :: 0 <= i < |all| ==> FormatTier(all[i].format).Some?
    ensures AccessibilityOf(metadata, changes, hapiIds).Err? ==>
              var all := metadata.resources;
              exists i :: 0 <= i < |all| && FormatTier(all[i].format).None?
                && (forall j :: 0 <= j < i ==> FormatTier(all[j].format).Some?)
                && AccessibilityOf(metadata, changes, hapiIds).error == UnknownFormat(all[i].format)
    ensures AccessibilityOf(metadata, changes, hapiIds).Ok? ==>
            var all := metadata.resources;
            var score := AccessibilityOf(metadata, changes, hapiIds).value.1;
            var bonus := BoolToNat(|metadata.tags| > 0);
            && AccessibilityOf(metadata, changes, hapiIds).value.0.nTags == |metadata.tags| + |metadata.groups|
            && |AccessibilityOf(metadata, changes, hapiIds).value.0.resources| == |all|
            && bonus <= score
            && (forall i :: 0 <= i < |all| ==>
                  var entry := ResourceAccessOf(all[i], ChecksIn(changes, all[i].name), hapiIds);
                  entry.Ok? && entry.value.1 + bonus <= score)
            && (score == bonus ||
                exists i :: 0 <= i < |all| && var entry := ResourceAccessOf(all[i], ChecksIn(changes, all[i].name), hapiIds);
                  entry.Ok? && entry.value.1 + bonus == score)
  {
    var all := metadata.resources;
    var results := AccessResults(all, changes, hapiIds);
    ScanOk(results);
    forall i | 0 <= i < |all| ensures results[i].Ok? <==> FormatTier(all[i].format).Some? {
      ResourceScoreParts(all[i], ChecksIn(changes, all[i].name), hapiIds);
    }
    if Scan(results).Err? {
      ScanFailure(results);
      var i :| 0 <= i < |results| && results[i].Err? && (forall j :: 0 <= j < i ==> results[j].Ok?)
               && Scan(results).error == results[i].error;
      ResourceScoreParts(all[i], ChecksIn(changes, all[i].name), hapiIds);
    } else {
      ScanEntries(results);
    }
  }
}

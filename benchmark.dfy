/** The benchmark's "equivalent score" (`calculate_equivalent_score`): a tally over a finished
    report that mimics a manual review, with fixed points for what cannot be measured. */
module Benchmark {
  import opened Common
  import opened Metadata
  import opened CheckHistory
  import opened Relevance
  import opened Timeliness
  import opened Accessibility
  import opened Interoperability
  import opened QualityReports

  /** The Python exceptions the tally can raise on a report that lacks what it reads. */
  datatype PyError =
    | KeyError(key: string)  // a missing section or key
    | IndexError             // `format_score[0]` of an empty string
    | ValueError             // `int(...)` of a character that is not a digit

  datatype Outcome<+T> = Done(value: T) | Raises(error: PyError)

  /** The four resource flags, each set by at least one qualifying resource. */
  datatype Flags = Flags(format: bool, inHapi: bool, isHxlated: bool, stableSchema: bool)

  const NoFlags := Flags(false, false, false, false)

  function FlagCount(f: Flags): (n: nat)
    ensures n <= 4
  {
    BoolToNat(f.format) + BoolToNat(f.inHapi) + BoolToNat(f.isHxlated) + BoolToNat(f.stableSchema)
  }

  /** The three relevance entries the tally reads, in the order it reads them. */
  function Features(relevance: RelevanceReport): (flags: seq<bool>)
    ensures |flags| == 3
  {
    [Truthy(relevance.inDataseries), relevance.inDataGrids, relevance.inSignals]
  }

  /** `int(s[0])`: the value of the first character, which must be an ASCII digit. */
  function LeadingDigit(s: string): (d: Outcome<nat>)
    ensures d.Done? <==> |s| > 0 && '0' <= s[0] <= '9'
    ensures d.Done? ==> d.value < 10 && s[0] == DigitChar(d.value)
    ensures s == [] ==> d == Raises(IndexError)
  {
    if s == [] then Raises(IndexError)
    else if '0' <= s[0] <= '9' then Done(s[0] as int - '0' as int)
    else Raises(ValueError)
  }

  /** The flags after visiting `resources` in order; the first bad `format_score` raises. */
  function FlagScan(resources: seq<ResourceAccessibility>): Outcome<Flags>
    decreases |resources|
  {
    if resources == [] then Done(NoFlags)
    else
      match FlagScan(resources[..|resources| - 1])
      case Raises(e) => Raises(e)
      case Done(f) =>
        var r := resources[|resources| - 1];
        match LeadingDigit(r.formatScore)
        case Raises(e) => Raises(e)
        case Done(d) =>
          Done(Flags(f.format || d >= 1, f.inHapi || r.inHapi, f.isHxlated || r.isHxlated,
                     f.stableSchema || r.nSchemaChanges == 0))
  }

  /** Whether some interoperability entry is P-coded. */
  function AnyPCoded(entries: seq<ResourceInteroperability>): bool
    decreases |entries|
  {
    entries != [] && (AnyPCoded(entries[..|entries| - 1]) || entries[|entries| - 1].pCoded)
  }

  /** The equivalent score of a report, or the exception that interrupts the tally. The
      sections are read in the order relevance, timeliness, accessibility, interoperability. */
  function EquivalentScore(report: ReportState): Outcome<nat> {
    if report.relevance.None? then Raises(KeyError("relevance"))
    else if report.timeliness.Missing? then Raises(KeyError("timeliness"))
    else if report.timeliness.Blank? then Raises(KeyError("is_fresh"))
    else if report.accessibility.Missing? then Raises(KeyError("accessibility"))
    else if report.accessibility.Blank? then Raises(KeyError("n_tags"))
    else
      match FlagScan(report.accessibility.content.resources)
      case Raises(e) => Raises(e)
      case Done(flags) =>
        if report.interoperability.None? then Raises(KeyError("interoperability"))
        else
          Done(CountTrue(Features(report.relevance.value))
               + BoolToNat(Truthy(report.timeliness.content.isFresh))
               + BoolToNat(report.accessibility.content.nTags >= 2)
               + FlagCount(flags) + 3
               + BoolToNat(AnyPCoded(report.interoperability.value)) + 1)
  }

  /** The benchmark loop's `try`/`except KeyError`: a missing key scores 0; any other
      exception propagates. */
  function ScoreOrZero(score: Outcome<nat>): (r: Outcome<nat>)
    ensures score.Raises? && score.error.KeyError? ==> r == Done(0)
    ensures score.Done? ==> r == score
    ensures score.Raises? && !score.error.KeyError? ==> r == score
  {
    match score
    case Raises(KeyError(_)) => Done(0)
    case _ => score
  }

  /** The resource loop of `calculate_equivalent_score`. */
  method ResourceFlags(resources: seq<ResourceAccessibility>) returns (flags: Outcome<Flags>)
    ensures flags == FlagScan(resources)
  {
    var formatScore := false;
    var inHapi := false;
    var isHxlated := false;
    var stableSchema := false;
    var i := 0;
    while i < |resources|
      invariant 0 <= i <= |resources|
      invariant FlagScan(resources[..i]) == Done(Flags(formatScore, inHapi, isHxlated, stableSchema))
    {
      assert resources[..i + 1][..i] == resources[..i];
      var resource := resources[i];
      if resource.formatScore == [] {
        FlagScanStopsAtFailure(resources, i + 1);
        return Raises(IndexError);
      }
      var c := resource.formatScore[0];
      if !('0' <= c <= '9') {
        FlagScanStopsAtFailure(resources, i + 1);
        return Raises(ValueError);
      }
      if c as int - '0' as int >= 1 {
        formatScore := true;
      }
      if resource.inHapi {
        inHapi := true;
      }
      if resource.isHxlated {
        isHxlated := true;
      }
      if resource.nSchemaChanges == 0 {
        stableSchema := true;
      }
      i := i + 1;
    }
    assert resources[..i] == resources;
    return Done(Flags(formatScore, inHapi, isHxlated, stableSchema));
  }

  /** `calculate_equivalent_score` on a report object. */
  method CalculateEquivalentScore(report: QualityReport) returns (score: Outcome<nat>)
    ensures score == EquivalentScore(report.State())
  {
    if report.relevance.None? {
      return Raises(KeyError("relevance"));
    }
    var totalScore := 0;
    var features := Features(report.relevance.value);
    var i := 0;
    while i < |features|
      invariant 0 <= i <= |features|
      invariant totalScore == CountTrue(features[..i])
    {
      assert features[..i + 1][..i] == features[..i];
      if features[i] {
        totalScore := totalScore + 1;
      }
      i := i + 1;
    }
    assert features[..i] == features;
    if report.timeliness.Missing? {
      return Raises(KeyError("timeliness"));
    } else if report.timeliness.Blank? {
      return Raises(KeyError("is_fresh"));
    }
    if Truthy(report.timeliness.content.isFresh) {
      totalScore := totalScore + 1;
    }
    if report.accessibility.Missing? {
      return Raises(KeyError("accessibility"));
    } else if report.accessibility.Blank? {
      return Raises(KeyError("n_tags"));
    }
    if report.accessibility.content.nTags >= 2 {
      totalScore := totalScore + 1;
    }
    var flags := ResourceFlags(report.accessibility.content.resources);
    if flags.Raises? {
      return Raises(flags.error);
    }
    totalScore := totalScore + FlagCount(flags.value);
    totalScore := totalScore + 3;
    if report.interoperability.None? {
      return Raises(KeyError("interoperability"));
    }
    var entries := report.interoperability.value;
    var pCoded := false;
    var j := 0;
    while j < |entries|
      invariant 0 <= j <= |entries|
      invariant pCoded == AnyPCoded(entries[..j])
    {
      assert entries[..j + 1][..j] == entries[..j];
      if entries[j].pCoded {
        pCoded := true;
      }
      j := j + 1;
    }
    assert entries[..j] == entries;
    totalScore := totalScore + BoolToNat(pCoded);
    totalScore := totalScore + 1;
    return Done(totalScore);
  }

  // ---------------------------------------------------------------------------------------------
  // Properties

  /** Once a prefix raises, the whole scan raises the same way. */
  lemma {:induction false} FlagScanStopsAtFailure(resources: seq<ResourceAccessibility>, n: nat)
    requires n <= |resources|
    requires FlagScan(resources[..n]).Raises?
    ensures FlagScan(resources) == FlagScan(resources[..n])
    decreases |resources| - n
  {
    if n < |resources| {
      assert resources[..n + 1][..n] == resources[..n];
      FlagScanStopsAtFailure(resources, n + 1);
    } else {
      assert resources[..n] == resources;
    }
  }

  /** The scan succeeds exactly when every `format_score` starts with a digit. */
  lemma {:induction false} FlagScanOk(resources: seq<ResourceAccessibility>)
    ensures FlagScan(resources).Done? <==> forall i :: 0 <= i < |resources| ==> LeadingDigit(resources[i].formatScore).Done?
    decreases |resources|
  {
    if resources != [] {
      var init := resources[..|resources| - 1];
      FlagScanOk(init);
      assert forall i :: 0 <= i < |init| ==> init[i] == resources[i];
    }
  }

  /** After a successful scan the format flag holds exactly when some `format_score` starts
      with a digit of at least 1, however many do. */
  lemma {:induction false} FlagScanFormat(resources: seq<ResourceAccessibility>)
    requires FlagScan(resources).Done?
    ensures FlagScan(resources).value.format <==>
              exists i :: 0 <= i < |resources| && LeadingDigit(resources[i].formatScore).Done?
                          && LeadingDigit(resources[i].formatScore).value >= 1
    decreases |resources|
  {
    if resources != [] {
      var init := resources[..|resources| - 1];
      FlagScanFormat(init);
      assert forall i :: 0 <= i < |init| ==> init[i] == resources[i];
    }
  }

  /** After a successful scan each of the other three flags holds exactly when some resource
      qualifies for it, however many do. */
  lemma {:induction false} FlagScanFlags(resources: seq<ResourceAccessibility>)
    requires FlagScan(resources).Done?
    ensures var f := FlagScan(resources).value;
            && (f.inHapi <==> exists i :: 0 <= i < |resources| && resources[i].inHapi)
            && (f.isHxlated <==> exists i :: 0 <= i < |resources| && resources[i].isHxlated)
            && (f.stableSchema <==> exists i :: 0 <= i < |resources| && resources[i].nSchemaChanges == 0)
    decreases |resources|
  {
    if resources != [] {
      var init := resources[..|resources| - 1];
      FlagScanFlags(init);
      assert forall i :: 0 <= i < |init| ==> init[i] == resources[i];
    }
  }

  /** A raising scan raises at the first resource whose `format_score` is not digit-led. */
  lemma {:induction false} FlagScanFailure(resources: seq<ResourceAccessibility>)
    requires FlagScan(resources).Raises?
    ensures exists i :: 0 <= i < |resources| && LeadingDigit(resources[i].formatScore).Raises?
              && (forall j :: 0 <= j < i ==> LeadingDigit(resources[j].formatScore).Done?)
              && FlagScan(resources).error == LeadingDigit(resources[i].formatScore).error
    decreases |resources|
  {
    var init := resources[..|resources| - 1];
    assert forall i :: 0 <= i < |init| ==> init[i] == resources[i];
    FlagScanOk(init);
    if FlagScan(init).Raises? {
      FlagScanFailure(init);
    }
  }

  lemma {:induction false} AnyPCodedSpec(entries: seq<ResourceInteroperability>)
    ensures AnyPCoded(entries) <==> exists i :: 0 <= i < |entries| && entries[i].pCoded
    decreases |entries|
  {
    if entries != [] {
      var init := entries[..|entries| - 1];
      AnyPCodedSpec(init);
      assert forall i :: 0 <= i < |init| ==> init[i] == entries[i];
    }
  }

  /** The score is always between 4 (the fixed 3 and 1) and 14 (3 relevance, freshness, tags,
      4 resource flags, 3, P-coding and 1); the relevance part counts the truthy entries among
      `in_dataseries`, `in_data_grids` and `in_signals`. */
  lemma EquivalentScoreBounds(report: ReportState)
    requires EquivalentScore(report).Done?
    ensures 4 <= EquivalentScore(report).value <= 14
    ensures var r := report.relevance.value;
            var relevance := BoolToNat(Truthy(r.inDataseries)) + BoolToNat(r.inDataGrids) + BoolToNat(r.inSignals);
            relevance <= EquivalentScore(report).value - 4 <= relevance + 7
  {
    var flags := Features(report.relevance.value);
    assert flags[..2][..1] == flags[..1];
    assert flags[..1][..0] == [];
    assert CountTrue(flags[..1]) == BoolToNat(flags[0]);
    assert CountTrue(flags[..2]) == BoolToNat(flags[0]) + BoolToNat(flags[1]);
    assert CountTrue(flags) == BoolToNat(flags[0]) + BoolToNat(flags[1]) + BoolToNat(flags[2]);
  }

  /** Two or more tags and groups add exactly one point; fewer add none. */
  lemma TagPoint(report: ReportState, nTags: nat)
    requires report.accessibility.Filled?
    requires EquivalentScore(report).Done?
    ensures var more := report.(accessibility := Filled(report.accessibility.content.(nTags := nTags)));
            && EquivalentScore(more).Done?
            && EquivalentScore(more).value + BoolToNat(report.accessibility.content.nTags >= 2)
                 == EquivalentScore(report).value + BoolToNat(nTags >= 2)
  {
  }

  /** The `format_score` text written by the accessibility scorer starts with the tier digit. */
  lemma FormatScoreLeadingDigit(tier: nat, format: string)
    requires tier < 10
    ensures LeadingDigit(FormatScoreText(tier, format)) == Done(tier)
  {
    assert FormatScoreText(tier, format)[0] == DigitChar(tier);
  }

  /** On a report whose sections are all written and whose accessibility section is the
      scorer's successful result (as after a compilation that succeeded), the tally never
      raises, so the benchmark's `except` is not reached, and the format flag is set exactly
      when some resource is of the silver or gold tier. */
  lemma CompiledReportScores(report: ReportState, d: Dataset, changes: map<string, seq<string>>, hapiIds: set<string>)
    requires report.relevance.Some? && report.timeliness.Filled? && report.interoperability.Some?
    requires AccessibilityOf(d, changes, hapiIds).Ok?
    requires report.accessibility == Filled(AccessibilityOf(d, changes, hapiIds).value.0)
    ensures EquivalentScore(report).Done?
    ensures FlagScan(report.accessibility.content.resources).Done?
    ensures FlagScan(report.accessibility.content.resources).value.format <==>
              exists i :: 0 <= i < |d.resources| && FormatTier(d.resources[i].format).GetOr(0) >= 1
  {
    AccessibilityEntriesAt(d, changes, hapiIds);
    FormatTextFlags(report.accessibility.content.resources, d.resources);
    EquivalentScoreDone(report);
  }

  /** Entries whose format texts are those of the tiers of `all` scan without raising, and
      their format flag says whether some tier is silver or gold. */
  lemma FormatTextFlags(entries: seq<ResourceAccessibility>, all: seq<Resource>)
    requires |entries| == |all|
    requires forall i :: 0 <= i < |entries| ==>
               FormatTier(all[i].format).Some?
               && entries[i].formatScore == FormatScoreText(FormatTier(all[i].format).value, all[i].format)
    ensures FlagScan(entries).Done?
    ensures FlagScan(entries).value.format <==>
              exists i :: 0 <= i < |all| && FormatTier(all[i].format).GetOr(0) >= 1
  {
    FormatTextDigits(entries, all);
    FlagScanOk(entries);
    FlagScanFormat(entries);
  }

  lemma FormatTextDigits(entries: seq<ResourceAccessibility>, all: seq<Resource>)
    requires |entries| == |all|
    requires forall i :: 0 <= i < |entries| ==>
               FormatTier(all[i].format).Some?
               && entries[i].formatScore == FormatScoreText(FormatTier(all[i].format).value, all[i].format)
    ensures forall i :: 0 <= i < |entries| ==> LeadingDigit(entries[i].formatScore) == Done(FormatTier(all[i].format).value)
  {
    forall i | 0 <= i < |entries|
      ensures LeadingDigit(entries[i].formatScore) == Done(FormatTier(all[i].format).value)
    {
      FormatTierValues(all[i].format);
      FormatScoreLeadingDigit(FormatTier(all[i].format).value, all[i].format);
    }
  }

  /** The tally raises only for a missing section or a `format_score` not led by a digit. */
  lemma EquivalentScoreDone(report: ReportState)
    ensures EquivalentScore(report).Done? <==>
              && report.relevance.Some? && report.timeliness.Filled? && report.accessibility.Filled?
              && FlagScan(report.accessibility.content.resources).Done? && report.interoperability.Some?
  {
  }
}

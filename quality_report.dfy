/** The data-quality report that `compile_data_quality_report` builds: a mutable record of six
    scores and the sections the `add_*_entries` scorers fill in, one after the other. */
module QualityReports {
  import opened Common
  import opened Metadata
  import opened CheckHistory
  import opened Schemas
  import opened Relevance
  import opened Timeliness
  import opened Accessibility
  import opened Interpretability
  import opened Interoperability

  /** A section of the report: its key is absent, it is the empty dictionary `{}` written when
      there is no metadata, or it holds entries. */
  datatype Section<T> = Missing | Blank | Filled(content: T)

  /** The six scores of a finished report. */
  datatype ScoreCard = ScoreCard(
    relevance: nat,
    timeliness: nat,
    accessibility: nat,
    interpretability: nat,
    interoperability: nat,
    findability: nat)

  /** The scores of the report compiled from `metadata`, or the failure that stops the
      compilation: the scorers run in the order relevance, timeliness, accessibility,
      interpretability, interoperability, findability, and the first to raise stops the rest. */
  function DataQualityScores(metadata: Option<Dataset>, hapiIds: set<string>, datagridNames: seq<string>,
                             stats: CadenceStats, hashRow: seq<string> -> string): Result<ScoreCard>
  {
    match metadata
    case None => Err(NoMetadata)
    case Some(d) =>
      var changes := ChangeSummary(d.resources);
      Combine(CountTrue(RelevanceFlags(RelevanceOf(d, hapiIds, datagridNames))), TimelinessOf(d, changes, stats),
              AccessibilityOf(d, changes, hapiIds), InterpretabilityOf(d).1, InteroperabilityOf(d, hashRow))
  }

  /** The scores from the outcomes of the five scorers, of which the first failure wins. */
  function Combine(relevance: nat, timeliness: Result<(TimelinessReport, nat)>,
                   accessibility: Result<(AccessibilityReport, nat)>, interpretability: nat,
                   interoperability: Result<(seq<ResourceInteroperability>, nat)>): (r: Result<ScoreCard>)
    ensures r.Ok? <==> timeliness.Ok? && accessibility.Ok? && interoperability.Ok?
    ensures r.Ok? ==>
              r.value == ScoreCard(relevance, timeliness.value.1, accessibility.value.1, interpretability,
                                   interoperability.value.1, 0)
    ensures timeliness.Err? ==> r == Err(timeliness.error)
    ensures timeliness.Ok? && accessibility.Err? ==> r == Err(accessibility.error)
    ensures timeliness.Ok? && accessibility.Ok? && interoperability.Err? ==> r == Err(interoperability.error)
  {
    match timeliness
    case Err(e) => Err(e)
    case Ok((_, t)) =>
      match accessibility
      case Err(e) => Err(e)
      case Ok((_, a)) =>
        match interoperability
        case Err(e) => Err(e)
        case Ok((_, i)) => Ok(ScoreCard(relevance, t, a, interpretability, i, 0))
  }

  /** The whole content of a report, field by field. */
  datatype ReportState = ReportState(
    datasetName: string,
    scores: ScoreCard,
    relevance: Option<RelevanceReport>,
    timeliness: Section<TimelinessReport>,
    accessibility: Section<AccessibilityReport>,
    interpretability: Option<seq<ResourceInterpretability>>,
    interoperability: Option<seq<ResourceInteroperability>>)

  class QualityReport {
    var datasetName: string
    var relevanceScore: nat
    var timelinessScore: nat
    var accessibilityScore: nat
    var interpretabilityScore: nat
    var interoperabilityScore: nat
    var findabilityScore: nat
    var relevance: Option<RelevanceReport>
    var timeliness: Section<TimelinessReport>
    var accessibility: Section<AccessibilityReport>
    var interpretability: Option<seq<ResourceInterpretability>>
    var interoperability: Option<seq<ResourceInteroperability>>

    /** The report as initialised: the dataset name and six scores of 0, no sections. */
    constructor (name: string)
      ensures datasetName == name
      ensures Scores() == ScoreCard(0, 0, 0, 0, 0, 0)
      ensures relevance.None? && timeliness.Missing? && accessibility.Missing?
      ensures interpretability.None? && interoperability.None?
    {
      datasetName := name;
      relevanceScore := 0;
      timelinessScore := 0;
      accessibilityScore := 0;
      interpretabilityScore := 0;
      interoperabilityScore := 0;
      findabilityScore := 0;
      relevance := None;
      timeliness := Missing;
      accessibility := Missing;
      interpretability := None;
      interoperability := None;
    }

    function Scores(): ScoreCard
      reads this
    {
      ScoreCard(relevanceScore, timelinessScore, accessibilityScore, interpretabilityScore, interoperabilityScore,
                findabilityScore)
    }

    function State(): ReportState
      reads this
    {
      ReportState(datasetName, Scores(), relevance, timeliness, accessibility, interpretability, interoperability)
    }

    /** `add_relevance_entries`: without metadata the report is returned untouched. */
    method AddRelevanceEntries(metadata: Option<Dataset>, hapiIds: set<string>, datagridNames: seq<string>)
      modifies this`relevance, this`relevanceScore
      ensures metadata.None? ==> State() == old(State())
      ensures metadata.Some? ==>
                var report := RelevanceOf(metadata.value, hapiIds, datagridNames);
                State() == old(State()).(relevance := Some(report),
                                         scores := old(Scores()).(relevance := CountTrue(RelevanceFlags(report))))
    {
      if metadata.None? {
        return;
      }
      var d := metadata.value;
      var inCrisis := CheckForCrisis(d);
      var inHapiInput := CheckForHapi(d, hapiIds);
      var report := RelevanceReport(
        true,
        d.dataseriesName.GetOr(JBool(false)),
        d.updatedByScript.GetOr(JBool(false)),
        d.codLevel.GetOr(JBool(false)),
        StartsWith(d.name, HapiOutputPrefix),
        InSignals(d),
        inCrisis,
        inHapiInput,
        InDataGrids(d, datagridNames));
      relevance := Some(report);
      var flags := RelevanceFlags(report);
      var total := 0;
      var i := 0;
      while i < |flags|
        invariant 0 <= i <= |flags|
        invariant total == CountTrue(flags[..i])
      {
        assert flags[..i + 1][..i] == flags[..i];
        if flags[i] {
          total := total + 1;
        }
        i := i + 1;
      }
      assert flags[..i] == flags;
      relevanceScore := total;
    }

    /** `add_timeliness_entries`. Without metadata the section is `{}`. When the resource loop
        raises, the section holds the header entries and the entries of the resources before the
        failing one; with no resources the final `max()` raises after the header entries have
        been written. The score is then left as it was. */
    method AddTimelinessEntries(metadata: Option<Dataset>, stats: CadenceStats)
      returns (failure: Option<Failure>, ghost outcome: Result<(TimelinessReport, nat)>)
      modifies this`timeliness, this`timelinessScore
      ensures metadata.None? ==> failure.None? && State() == old(State()).(timeliness := Blank)
      ensures metadata.Some? ==> outcome == TimelinessOf(metadata.value, ChangeSummary(metadata.value.resources), stats)
      ensures metadata.Some? && outcome.Ok? ==>
                && failure.None?
                && State() == old(State()).(timeliness := Filled(outcome.value.0),
                                            scores := old(Scores()).(timeliness := outcome.value.1))
      ensures metadata.Some? && outcome.Err? ==>
                && failure == Some(outcome.error)
                && timeliness.Filled?
                && var entries := timeliness.content.resources;
                   && State() == old(State()).(timeliness := Filled(TimelinessHeader(metadata.value).(resources := entries)))
                   && |entries| <= |metadata.value.resources|
                   && TimelinessResources(metadata.value, ChangeSummary(metadata.value.resources),
                                          metadata.value.resources[..|entries|], stats) == Ok(entries)
    {
      if metadata.None? {
        timeliness := Blank;
        return None, Err(NoMetadata);
      }
      var d := metadata.value;
      var header := TimelinessHeaderEntries(d);
      var changes := SummariseResourceChanges(d);
      var reports, error := TimelinessEntries(d, changes, stats);
      outcome := TimelinessOf(d, changes, stats);
      if error.Some? {
        assert outcome == Err(error.value);
        timeliness := Filled(header.(resources := reports));
        return error, outcome;
      }
      assert TimelinessResources(d, changes, d.resources, stats) == Ok(reports);
      if |reports| == 0 {
        timeliness := Filled(header.(resources := reports));
        return Some(NoResources), TimelinessOf(d, changes, stats);
      }
      var hasCorrectCadence := MaxCadence(reports);
      timeliness := Filled(header.(hasCorrectCadence := Some(hasCorrectCadence), resources := reports));
      timelinessScore := TimelinessSummary(header, hasCorrectCadence);
      return None, TimelinessOf(d, changes, stats);
    }

    /** `add_accessibility_entries`. Without metadata the section is `{}`; a resource of unknown
        format ends the run (the `sys.exit()`), leaving the score as it was. */
    method AddAccessibilityEntries(metadata: Option<Dataset>, hapiIds: set<string>)
      returns (failure: Option<Failure>, ghost outcome: Result<(AccessibilityReport, nat)>)
      modifies this`accessibility, this`accessibilityScore
      ensures metadata.None? ==> failure.None? && State() == old(State()).(accessibility := Blank)
      ensures metadata.Some? ==> outcome == AccessibilityOf(metadata.value, ChangeSummary(metadata.value.resources), hapiIds)
      ensures metadata.Some? && outcome.Ok? ==>
                && failure.None?
                && State() == old(State()).(accessibility := Filled(outcome.value.0),
                                            scores := old(Scores()).(accessibility := outcome.value.1))
      ensures metadata.Some? && outcome.Err? ==>
                && failure == Some(outcome.error)
                && State() == old(State()).(accessibility := accessibility)
                && accessibility.Filled?
                && accessibility.content.nTags == |metadata.value.tags| + |metadata.value.groups|
                && |accessibility.content.resources| < |metadata.value.resources|
    {
      outcome := Err(NoMetadata);
      if metadata.None? {
        accessibility := Blank;
        return None, outcome;
      }
      outcome := AccessibilityOf(metadata.value, ChangeSummary(metadata.value.resources), hapiIds);
      var changes := SummariseResourceChanges(metadata.value);
      var report, score, error := AccessibilityEntries(metadata.value, changes, hapiIds);
      accessibility := Filled(report);
      if error.Some? {
        return error, outcome;
      }
      accessibilityScore := score;
      return None, outcome;
    }

    /** `add_interpretability_entries`. Without metadata it writes an empty section and then
        indexes `None`, which raises. */
    method AddInterpretabilityEntries(metadata: Option<Dataset>) returns (failure: Option<Failure>)
      modifies this`interpretability, this`interpretabilityScore
      ensures metadata.None? ==> failure == Some(NoMetadata) && State() == old(State()).(interpretability := Some([]))
      ensures metadata.Some? ==>
                var (entries, score) := InterpretabilityOf(metadata.value);
                && failure.None?
                && State() == old(State()).(interpretability := Some(entries),
                                            scores := old(Scores()).(interpretability := score))
    {
      interpretability := Some([]);
      if metadata.None? {
        return Some(NoMetadata);
      }
      var resources := metadata.value.resources;
      var entries: seq<ResourceInterpretability> := [];
      var hasDataDictionary := 0;
      var i := 0;
      while i < |resources|
        invariant 0 <= i <= |resources|
        invariant |entries| == i
        invariant forall k :: 0 <= k < i ==> entries[k] == InterpretabilityEntry(resources[k])
        invariant hasDataDictionary == HasDataDictionary(resources[..i])
        invariant interpretability == Some(entries)
        invariant interpretabilityScore == old(interpretabilityScore)
      {
        assert resources[..i + 1][..i] == resources[..i];
        var resource := resources[i];
        var datastoreActive := false;
        if resource.datastoreActive.GetOr(false) {
          datastoreActive := true;
          hasDataDictionary := 1;
        }
        var isDataDictionary := false;
        if Contains(Lower(resource.name), "dictionary") && Contains(Lower(resource.name), "data") {
          isDataDictionary := true;
          hasDataDictionary := 1;
        }
        entries := entries + [ResourceInterpretability(resource.name, datastoreActive, isDataDictionary)];
        interpretability := Some(entries);
        i := i + 1;
      }
      assert resources[..i] == resources;
      assert entries == InterpretabilityOf(metadata.value).0;
      interpretabilityScore := hasDataDictionary;
      return None;
    }

    /** `add_interoperability_entries`. Without metadata it raises like the interpretability
        scorer; a KeyError while building a resource's schemas stops it. */
    method AddInteroperabilityEntries(metadata: Option<Dataset>, hashRow: seq<string> -> string)
      returns (failure: Option<Failure>, ghost outcome: Result<(seq<ResourceInteroperability>, nat)>)
      modifies this`interoperability, this`interoperabilityScore
      ensures metadata.None? ==> failure == Some(NoMetadata) && State() == old(State()).(interoperability := Some([]))
      ensures metadata.Some? ==> outcome == InteroperabilityOf(metadata.value, hashRow)
      ensures metadata.Some? && outcome.Ok? ==>
                && failure.None?
                && State() == old(State()).(interoperability := Some(outcome.value.0),
                                            scores := old(Scores()).(interoperability := outcome.value.1))
      ensures metadata.Some? && outcome.Err? ==>
                && failure == Some(outcome.error)
                && State() == old(State()).(interoperability := interoperability)
                && interoperability.Some?
    {
      outcome := Err(NoMetadata);
      interoperability := Some([]);
      if metadata.None? {
        return Some(NoMetadata), outcome;
      }
      outcome := InteroperabilityOf(metadata.value, hashRow);
      var resources := metadata.value.resources;
      ghost var results := InteropResults(resources, hashRow);
      var entries: seq<ResourceInteroperability> := [];
      var hasStandardGeodenomination := 0;
      var i := 0;
      while i < |resources|
        invariant 0 <= i <= |resources|
        invariant InteropScan(results[..i]) == Ok((entries, hasStandardGeodenomination))
        invariant interoperability == Some(entries)
        invariant interoperabilityScore == old(interoperabilityScore)
      {
        assert results[..i + 1][..i] == results[..i];
        var result := ResourceInteropEntry(resources[i], hashRow);
        if result.Err? {
          InteropScanStopsAtFailure(results, i + 1);
          return Some(result.error), outcome;
        }
        var entry := result.value;
        if entry.pCoded {
          hasStandardGeodenomination := 1;
        }
        if entry.hasGeodenominationHxl {
          hasStandardGeodenomination := 1;
        }
        entries := entries + [entry];
        interoperability := Some(entries);
        i := i + 1;
      }
      assert results[..i] == results;
      interoperabilityScore := hasStandardGeodenomination;
      return None, outcome;
    }
  }

  /** `compile_data_quality_report`, given the metadata (fetching it is not modelled), the HAPI
      resource ids and the Data-Grid names. `add_findability_entries` returns the report
      unchanged, so the findability score stays 0. */
  method CompileDataQualityReport(datasetName: string, metadata: Option<Dataset>, hapiIds: set<string>,
                                  datagridNames: seq<string>, stats: CadenceStats, hashRow: seq<string> -> string)
    returns (report: QualityReport, outcome: Result<ScoreCard>)
    ensures fresh(report)
    ensures outcome == DataQualityScores(metadata, hapiIds, datagridNames, stats, hashRow)
    ensures outcome.Ok? ==>
              && report.datasetName == datasetName
              && report.Scores() == outcome.value
              && var d := metadata.value;
                 var changes := ChangeSummary(d.resources);
                 && report.relevance == Some(RelevanceOf(d, hapiIds, datagridNames))
                 && report.timeliness == Filled(TimelinessOf(d, changes, stats).value.0)
                 && report.accessibility == Filled(AccessibilityOf(d, changes, hapiIds).value.0)
                 && report.interpretability == Some(InterpretabilityOf(d).0)
                 && report.interoperability == Some(InteroperabilityOf(d, hashRow).value.0)
  {
    report := new QualityReport(datasetName);
    report.AddRelevanceEntries(metadata, hapiIds, datagridNames);
    var failure, timeliness := report.AddTimelinessEntries(metadata, stats);
    if failure.Some? {
      return report, Err(failure.value);
    }
    ghost var accessibility;
    failure, accessibility := report.AddAccessibilityEntries(metadata, hapiIds);
    if failure.Some? {
      return report, Err(failure.value);
    }
    failure := report.AddInterpretabilityEntries(metadata);
    if failure.Some? {
      return report, Err(failure.value);
    }
    ghost var interoperability;
    failure, interoperability := report.AddInteroperabilityEntries(metadata, hashRow);
    if failure.Some? {
      return report, Err(failure.value);
    }
    outcome := Ok(report.Scores());
  }

  /** Without metadata the compilation fails in the interpretability scorer; with metadata every
      score of a finished report lies in its range and findability is always 0. */
  lemma DataQualityScoreRanges(metadata: Option<Dataset>, hapiIds: set<string>, datagridNames: seq<string>,
                               stats: CadenceStats, hashRow: seq<string> -> string)
    ensures metadata.None? ==> DataQualityScores(metadata, hapiIds, datagridNames, stats, hashRow) == Err(NoMetadata)
    ensures metadata.Some? && metadata.value.resources == [] ==>
              DataQualityScores(metadata, hapiIds, datagridNames, stats, hashRow) == Err(NoResources)
    ensures DataQualityScores(metadata, hapiIds, datagridNames, stats, hashRow).Ok? ==>
              var card := DataQualityScores(metadata, hapiIds, datagridNames, stats, hashRow).value;
              && 1 <= card.relevance <= 9
              && 1 <= card.timeliness <= 5
              && card.interpretability <= 1
              && card.interoperability <= 1
              && card.findability == 0
  {
    if metadata.Some? {
      var d := metadata.value;
      RelevanceScore(d, hapiIds, datagridNames);
      TimelinessScore(d, ChangeSummary(d.resources), stats);
      TimelinessFailure(d, ChangeSummary(d.resources), stats);
      InterpretabilityScore(d.resources);
      InteroperabilityScore(d, hashRow);
    }
  }
}

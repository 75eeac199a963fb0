/** The timeliness dimension: a cadence count per resource from its change indicators, the
    best cadence over the resources, and the score that adds freshness and crisis relevance. */
module Timeliness {
  import opened Common
  import opened Metadata
  import opened CheckHistory
  import opened Relevance

  /** The floating-point part of the cadence rule, left abstract. `parsesAsFloat` stands for
      `float(data_update_frequency)` not raising; `frequencyPositive` for
      `float(data_update_frequency) > 0`; `meanOk` and `stdOk` for the tests that the mean
      and the standard deviation of the day intervals between a resource's indicators, divided
      by the expected frequency and rounded to two places, are within 0.1 of 1 and below 0.1. */
  datatype CadenceStats = CadenceStats(
    parsesAsFloat: string -> bool,
    frequencyPositive: string -> bool,
    meanOk: (seq<string>, string) -> bool,
    stdOk: (seq<string>, string) -> bool)

  /** One entry of `timeliness.resources`; the clock-dependent day counts are not modelled and
      `hasCorrectCadence` is absent for a resource without indicators. */
  datatype ResourceTimeliness = ResourceTimeliness(name: string, nUpdates: nat, hasCorrectCadence: Option<nat>)

  /** The timeliness section. `hasCorrectCadence` is `None` until the maximum is taken. */
  datatype TimelinessReport = TimelinessReport(
    isFresh: Value,
    isCrisisRelevant: bool,
    hasCorrectCadence: Option<nat>,
    dataUpdateFrequency: string,
    resources: seq<ResourceTimeliness>)

  /** Whether `now.isoformat() < due_date` can be evaluated, or is skipped: `due_date` is
      `None` (skipped) or text. An absent key reads as `False`, which, like a number or a
      boolean, cannot be ordered against text. */
  predicate DueDateComparable(dueDate: Option<Value>) {
    dueDate.Some? && (dueDate.value.JNull? || dueDate.value.JString?)
  }

  /** The cadence count of one resource: starts at 1 and gains one for each of the mean and
      standard-deviation tests, which run only when the frequency is positive and there are at
      least two intervals. */
  function ResourceCadence(checks: seq<string>, frequency: string, stats: CadenceStats): (c: Option<nat>)
    ensures c.None? <==> checks == []
    ensures c.Some? ==> 1 <= c.value <= 3
    ensures c.Some? && c.value > 1 ==> stats.frequencyPositive(frequency) && |checks| > 2
  {
    if checks == [] then None
    else if stats.frequencyPositive(frequency) && |checks| - 1 > 1 then
      Some(1 + BoolToNat(stats.meanOk(checks, frequency)) + BoolToNat(stats.stdOk(checks, frequency)))
    else Some(1)
  }

  /** The entry of one resource, from the change summary `changes` of the dataset, or the
      exception its loop iteration raises: the `due_date` comparison, then the `last_modified`
      lookup, then `float()` of the frequency, which runs only for a resource with indicators. */
  function ResourceTimelinessOf(metadata: Dataset, changes: map<string, seq<string>>, r: Resource, stats: CadenceStats)
    : Result<ResourceTimeliness>
  {
    var checks := ChecksIn(changes, r.name);
    if !DueDateComparable(metadata.dueDate) then Err(TypeMismatch("due_date"))
    else if metadata.lastModified.None? then Err(MissingKey("last_modified"))
    else if checks != [] && !stats.parsesAsFloat(metadata.dataUpdateFrequency) then
      Err(NotANumber(metadata.dataUpdateFrequency))
    else Ok(ResourceTimeliness(r.name, |checks|, ResourceCadence(checks, metadata.dataUpdateFrequency, stats)))
  }

  /** The resource entries, in resource order, or the exception of the first resource whose
      iteration raises. */
  function TimelinessResources(metadata: Dataset, changes: map<string, seq<string>>, resources: seq<Resource>,
                               stats: CadenceStats)
    : (reports: Result<seq<ResourceTimeliness>>)
    ensures reports.Ok? ==> |reports.value| == |resources|
    decreases |resources|
  {
    if resources == [] then Ok([])
    else
      match TimelinessResources(metadata, changes, resources[..|resources| - 1], stats)
      case Err(e) => Err(e)
      case Ok(reports) =>
        match ResourceTimelinessOf(metadata, changes, resources[|resources| - 1], stats)
        case Err(e) => Err(e)
        case Ok(report) => Ok(reports + [report])
  }

  /** The entries succeed exactly when every resource's iteration does, and entry `i` is then
      the entry of resource `i`. */
  lemma {:induction false} TimelinessResourcesOk(metadata: Dataset, changes: map<string, seq<string>>,
                                                 resources: seq<Resource>, stats: CadenceStats)
    ensures TimelinessResources(metadata, changes, resources, stats).Ok? <==>
              forall i :: 0 <= i < |resources| ==> ResourceTimelinessOf(metadata, changes, resources[i], stats).Ok?
    ensures TimelinessResources(metadata, changes, resources, stats).Ok? ==>
              forall i :: 0 <= i < |resources| ==>
                ResourceTimelinessOf(metadata, changes, resources[i], stats)
                  == Ok(TimelinessResources(metadata, changes, resources, stats).value[i])
    decreases |resources|
  {
    if resources != [] {
      var init := resources[..|resources| - 1];
      TimelinessResourcesOk(metadata, changes, init, stats);
      assert forall i :: 0 <= i < |init| ==> init[i] == resources[i];
    }
  }

  /** A failure is the failure of some resource's iteration. */
  lemma {:induction false} TimelinessResourcesFailure(metadata: Dataset, changes: map<string, seq<string>>,
                                                      resources: seq<Resource>, stats: CadenceStats)
    ensures TimelinessResources(metadata, changes, resources, stats).Err? ==>
              exists i :: 0 <= i < |resources| && ResourceTimelinessOf(metadata, changes, resources[i], stats)
                                                    == Err(TimelinessResources(metadata, changes, resources, stats).error)
    decreases |resources|
  {
    if resources != [] {
      var init := resources[..|resources| - 1];
      TimelinessResourcesFailure(metadata, changes, init, stats);
      if TimelinessResources(metadata, changes, init, stats).Err? {
        var i :| 0 <= i < |init| && ResourceTimelinessOf(metadata, changes, init[i], stats)
                                      == Err(TimelinessResources(metadata, changes, init, stats).error);
        assert init[i] == resources[i];
      }
    }
  }

  /** Once a prefix of the resources fails, the whole loop fails the same way. */
  lemma {:induction false} TimelinessResourcesStop(metadata: Dataset, changes: map<string, seq<string>>,
                                                   resources: seq<Resource>, stats: CadenceStats, n: nat)
    requires n <= |resources|
    requires TimelinessResources(metadata, changes, resources[..n], stats).Err?
    ensures TimelinessResources(metadata, changes, resources, stats)
              == TimelinessResources(metadata, changes, resources[..n], stats)
    decreases |resources|
  {
    if n == |resources| {
      assert resources[..n] == resources;
    } else {
      var init := resources[..|resources| - 1];
      assert init[..n] == resources[..n];
      TimelinessResourcesStop(metadata, changes, init, stats, n);
    }
  }

  /** `max(x.get("has_correct_cadence", 1) for x in resources)`. */
  function MaxCadence(reports: seq<ResourceTimeliness>): (m: nat)
    requires |reports| > 0
    ensures forall i :: 0 <= i < |reports| ==> reports[i].hasCorrectCadence.GetOr(1) <= m
    ensures exists i :: 0 <= i < |reports| && reports[i].hasCorrectCadence.GetOr(1) == m
    decreases |reports|
  {
    var last := reports[|reports| - 1].hasCorrectCadence.GetOr(1);
    if |reports| == 1 then last
    else
      var best := MaxCadence(reports[..|reports| - 1]);
      assert forall i :: 0 <= i < |reports| - 1 ==> reports[..|reports| - 1][i] == reports[i];
      if best >= last then best else last
  }

  /** `is_crisis_relevant`: some tag is a crisis tag and the update frequency is "0". */
  predicate IsCrisisRelevant(metadata: Dataset) {
    CrisisTags(metadata.tags).Some? && metadata.dataUpdateFrequency == "0"
  }

  /** The section as it stands before the resources are visited. */
  function TimelinessHeader(metadata: Dataset): TimelinessReport {
    TimelinessReport(metadata.isFresh.GetOr(JBool(false)), IsCrisisRelevant(metadata), None,
                     metadata.dataUpdateFrequency, [])
  }

  /** The timeliness section and score of a dataset, or the exception of the resource loop;
      `max()` over no resources raises. */
  function TimelinessOf(metadata: Dataset, changes: map<string, seq<string>>, stats: CadenceStats)
    : Result<(TimelinessReport, nat)>
  {
    match TimelinessResources(metadata, changes, metadata.resources, stats)
    case Err(e) => Err(e)
    case Ok(reports) =>
      if reports == [] then Err(NoResources)
      else
        var cadence := MaxCadence(reports);
        var header := TimelinessHeader(metadata);
        Ok((header.(hasCorrectCadence := Some(cadence), resources := reports),
            cadence + BoolToNat(Truthy(header.isFresh)) + BoolToNat(header.isCrisisRelevant)))
  }

  /** The entries `add_timeliness_entries` writes before it visits the resources. */
  method TimelinessHeaderEntries(metadata: Dataset) returns (header: TimelinessReport)
    ensures header == TimelinessHeader(metadata)
  {
    var inCrisis := CheckForCrisis(metadata);
    header := TimelinessReport(metadata.isFresh.GetOr(JBool(false)), inCrisis.Some? && metadata.dataUpdateFrequency == "0",
                               None, metadata.dataUpdateFrequency, []);
  }

  /** `timeliness_summary`: the cadence, plus one for a truthy `is_fresh` and one for crisis
      relevance. */
  method TimelinessSummary(header: TimelinessReport, cadence: nat) returns (score: nat)
    ensures score == cadence + BoolToNat(Truthy(header.isFresh)) + BoolToNat(header.isCrisisRelevant)
  {
    score := cadence;
    if Truthy(header.isFresh) {
      score := score + 1;
    }
    if header.isCrisisRelevant {
      score := score + 1;
    }
  }

  /** The body of the resource loop of `add_timeliness_entries`: the entry of one resource,
      from the change summary `changes` of the dataset, or the exception it raises. */
  method ResourceTimelinessEntry(metadata: Dataset, changes: map<string, seq<string>>, resource: Resource,
                                 stats: CadenceStats)
    returns (result: Result<ResourceTimeliness>)
    ensures result == ResourceTimelinessOf(metadata, changes, resource, stats)
  {
    var dueDate := metadata.dueDate.GetOr(JBool(false));
    if !dueDate.JNull? && !dueDate.JString? {
      return Err(TypeMismatch("due_date"));
    }
    if metadata.lastModified.None? {
      return Err(MissingKey("last_modified"));
    }
    var checks := if resource.name in changes then changes[resource.name] else [];
    var hasCorrectCadence: Option<nat> := None;
    if |checks| != 0 {
      var cadence := 1;
      var expectedCadence := metadata.dataUpdateFrequency;
      if !stats.parsesAsFloat(expectedCadence) {
        return Err(NotANumber(expectedCadence));
      }
      if stats.frequencyPositive(expectedCadence) && |checks| - 1 > 1 {
        if stats.meanOk(checks, expectedCadence) {
          cadence := cadence + 1;
        }
        if stats.stdOk(checks, expectedCadence) {
          cadence := cadence + 1;
        }
      }
      hasCorrectCadence := Some(cadence);
    }
    return Ok(ResourceTimeliness(resource.name, |checks|, hasCorrectCadence));
  }

  /** The resource loop of `add_timeliness_entries`: one entry per resource, in order, up to the
      first resource whose iteration raises. */
  method TimelinessEntries(metadata: Dataset, changes: map<string, seq<string>>, stats: CadenceStats)
    returns (reports: seq<ResourceTimeliness>, failure: Option<Failure>)
    ensures |reports| <= |metadata.resources|
    ensures TimelinessResources(metadata, changes, metadata.resources[..|reports|], stats) == Ok(reports)
    ensures failure.None? ==> TimelinessResources(metadata, changes, metadata.resources, stats) == Ok(reports)
    ensures failure.Some? ==>
              && |reports| < |metadata.resources|
              && TimelinessResources(metadata, changes, metadata.resources, stats) == Err(failure.value)
  {
    var resources := metadata.resources;
    reports := [];
    var i := 0;
    while i < |resources|
      invariant 0 <= i <= |resources|
      invariant |reports| == i
      invariant TimelinessResources(metadata, changes, resources[..i], stats) == Ok(reports)
    {
      assert resources[..i + 1][..i] == resources[..i];
      var result := ResourceTimelinessEntry(metadata, changes, resources[i], stats);
      if result.Err? {
        TimelinessResourcesStop(metadata, changes, resources, stats, i + 1);
        return reports, Some(result.error);
      }
      reports := reports + [result.value];
      i := i + 1;
    }
    assert resources[..i] == resources;
    return reports, None;
  }

  /** The scorer fails exactly when there are no resources (the `max()`), `due_date` cannot be
      compared with text, `last_modified` is missing, or some resource has indicators and the
      frequency is no number; the failure is the first of these in that order. */
  lemma TimelinessFailure(metadata: Dataset, changes: map<string, seq<string>>, stats: CadenceStats)
    ensures TimelinessOf(metadata, changes, stats).Err? <==>
              || metadata.resources == []
              || !DueDateComparable(metadata.dueDate)
              || metadata.lastModified.None?
              || (!stats.parsesAsFloat(metadata.dataUpdateFrequency)
                  && exists i :: 0 <= i < |metadata.resources| && ChecksIn(changes, metadata.resources[i].name) != [])
    ensures metadata.resources == [] ==> TimelinessOf(metadata, changes, stats) == Err(NoResources)
    ensures metadata.resources != [] && !DueDateComparable(metadata.dueDate) ==>
              TimelinessOf(metadata, changes, stats) == Err(TypeMismatch("due_date"))
    ensures metadata.resources != [] && DueDateComparable(metadata.dueDate) && metadata.lastModified.None? ==>
              TimelinessOf(metadata, changes, stats) == Err(MissingKey("last_modified"))
    ensures metadata.resources != [] && DueDateComparable(metadata.dueDate) && metadata.lastModified.Some?
              && TimelinessOf(metadata, changes, stats).Err? ==>
              TimelinessOf(metadata, changes, stats) == Err(NotANumber(metadata.dataUpdateFrequency))
  {
    var all := metadata.resources;
    TimelinessResourcesOk(metadata, changes, all, stats);
    TimelinessResourcesFailure(metadata, changes, all, stats);
    if !stats.parsesAsFloat(metadata.dataUpdateFrequency) && DueDateComparable(metadata.dueDate)
       && metadata.lastModified.Some? {
      if exists i :: 0 <= i < |all| && ChecksIn(changes, all[i].name) != [] {
        var i :| 0 <= i < |all| && ChecksIn(changes, all[i].name) != [];
        assert ResourceTimelinessOf(metadata, changes, all[i], stats).Err?;
      }
    }
  }

  /** A successful scorer: every resource entry succeeds, the dataset cadence is the best
      resource cadence and lies in [1, 3]; the score adds one for a truthy `is_fresh` and one
      for crisis relevance, so it lies in [1, 5]. */
  lemma TimelinessScore(metadata: Dataset, changes: map<string, seq<string>>, stats: CadenceStats)
    ensures TimelinessOf(metadata, changes, stats).Ok? ==>
              var (report, score) := TimelinessOf(metadata, changes, stats).value;
              && report.hasCorrectCadence.Some?
              && 1 <= report.hasCorrectCadence.value <= 3
              && (forall i :: 0 <= i < |metadata.resources| ==>
                    && ResourceTimelinessOf(metadata, changes, metadata.resources[i], stats).Ok?
                    && ResourceTimelinessOf(metadata, changes, metadata.resources[i], stats).value.hasCorrectCadence.GetOr(1)
                         <= report.hasCorrectCadence.value)
              && score == report.hasCorrectCadence.value + BoolToNat(Truthy(metadata.isFresh.GetOr(JBool(false))))
                          + BoolToNat(exists i :: 0 <= i < |metadata.tags| && IsCrisisTag(metadata.tags[i])
                                                  && metadata.dataUpdateFrequency == "0")
              && 1 <= score <= 5
  {
    var all := metadata.resources;
    var scan := TimelinessResources(metadata, changes, all, stats);
    if scan.Ok? && all != [] {
      var reports := scan.value;
      var m := MaxCadence(reports);
      var header := TimelinessHeader(metadata);
      assert TimelinessOf(metadata, changes, stats)
               == Ok((header.(hasCorrectCadence := Some(m), resources := reports),
                      m + BoolToNat(Truthy(header.isFresh)) + BoolToNat(header.isCrisisRelevant)));
      TimelinessResourcesEntries(metadata, changes, all, stats, m);
      CrisisRelevance(metadata);
    }
  }

  /** In a successful loop every entry's cadence lies in [1, 3], every resource entry succeeds,
      and a bound on the entries' cadences bounds every resource's cadence. */
  lemma TimelinessResourcesEntries(metadata: Dataset, changes: map<string, seq<string>>, resources: seq<Resource>,
                                   stats: CadenceStats, m: nat)
    requires TimelinessResources(metadata, changes, resources, stats).Ok?
    requires var reports := TimelinessResources(metadata, changes, resources, stats).value;
             forall i :: 0 <= i < |reports| ==> reports[i].hasCorrectCadence.GetOr(1) <= m
    ensures forall i :: 0 <= i < |resources| ==>
              && ResourceTimelinessOf(metadata, changes, resources[i], stats).Ok?
              && ResourceTimelinessOf(metadata, changes, resources[i], stats).value.hasCorrectCadence.GetOr(1) <= m
    ensures var reports := TimelinessResources(metadata, changes, resources, stats).value;
            forall i :: 0 <= i < |reports| ==> 1 <= reports[i].hasCorrectCadence.GetOr(1) <= 3
  {
    TimelinessResourcesOk(metadata, changes, resources, stats);
  }

  /** Crisis relevance: some tag starts with "crisis-" and the update frequency is "0". */
  lemma CrisisRelevance(metadata: Dataset)
    ensures IsCrisisRelevant(metadata) <==>
              exists i :: 0 <= i < |metadata.tags| && IsCrisisTag(metadata.tags[i]) && metadata.dataUpdateFrequency == "0"
  {
    CrisisNamesEmpty(metadata.tags);
  }
}

/** The relevance dimension of the data-quality report: the lookups `check_for_crisis`,
    `check_for_hapi`, `check_for_signals` and `check_for_datagrid`, and the nine entries of
    the relevance section together with the score that counts them. */
module Relevance {
  import opened Common
  import opened Metadata

  const CrisisPrefix: string := "crisis-"
  const HapiOutputPrefix: string := "hdx-hapi-"

  /** The HDX Signals landing-page datasets and organisations. */
  const SignalsDatasets: seq<string> := [
    "asap-hotspots-monthly",
    "global-acute-food-insecurity-country-data",
    "inform-global-crisis-severity-index",
    "global-market-monitor"]
  const SignalsOrganizations: seq<string> := ["acled", "international-displacement-monitoring-centre-idmc"]

  predicate IsCrisisTag(tag: string) {
    StartsWith(tag, CrisisPrefix)
  }

  /** The crisis tags of a tag list, in tag order. */
  function CrisisNames(tags: seq<string>): seq<string>
    decreases |tags|
  {
    if tags == [] then []
    else CrisisNames(tags[..|tags| - 1]) + (if IsCrisisTag(tags[|tags| - 1]) then [tags[|tags| - 1]] else [])
  }

  /** What `check_for_crisis` returns: False (`None`) or the list of crisis tag names. */
  function CrisisTags(tags: seq<string>): Option<seq<string>> {
    if CrisisNames(tags) == [] then None else Some(CrisisNames(tags))
  }

  /** `check_for_crisis`: the list grows one crisis tag at a time, starting from False. */
  method CheckForCrisis(metadata: Dataset) returns (inCrisis: Option<seq<string>>)
    ensures inCrisis == CrisisTags(metadata.tags)
    ensures inCrisis.None? <==> forall i :: 0 <= i < |metadata.tags| ==> !IsCrisisTag(metadata.tags[i])
    ensures inCrisis.Some? ==> |inCrisis.value| > 0
  {
    var tags := metadata.tags;
    inCrisis := None;
    var i := 0;
    while i < |tags|
      invariant 0 <= i <= |tags|
      invariant inCrisis == CrisisTags(tags[..i])
    {
      assert tags[..i + 1][..i] == tags[..i];
      if IsCrisisTag(tags[i]) {
        assert CrisisNames(tags[..i + 1]) == CrisisNames(tags[..i]) + [tags[i]];
        if inCrisis.None? {
          assert CrisisNames(tags[..i]) == [];
          assert CrisisNames(tags[..i + 1]) == [tags[i]];
          inCrisis := Some([tags[i]]);
        } else {
          inCrisis := Some(inCrisis.value + [tags[i]]);
        }
      } else {
        assert CrisisNames(tags[..i + 1]) == CrisisNames(tags[..i]) + [];
        assert CrisisNames(tags[..i]) + [] == CrisisNames(tags[..i]);
      }
      i := i + 1;
    }
    assert tags[..i] == tags;
    CrisisNamesEmpty(tags);
  }

  /** No crisis tag is found exactly when no tag starts with "crisis-". */
  lemma {:induction false} CrisisNamesEmpty(tags: seq<string>)
    ensures CrisisNames(tags) == [] <==> forall i :: 0 <= i < |tags| ==> !IsCrisisTag(tags[i])
    decreases |tags|
  {
    if tags != [] {
      var init := tags[..|tags| - 1];
      CrisisNamesEmpty(init);
      assert forall i :: 0 <= i < |init| ==> init[i] == tags[i];
    }
  }

  /** The crisis list consists of exactly the crisis tags, and keeps their order: the names of
      a tag list split in two are those of each part, concatenated. */
  lemma {:induction false} CrisisNamesAppend(a: seq<string>, b: seq<string>)
    ensures CrisisNames(a + b) == CrisisNames(a) + CrisisNames(b)
    decreases |b|
  {
    if b == [] {
      assert a + b == a;
    } else {
      assert (a + b)[..|a + b| - 1] == a + b[..|b| - 1];
      CrisisNamesAppend(a, b[..|b| - 1]);
    }
  }

  lemma {:induction false} CrisisNamesMembers(tags: seq<string>)
    ensures forall n :: n in CrisisNames(tags) <==> n in tags && IsCrisisTag(n)
    decreases |tags|
  {
    if tags != [] {
      var init := tags[..|tags| - 1];
      CrisisNamesMembers(init);
      assert tags == init + [tags[|tags| - 1]];
    }
  }

  /** The number of resources whose id is a HAPI input resource id. */
  function HapiCount(resources: seq<Resource>, hapiIds: set<string>): nat
    decreases |resources|
  {
    if resources == [] then 0
    else HapiCount(resources[..|resources| - 1], hapiIds) + BoolToNat(resources[|resources| - 1].id in hapiIds)
  }

  lemma {:induction false} HapiCountBounds(resources: seq<Resource>, hapiIds: set<string>)
    ensures HapiCount(resources, hapiIds) <= |resources|
    ensures HapiCount(resources, hapiIds) == 0 <==> forall i :: 0 <= i < |resources| ==> resources[i].id !in hapiIds
    decreases |resources|
  {
    if resources != [] {
      var init := resources[..|resources| - 1];
      HapiCountBounds(init, hapiIds);
      assert forall i :: 0 <= i < |init| ==> init[i] == resources[i];
    }
  }

  /** What `check_for_hapi` returns: False (`None`) or "n of total". */
  function HapiText(resources: seq<Resource>, hapiIds: set<string>): Option<string> {
    var n := HapiCount(resources, hapiIds);
    if n == 0 then None else Some(NatToString(n) + " of " + NatToString(|resources|))
  }

  /** `check_for_hapi`, with the set of HAPI resource ids passed in. */
  method CheckForHapi(metadata: Dataset, hapiIds: set<string>) returns (inHapiInput: Option<string>)
    ensures inHapiInput == HapiText(metadata.resources, hapiIds)
    ensures inHapiInput.None? <==> forall i :: 0 <= i < |metadata.resources| ==> metadata.resources[i].id !in hapiIds
    ensures inHapiInput.Some? ==>
              var n := HapiCount(metadata.resources, hapiIds);
              && 1 <= n <= |metadata.resources|
              && inHapiInput.value == NatToString(n) + " of " + NatToString(|metadata.resources|)
  {
    var resources := metadata.resources;
    var nResources := |resources|;
    var nInHapi := 0;
    var i := 0;
    while i < |resources|
      invariant 0 <= i <= |resources|
      invariant nInHapi == HapiCount(resources[..i], hapiIds)
    {
      assert resources[..i + 1][..i] == resources[..i];
      if resources[i].id in hapiIds {
        nInHapi := nInHapi + 1;
      }
      i := i + 1;
    }
    assert resources[..i] == resources;
    HapiCountBounds(resources, hapiIds);
    inHapiInput := None;
    if nInHapi != 0 {
      inHapiInput := Some(NatToString(nInHapi) + " of " + NatToString(nResources));
    }
  }

  /** `check_for_signals`. */
  predicate InSignals(metadata: Dataset) {
    metadata.name in SignalsDatasets || metadata.organizationName in SignalsOrganizations
  }

  /** `check_for_datagrid`, with the Data-Grid dataset names (read from a bundled CSV file in
      the code) passed in. */
  predicate InDataGrids(metadata: Dataset, datagridNames: seq<string>) {
    metadata.name in datagridNames
  }

  /** The relevance section, in the order its keys are inserted. */
  datatype RelevanceReport = RelevanceReport(
    inHdx: bool,
    inDataseries: Value,
    inPipeline: Value,
    inCod: Value,
    inHapiOutput: bool,
    inSignals: bool,
    inCrisis: Option<seq<string>>,
    inHapiInput: Option<string>,
    inDataGrids: bool)

  /** The relevance section built from a dataset's metadata; keys that are absent read as False. */
  function RelevanceOf(metadata: Dataset, hapiIds: set<string>, datagridNames: seq<string>): RelevanceReport {
    RelevanceReport(
      true,
      metadata.dataseriesName.GetOr(JBool(false)),
      metadata.updatedByScript.GetOr(JBool(false)),
      metadata.codLevel.GetOr(JBool(false)),
      StartsWith(metadata.name, HapiOutputPrefix),
      InSignals(metadata),
      CrisisTags(metadata.tags),
      HapiText(metadata.resources, hapiIds),
      InDataGrids(metadata, datagridNames))
  }

  /** Python truthiness of the nine entries, in key order. */
  function RelevanceFlags(report: RelevanceReport): (flags: seq<bool>)
    ensures |flags| == 9
  {
    [report.inHdx, Truthy(report.inDataseries), Truthy(report.inPipeline), Truthy(report.inCod),
     report.inHapiOutput, report.inSignals,
     report.inCrisis.Some? && report.inCrisis.value != [],
     report.inHapiInput.Some? && report.inHapiInput.value != "",
     report.inDataGrids]
  }

  /** `sum([1 if v else 0 for v in ...])`. */
  function CountTrue(flags: seq<bool>): nat
    decreases |flags|
  {
    if flags == [] then 0 else CountTrue(flags[..|flags| - 1]) + BoolToNat(flags[|flags| - 1])
  }

  lemma {:induction false} CountTrueBounds(flags: seq<bool>)
    ensures CountTrue(flags) <= |flags|
    ensures CountTrue(flags) == 0 <==> forall i :: 0 <= i < |flags| ==> !flags[i]
    decreases |flags|
  {
    if flags != [] {
      var init := flags[..|flags| - 1];
      CountTrueBounds(init);
      assert forall i :: 0 <= i < |init| ==> init[i] == flags[i];
    }
  }

  /** The relevance score of a found dataset lies in [1, 9], because `in_hdx` is always True;
      every lookup entry is truthy exactly when its rule holds. */
  lemma RelevanceScore(metadata: Dataset, hapiIds: set<string>, datagridNames: seq<string>)
    ensures var r := RelevanceOf(metadata, hapiIds, datagridNames);
            && 1 <= CountTrue(RelevanceFlags(r)) <= 9
            && r.inHdx
            && (r.inHapiOutput <==> StartsWith(metadata.name, "hdx-hapi-"))
            && (r.inSignals <==> metadata.name in SignalsDatasets || metadata.organizationName in SignalsOrganizations)
            && (RelevanceFlags(r)[6] <==> exists i :: 0 <= i < |metadata.tags| && IsCrisisTag(metadata.tags[i]))
            && (RelevanceFlags(r)[7] <==> exists i :: 0 <= i < |metadata.resources| && metadata.resources[i].id in hapiIds)
            && (r.inDataGrids <==> metadata.name in datagridNames)
  {
    var r := RelevanceOf(metadata, hapiIds, datagridNames);
    CountTrueBounds(RelevanceFlags(r));
    assert RelevanceFlags(r)[0];
    CrisisNamesEmpty(metadata.tags);
    HapiCountBounds(metadata.resources, hapiIds);
  }
}

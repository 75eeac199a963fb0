/** The interoperability dimension: a P-coded resource, or a resource whose schema carries a
    geodenomination HXL tag, gives the dataset a score of 1. */
module Interoperability {
  import opened Common
  import opened Metadata
  import opened Schemas

  /** One entry of `interoperability.resources`; `has_geodenomination_hxl` is present (as 1)
      only when it holds, which `hasGeodenominationHxl` records. */
  datatype ResourceInteroperability = ResourceInteroperability(
    name: string,
    pCoded: bool,
    hasGeodenominationHxl: bool)

  /** The entry of one resource; building its schemas may raise KeyError. */
  function InteropEntry(r: Resource, hashRow: seq<string> -> string): Result<ResourceInteroperability> {
    match ResourceSchemas(r, hashRow)
    case Err(e) => Err(e)
    case Ok(schemas) => Ok(ResourceInteroperability(r.name, r.pCoded.GetOr(false), AnyGeoTag(schemas)))
  }

  function InteropResults(resources: seq<Resource>, hashRow: seq<string> -> string)
    : (results: seq<Result<ResourceInteroperability>>)
    ensures |results| == |resources|
    ensures forall i {:trigger results[i]} :: 0 <= i < |resources| ==> results[i] == InteropEntry(resources[i], hashRow)
  {
    seq(|resources|, i requires 0 <= i < |resources| => InteropEntry(resources[i], hashRow))
  }

  /** The loop over the resources: the entries in order and `has_standard_geodenomination`,
      set to 1 by a qualifying resource and never reset; the first failure stops the loop. */
  function InteropScan(results: seq<Result<ResourceInteroperability>>): Result<(seq<ResourceInteroperability>, nat)>
    decreases |results|
  {
    if results == [] then Ok(([], 0))
    else
      match InteropScan(results[..|results| - 1])
      case Err(e) => Err(e)
      case Ok((reports, flag)) =>
        match results[|results| - 1]
        case Err(e) => Err(e)
        case Ok(report) =>
          Ok((reports + [report], if report.pCoded || report.hasGeodenominationHxl then 1 else flag))
  }

  /** The interoperability section (its resource entries in order) and score. */
  function InteroperabilityOf(metadata: Dataset, hashRow: seq<string> -> string)
    : Result<(seq<ResourceInteroperability>, nat)>
  {
    InteropScan(InteropResults(metadata.resources, hashRow))
  }

  /** The body of the resource loop of `add_interoperability_entries`. */
  method ResourceInteropEntry(resource: Resource, hashRow: seq<string> -> string)
    returns (result: Result<ResourceInteroperability>)
    ensures result == InteropEntry(resource, hashRow)
  {
    var pCoded := resource.pCoded.GetOr(false);
    var schemas := SummariseSchema(resource, hashRow);
    if schemas.Err? {
      return Err(schemas.error);
    }
    var hasGeodenominationHxl := CheckSchemas(schemas.value);
    return Ok(ResourceInteroperability(resource.name, pCoded, hasGeodenominationHxl));
  }

  /** Once a prefix of the outcomes fails, the whole scan fails the same way. */
  lemma {:induction false} InteropScanStopsAtFailure(results: seq<Result<ResourceInteroperability>>, n: nat)
    requires n <= |results|
    requires InteropScan(results[..n]).Err?
    ensures InteropScan(results) == InteropScan(results[..n])
    decreases |results| - n
  {
    if n < |results| {
      assert results[..n + 1][..n] == results[..n];
      InteropScanStopsAtFailure(results, n + 1);
    } else {
      assert results[..n] == results;
    }
  }

  /** The scan succeeds exactly when every entry does; it then keeps the entries in order and
      its flag is 1 exactly when some entry is P-coded or has a geodenomination tag. */
  lemma {:induction false} InteropScanSpec(results: seq<Result<ResourceInteroperability>>)
    ensures InteropScan(results).Ok? <==> forall i :: 0 <= i < |results| ==> results[i].Ok?
    ensures InteropScan(results).Ok? ==>
              var (reports, flag) := InteropScan(results).value;
              && reports == seq(|results|, i requires 0 <= i < |results| && results[i].Ok? => results[i].value)
              && flag <= 1
              && (flag == 1 <==> exists i :: 0 <= i < |results| && (results[i].value.pCoded || results[i].value.hasGeodenominationHxl))
    decreases |results|
  {
    if results != [] {
      var init := results[..|results| - 1];
      InteropScanSpec(init);
      assert forall i :: 0 <= i < |init| ==> init[i] == results[i];
    }
  }

  /** A failing scan reports the error of the first entry that fails. */
  lemma {:induction false} InteropScanFailure(results: seq<Result<ResourceInteroperability>>)
    requires InteropScan(results).Err?
    ensures exists i :: 0 <= i < |results| && results[i].Err?
              && (forall j :: 0 <= j < i ==> results[j].Ok?)
              && InteropScan(results).error == results[i].error
    decreases |results|
  {
    var init := results[..|results| - 1];
    assert forall i :: 0 <= i < |init| ==> init[i] == results[i];
    InteropScanSpec(init);
    if InteropScan(init).Err? {
      InteropScanFailure(init);
    }
  }

  /** The interoperability score is 1 exactly when some resource is P-coded or carries a
      geodenomination HXL tag in the schemas of its last completed check, and 0 otherwise. */
  lemma InteroperabilityScore(metadata: Dataset, hashRow: seq<string> -> string)
    ensures var all := metadata.resources;
            InteroperabilityOf(metadata, hashRow).Ok? <==> forall i :: 0 <= i < |all| ==> ResourceSchemas(all[i], hashRow).Ok?
    ensures InteroperabilityOf(metadata, hashRow).Ok? ==>
              var all := metadata.resources;
              var score := InteroperabilityOf(metadata, hashRow).value.1;
              && score <= 1
              && (score == 1 <==>
                    exists i :: 0 <= i < |all| &&
                      (all[i].pCoded == Some(true) || AnyGeoTag(ResourceSchemas(all[i], hashRow).value)))
  {
    var all := metadata.resources;
    var results := InteropResults(all, hashRow);
    InteropScanSpec(results);
    forall i | 0 <= i < |all| ensures results[i].Ok? <==> ResourceSchemas(all[i], hashRow).Ok? {
    }
  }
}

/** The interpretability dimension: a resource that is in the datastore, or whose name marks it
    as a data dictionary, gives the dataset a score of 1. */
module Interpretability {
  import opened Common
  import opened Metadata

  /** One entry of `interpretability.resources`. */
  datatype ResourceInterpretability = ResourceInterpretability(
    name: string,
    datastoreActive: bool,
    isDataDictionary: bool)

  /** The lower-cased name contains both "dictionary" and "data". */
  predicate IsDataDictionaryName(name: string) {
    Contains(Lower(name), "dictionary") && Contains(Lower(name), "data")
  }

  function InterpretabilityEntry(r: Resource): ResourceInterpretability {
    ResourceInterpretability(r.name, r.datastoreActive.GetOr(false), IsDataDictionaryName(r.name))
  }

  /** `has_data_dictionary` after the loop over `resources`: it is set to 1 by a qualifying
      resource and never reset. */
  function HasDataDictionary(resources: seq<Resource>): nat
    decreases |resources|
  {
    if resources == [] then 0
    else
      var e := InterpretabilityEntry(resources[|resources| - 1]);
      if e.datastoreActive || e.isDataDictionary then 1 else HasDataDictionary(resources[..|resources| - 1])
  }

  /** The interpretability section (its resource entries in order) and score. */
  function InterpretabilityOf(metadata: Dataset): (seq<ResourceInterpretability>, nat) {
    (seq(|metadata.resources|, i requires 0 <= i < |metadata.resources| => InterpretabilityEntry(metadata.resources[i])),
     HasDataDictionary(metadata.resources))
  }

  /** The score is 1 exactly when some resource is datastore-active or is named as a data
      dictionary, and 0 otherwise. */
  lemma {:induction false} InterpretabilityScore(resources: seq<Resource>)
    ensures HasDataDictionary(resources) <= 1
    ensures HasDataDictionary(resources) == 1 <==>
              exists i :: 0 <= i < |resources| &&
                (resources[i].datastoreActive == Some(true) || IsDataDictionaryName(resources[i].name))
    decreases |resources|
  {
    if resources != [] {
      var init := resources[..|resources| - 1];
      InterpretabilityScore(init);
      assert forall i :: 0 <= i < |init| ==> init[i] == resources[i];
    }
  }

  /** Case in the resource name does not matter. */
  lemma DataDictionaryNameIgnoresCase(name: string)
    ensures IsDataDictionaryName(Lower(name)) == IsDataDictionaryName(name)
  {
    assert Lower(Lower(name)) == Lower(name) by {
      assert forall i :: 0 <= i < |name| ==> Lower(Lower(name))[i] == Lower(name)[i];
    }
  }
}

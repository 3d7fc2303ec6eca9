/** src/pages/HomePage.js: the page's store lists and `filterStores`, the filter that the
    selection controls drive. */
module HomePage {
  import opened StoreRecord
  import Sequences

  /** The argument of `filterStores`. The category is '' at first and null once the selected
      toggle is clicked again; both mean "any category" (`!category`). */
  datatype FilterSpec = FilterSpec(category: Option<string>, freshProduce: bool, snap: bool)

  /** JavaScript truthiness of `category`. */
  predicate CategoryRequested(spec: FilterSpec) {
    spec.category.Some? && spec.category.value != ""
  }

  /** The predicate `filterStores` hands to `stores.filter`. The two flags are compared with
      `=== true`, so a truthy value other than `true` does not pass. */
  predicate Matches(spec: FilterSpec, store: Store) {
    && (!CategoryRequested(spec) || store.category == spec.category.value)
    && (!spec.freshProduce || IsTrue(store.freshProduce))
    && (!spec.snap || IsTrue(store.snap))
  }

  function Keeps(spec: FilterSpec): Store -> bool {
    store => Matches(spec, store)
  }

  /** The list `filterStores` stores in `filteredStores`, computed from the full list. */
  function Matching(stores: seq<Store>, spec: FilterSpec): seq<Store> {
    Sequences.Filter(stores, Keeps(spec))
  }

  /** The filtered list keeps the order of the full list, every kept store meets each
      requested condition, and every store that meets them all is kept, as often as it occurs. */
  lemma {:induction false} MatchingIsFilter(stores: seq<Store>, spec: FilterSpec)
    ensures Sequences.IsSubsequence(Matching(stores, spec), stores)
    ensures forall s :: s in Matching(stores, spec) ==>
              && s in stores
              && (CategoryRequested(spec) ==> s.category == spec.category.value)
              && (spec.freshProduce ==> s.freshProduce == Bool(true))
              && (spec.snap ==> s.snap == Bool(true))
    ensures forall s :: Matches(spec, s) ==> multiset(Matching(stores, spec))[s] == multiset(stores)[s]
  {
    var r := Matching(stores, spec);
    Sequences.FilterIsSubsequence(stores, Keeps(spec));
    forall s | s in r ensures s in stores && Matches(spec, s) {
      var i :| 0 <= i < |r| && r[i] == s;
    }
    forall s | Matches(spec, s) ensures multiset(r)[s] == multiset(stores)[s] {
      Sequences.FilterMultiplicity(stores, Keeps(spec), s);
    }
  }

  /** A specification with no category and neither flag keeps the whole list, in order. */
  lemma {:induction false} NoConstraintKeepsAll(stores: seq<Store>, spec: FilterSpec)
    requires !CategoryRequested(spec) && !spec.freshProduce && !spec.snap
    ensures Matching(stores, spec) == stores
  {
    Sequences.FilterKeepsAll(stores, Keeps(spec));
  }

  /** Filtering the filtered list again with the same specification changes nothing. */
  lemma {:induction false} MatchingIdempotent(stores: seq<Store>, spec: FilterSpec)
    ensures Matching(Matching(stores, spec), spec) == Matching(stores, spec)
  {
    Sequences.FilterIdempotent(stores, Keeps(spec));
  }

  /** The strict `=== true` test drops a store whose flag is merely truthy. */
  lemma StrictFlagDropsTruthyText(s: Store)
    requires s.snap == Text("yes")
    ensures IsTruthy(s.snap)
    ensures Matching([s], FilterSpec(None, false, true)) == []
  {
  }

  /** The outcome of the one-time query of the `find_food` table. */
  datatype FetchOutcome = Fetched(data: seq<Store>) | FetchFailed(message: string)

  class HomePageState {
    var stores: seq<Store>
    var filteredStores: seq<Store>
    var loading: bool
    var error: Option<string>

    /** The filtered view never holds a store the full list lacks, nor reorders them. */
    ghost predicate Valid()
      reads this
    {
      Sequences.IsSubsequence(filteredStores, stores)
    }

    constructor ()
      ensures Valid()
      ensures stores == [] && filteredStores == [] && loading && error == None
    {
      stores, filteredStores := [], [];
      loading, error := true, None;
    }

    /** The end of the fetch effect: on success both lists become the loaded rows; on failure
        the message is recorded and the lists stay as they were; loading ends either way. */
    method FetchCompleted(outcome: FetchOutcome)
      requires Valid()
      modifies this
      ensures Valid() && !loading
      ensures outcome.Fetched? ==>
                stores == outcome.data && filteredStores == outcome.data && error == old(error)
      ensures outcome.FetchFailed? ==>
                stores == old(stores) && filteredStores == old(filteredStores) && error == Some(outcome.message)
    {
      match outcome {
        case Fetched(data) =>
          stores := data;
          filteredStores := data;
          Sequences.SubsequenceReflexive(data);
        case FetchFailed(message) =>
          error := Some(message);
      }
      loading := false;
    }

    /** `filterStores`: the new view depends only on the full list and the specification,
        never on the previous view. */
    method FilterStores(spec: FilterSpec)
      modifies this`filteredStores
      ensures filteredStores == Matching(stores, spec)
      ensures Valid()
    {
      filteredStores := Matching(stores, spec);
      MatchingIsFilter(stores, spec);
    }
  }
}

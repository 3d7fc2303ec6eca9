/** src/pages/DataSummaryPage.js: the quick statistics and the SNAP pie chart. */
module DataSummaryPage {
  import opened StoreRecord
  import Sequences
  import Numbers
  import DataSummary
  import HomePage

  /** The test `store => store.SNAP` (or `store => store['Fresh Produce']`): truthiness. */
  function Flagged(f: Flag): Store -> bool {
    s => HasFlag(s, f)
  }

  /** `stores.filter(store => store.SNAP).length` */
  function SnapAcceptingStores(stores: seq<Store>): (n: nat)
    ensures n <= |stores|
  {
    |Sequences.Filter(stores, Flagged(Snap))|
  }

  /** `stores.filter(store => store['Fresh Produce']).length` */
  function FreshProduceStores(stores: seq<Store>): (n: nat)
    ensures n <= |stores|
  {
    |Sequences.Filter(stores, Flagged(FreshProduce))|
  }

  /** One slice of `pieChartData`. */
  datatype Slice = Slice(name: string, value: int)

  /** `pieChartData`: the SNAP-accepting stores and the rest. */
  function PieChartData(stores: seq<Store>): seq<Slice> {
    var totalStores := |stores|;
    var snapAcceptingStores := SnapAcceptingStores(stores);
    [Slice("SNAP Accepting", snapAcceptingStores), Slice("Non-SNAP Accepting", totalStores - snapAcceptingStores)]
  }

  /** `(snapAcceptingStores / totalStores) * 100`, before `toFixed(1)`. */
  function AcceptanceRate(stores: seq<Store>): Option<real> {
    Numbers.Percent(SnapAcceptingStores(stores) as real, |stores| as real)
  }

  /** The two slices are never negative, the second one counts exactly the stores whose SNAP
      flag is falsy, and together they make up every store. */
  lemma {:induction false} SlicesAddUp(stores: seq<Store>)
    ensures var pie := PieChartData(stores);
      && |pie| == 2
      && pie[0].value >= 0 && pie[1].value >= 0
      && pie[1].value == |Sequences.Filter(stores, (s: Store) => DeclinesSnap(s))|
      && pie[0].value + pie[1].value == |stores|
  {
    Sequences.FilterPartition(stores, Flagged(Snap), (s: Store) => DeclinesSnap(s));
  }

  /** The acceptance rate is undefined ("NaN%") exactly when there are no stores, and otherwise
      lies between 0 and 100. */
  lemma AcceptanceRateRange(stores: seq<Store>)
    ensures AcceptanceRate(stores).None? <==> |stores| == 0
    ensures |stores| > 0 ==> 0.0 <= AcceptanceRate(stores).value <= 100.0
  {
    if |stores| > 0 {
      Numbers.PercentBounds(SnapAcceptingStores(stores) as real, |stores| as real);
    }
  }

  /** Counting with `filter(...).length` gives the same numbers as the counters of the
      `summary` loop in DataSummary. */
  lemma {:induction false} FlagCountIsFilterLength(stores: seq<Store>, f: Flag)
    ensures FlagCount(stores, f) == |Sequences.Filter(stores, Flagged(f))|
    decreases |stores|
  {
    if |stores| > 0 {
      var init := stores[..|stores| - 1];
      FlagCountIsFilterLength(init, f);
      assert init + [stores[|stores| - 1]] == stores;
      Sequences.FilterSnocLength(init, stores[|stores| - 1], Flagged(f));
    }
  }

  lemma {:induction false} CountsAgreeWithSummary(stores: seq<Store>)
    ensures SnapAcceptingStores(stores) == DataSummary.SummaryOf(stores).snapAcceptingStores
    ensures FreshProduceStores(stores) == DataSummary.SummaryOf(stores).freshProduceStores
  {
    FlagCountIsFilterLength(stores, Snap);
    FlagCountIsFilterLength(stores, FreshProduce);
  }

  /** This page counts truthy SNAP flags; the home page's SNAP filter keeps only flags that are
      exactly `true`, so it never shows more stores than this page counts. */
  lemma {:induction false} StrictFilterKeepsNoMore(stores: seq<Store>)
    ensures |HomePage.Matching(stores, HomePage.FilterSpec(None, false, true))| <= SnapAcceptingStores(stores)
  {
    var strict := HomePage.Keeps(HomePage.FilterSpec(None, false, true));
    forall s: Store ensures strict(s) ==> AcceptsSnap(s) {
      StrictTrueIsNarrowerThanTruthy(s.snap);
    }
    Sequences.FilterNarrower(stores, strict, Flagged(Snap));
  }
}

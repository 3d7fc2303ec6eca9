/** The `summary` memo of src/components/DataSummary.js, and of src/pages/DataSummary.js, which
    holds the same code line for line, together with the percentages both views display. */
module DataSummary {
  import opened StoreRecord
  import opened Grouping
  import Numbers

  /** The value `categoryData[category]` holds. */
  datatype CategoryTotals = CategoryTotals(count: nat, redemption: real)

  /** One element of `chartData`. */
  datatype ChartEntry = ChartEntry(category: string, redemption: real, storeCount: nat)

  datatype Summary = Summary(
    chartData: seq<ChartEntry>,
    totalRedemption: real,
    totalStores: nat,
    snapAcceptingStores: nat,
    freshProduceStores: nat)

  /** Each store's key and amount: its category and its parsed redemption estimate. */
  function RedemptionItems(stores: seq<Store>): (items: seq<Item>)
    ensures |items| == |stores|
    decreases |stores|
  {
    if |stores| == 0 then []
    else RedemptionItems(stores[..|stores| - 1]) + [Item(stores[|stores| - 1].category, Redemption(stores[|stores| - 1]))]
  }

  lemma {:induction false} RedemptionItemsAt(stores: seq<Store>)
    ensures forall k :: 0 <= k < |stores| ==>
              RedemptionItems(stores)[k] == Item(stores[k].category, Redemption(stores[k]))
    decreases |stores|
  {
    if |stores| > 0 {
      RedemptionItemsAt(stores[..|stores| - 1]);
    }
  }

  /** What one more store does to the quantities the loop keeps. */
  lemma PrefixStep(stores: seq<Store>, i: nat)
    requires i < |stores|
    ensures var x := Item(stores[i].category, Redemption(stores[i]));
      && Tally(RedemptionItems(stores[..i + 1])) == Add(Tally(RedemptionItems(stores[..i])), x)
      && Total(RedemptionItems(stores[..i + 1])) == Total(RedemptionItems(stores[..i])) + x.amount
  {
    var x := Item(stores[i].category, Redemption(stores[i]));
    var items := RedemptionItems(stores[..i]);
    assert stores[..i + 1][..i] == stores[..i];
    assert RedemptionItems(stores[..i + 1]) == items + [x];
    TallySnoc(items, x);
  }

  function Totals(g: Group): CategoryTotals {
    CategoryTotals(g.count, g.sum)
  }

  function Chart(gs: seq<Group>): seq<ChartEntry> {
    seq(|gs|, i requires 0 <= i < |gs| => ChartEntry(gs[i].category, gs[i].sum, gs[i].count))
  }

  /** The summary the memo computes, stated through the group-by of the stores. */
  function SummaryOf(stores: seq<Store>): Summary {
    var items := RedemptionItems(stores);
    Summary(
      Chart(Tally(items)),
      Total(items),
      |stores|,
      FlagCount(stores, Snap),
      FlagCount(stores, FreshProduce))
  }

  /** `Object.entries(categoryData).map(...)`: one chart entry per key, in key order. */
  function Entries(keys: seq<string>, dict: map<string, CategoryTotals>): seq<ChartEntry>
    requires forall j :: 0 <= j < |keys| ==> keys[j] in dict
  {
    seq(|keys|, j requires 0 <= j < |keys| => ChartEntry(keys[j], dict[keys[j]].redemption, dict[keys[j]].count))
  }

  /** Listing the dictionary of a group-by gives the chart of the group-by. */
  lemma EntriesOfTally(items: seq<Item>)
    ensures var gs := Tally(items);
            && (forall j :: 0 <= j < |gs| ==> Categories(gs)[j] in AsMap(gs, Totals))
            && Entries(Categories(gs), AsMap(gs, Totals)) == Chart(gs)
  {
    DictionaryHoldsTally(items, Totals);
  }

  /** A loop turn for a category seen before: its entry is bumped in place. */
  lemma EntryBumped(gs: seq<Group>, dict: map<string, CategoryTotals>, x: Item)
    requires dict == AsMap(gs, Totals) && x.category in dict
    ensures dict[x.category := CategoryTotals(dict[x.category].count + 1, dict[x.category].redemption + x.amount)]
            == AsMap(Add(gs, x), Totals)
    ensures Categories(Add(gs, x)) == Categories(gs)
  {
    DictionaryLookup(gs, Totals, x.category);
    DictionaryBump(gs, x, Totals);
  }

  /** A loop turn for a new category: the entry created as `{count: 0, redemption: 0}` and then
      bumped holds the store alone, and its key goes last. */
  lemma EntryCreated(gs: seq<Group>, dict: map<string, CategoryTotals>, x: Item)
    requires dict == AsMap(gs, Totals) && x.category !in dict
    ensures var d := dict[x.category := CategoryTotals(0, 0.0)];
            d[x.category := CategoryTotals(d[x.category].count + 1, d[x.category].redemption + x.amount)]
            == AsMap(Add(gs, x), Totals)
    ensures Categories(Add(gs, x)) == Categories(gs) + [x.category]
  {
    DictionaryLookup(gs, Totals, x.category);
    DictionaryInsert(gs, x, Totals);
    var d := dict[x.category := CategoryTotals(0, 0.0)];
    assert d[x.category := CategoryTotals(d[x.category].count + 1, d[x.category].redemption + x.amount)]
        == dict[x.category := Totals(Group(x.category, 1, x.amount))];
  }

  /** The body of the `forEach` on `categoryData`: create the store's category as `{count: 0,
      redemption: 0}` if it is not there yet, then bump its count and redemption. The dictionary
      goes on standing for the group-by, extended by the store. */
  method CountIn(categoryData: map<string, CategoryTotals>, keys: seq<string>, x: Item, ghost gs: seq<Group>)
      returns (categoryData': map<string, CategoryTotals>, keys': seq<string>)
    requires categoryData == AsMap(gs, Totals) && keys == Categories(gs)
    ensures categoryData' == AsMap(Add(gs, x), Totals) && keys' == Categories(Add(gs, x))
  {
    var category := x.category;
    if category in categoryData {
      EntryBumped(gs, categoryData, x);
    } else {
      EntryCreated(gs, categoryData, x);
    }
    categoryData', keys' := categoryData, keys;
    if category !in categoryData' {
      categoryData' := categoryData'[category := CategoryTotals(0, 0.0)];
      keys' := keys' + [category];
    }
    categoryData' := categoryData'[category := CategoryTotals(categoryData'[category].count + 1,
                                                              categoryData'[category].redemption + x.amount)];
  }

  /** The memo itself: one pass that creates `categoryData[category]` as `{count: 0,
      redemption: 0}` the first time the category is seen, bumps its count and redemption, and
      keeps the running totals; then the entries of `categoryData` become the chart. */
  method Summarize(stores: seq<Store>) returns (summary: Summary)
    ensures summary == SummaryOf(stores)
  {
    var categoryData: map<string, CategoryTotals> := map[];
    var keys: seq<string> := [];  // the object's keys in insertion order
    var totalRedemption := 0.0;
    var totalStores := |stores|;
    var snapAcceptingStores := 0;
    var freshProduceStores := 0;
    var i := 0;
    while i < |stores|
      invariant 0 <= i <= |stores|
      invariant keys == Categories(Tally(RedemptionItems(stores[..i])))
      invariant categoryData == AsMap(Tally(RedemptionItems(stores[..i])), Totals)
      invariant totalRedemption == Total(RedemptionItems(stores[..i]))
      invariant snapAcceptingStores == FlagCount(stores[..i], Snap)
      invariant freshProduceStores == FlagCount(stores[..i], FreshProduce)
    {
      var store := stores[i];
      var redemption := Redemption(store);
      PrefixStep(stores, i);
      categoryData, keys := CountIn(categoryData, keys, Item(store.category, redemption), Tally(RedemptionItems(stores[..i])));
      totalRedemption := totalRedemption + redemption;
      FlagCountStep(stores, i, Snap);
      if AcceptsSnap(store) {
        snapAcceptingStores := snapAcceptingStores + 1;
      }
      FlagCountStep(stores, i, FreshProduce);
      if SellsFreshProduce(store) {
        freshProduceStores := freshProduceStores + 1;
      }
      i := i + 1;
    }
    assert stores[..i] == stores;
    EntriesOfTally(RedemptionItems(stores));
    var chartData := Entries(keys, categoryData);
    summary := Summary(chartData, totalRedemption, totalStores, snapAcceptingStores, freshProduceStores);
  }

  function StoreCounts(chart: seq<ChartEntry>): seq<real> {
    seq(|chart|, i requires 0 <= i < |chart| => chart[i].storeCount as real)
  }

  function Redemptions(chart: seq<ChartEntry>): seq<real> {
    seq(|chart|, i requires 0 <= i < |chart| => chart[i].redemption)
  }

  lemma {:induction false} ColumnsAddUp(gs: seq<Group>)
    ensures Numbers.Sum(StoreCounts(Chart(gs))) == TotalCount(gs) as real
    ensures Numbers.Sum(Redemptions(Chart(gs))) == TotalSum(gs)
    decreases |gs|
  {
    if |gs| > 0 {
      ColumnsAddUp(gs[1..]);
      assert StoreCounts(Chart(gs))[1..] == StoreCounts(Chart(gs[1..]));
      assert Redemptions(Chart(gs))[1..] == Redemptions(Chart(gs[1..]));
    }
  }

  /** The chart's store counts add up to the number of stores and its redemptions to the total
      redemption; the flag counts are bounded by the number of stores; no stores give no chart
      entries and a zero total. */
  lemma {:induction false} SummaryAddsUp(stores: seq<Store>)
    ensures var s := SummaryOf(stores);
      && s.totalStores == |stores|
      && Numbers.Sum(StoreCounts(s.chartData)) == s.totalStores as real
      && Numbers.Sum(Redemptions(s.chartData)) == s.totalRedemption
      && s.snapAcceptingStores <= s.totalStores
      && s.freshProduceStores <= s.totalStores
      && |s.chartData| <= |stores|
      && (|stores| == 0 <==> s.chartData == [])
  {
    var items := RedemptionItems(stores);
    TallyTotals(items);
    TallySize(items);
    ColumnsAddUp(Tally(items));
  }

  /** There is one chart entry per category, none twice, each counting exactly the stores of its
      category (at least one) and summing their redemption estimates. */
  lemma {:induction false} ChartEntriesAreCategories(stores: seq<Store>)
    ensures var chart := SummaryOf(stores).chartData;
      && (forall i, j :: 0 <= i < j < |chart| ==> chart[i].category != chart[j].category)
      && (forall i :: 0 <= i < |chart| ==>
            && chart[i].storeCount >= 1
            && chart[i].storeCount == CountOf(RedemptionItems(stores), chart[i].category)
            && chart[i].redemption == SumOf(RedemptionItems(stores), chart[i].category))
  {
    TallyDescribes(RedemptionItems(stores));
  }

  /** Every store's category has a chart entry. */
  lemma {:induction false} ChartCoversStores(stores: seq<Store>)
    ensures var chart := SummaryOf(stores).chartData;
      forall k :: 0 <= k < |stores| ==>
        exists i :: 0 <= i < |chart| && chart[i].category == stores[k].category
  {
    var items := RedemptionItems(stores);
    var gs := Tally(items);
    TallyCovers(items);
    RedemptionItemsAt(stores);
    var chart := SummaryOf(stores).chartData;
    forall k | 0 <= k < |stores|
      ensures exists i :: 0 <= i < |chart| && chart[i].category == stores[k].category
    {
      var keys := Categories(gs);
      var i :| 0 <= i < |keys| && keys[i] == items[k].category;
      assert chart[i].category == gs[i].category;
    }
  }

  /** Every chart entry is the category of some store. */
  lemma {:induction false} ChartCategoriesOccur(stores: seq<Store>)
    ensures var chart := SummaryOf(stores).chartData;
      forall i :: 0 <= i < |chart| ==>
        exists k :: 0 <= k < |stores| && stores[k].category == chart[i].category
  {
    var items := RedemptionItems(stores);
    var gs := Tally(items);
    TallyCategoriesOccur(items);
    RedemptionItemsAt(stores);
    var chart := SummaryOf(stores).chartData;
    forall i | 0 <= i < |chart|
      ensures exists k :: 0 <= k < |stores| && stores[k].category == chart[i].category
    {
      var k :| 0 <= k < |items| && items[k].category == gs[i].category;
      assert stores[k].category == items[k].category;
    }
  }

  /** A redemption estimate that did not parse, or parsed to zero, changes neither the total nor
      any category's sum. */
  lemma UnparsedRedemptionAddsNothing(stores: seq<Store>, s: Store)
    requires s.redemption.None? || s.redemption == Some(0.0)
    ensures SummaryOf(stores + [s]).totalRedemption == SummaryOf(stores).totalRedemption
    ensures forall c :: SumOf(RedemptionItems(stores + [s]), c) == SumOf(RedemptionItems(stores), c)
  {
    var items := RedemptionItems(stores);
    assert RedemptionItems(stores + [s]) == items + [Item(s.category, 0.0)];
    assert (items + [Item(s.category, 0.0)])[..|items|] == items;
  }

  // The percentages the views show, one JavaScript division each, with no zero check.

  /** `(snapAcceptingStores / totalStores) * 100` */
  function SnapShare(s: Summary): Option<real> {
    Numbers.Percent(s.snapAcceptingStores as real, s.totalStores as real)
  }

  /** `(freshProduceStores / totalStores) * 100` */
  function FreshProduceShare(s: Summary): Option<real> {
    Numbers.Percent(s.freshProduceStores as real, s.totalStores as real)
  }

  /** `(item.storeCount / totalStores) * 100` */
  function StoreShare(s: Summary, e: ChartEntry): Option<real> {
    Numbers.Percent(e.storeCount as real, s.totalStores as real)
  }

  /** `(item.redemption / totalRedemption) * 100` */
  function RedemptionShare(s: Summary, e: ChartEntry): Option<real> {
    Numbers.Percent(e.redemption, s.totalRedemption)
  }

  /** The SNAP and fresh-produce shares are undefined (NaN) exactly when there are no stores,
      and otherwise lie between 0% and 100%. */
  lemma {:induction false} FlagSharesInRange(stores: seq<Store>)
    ensures var s := SummaryOf(stores);
      && (SnapShare(s).None? <==> |stores| == 0)
      && (FreshProduceShare(s).None? <==> |stores| == 0)
      && (|stores| > 0 ==> 0.0 <= SnapShare(s).value <= 100.0 && 0.0 <= FreshProduceShare(s).value <= 100.0)
  {
    var s := SummaryOf(stores);
    if |stores| > 0 {
      Numbers.PercentBounds(s.snapAcceptingStores as real, s.totalStores as real);
      Numbers.PercentBounds(s.freshProduceStores as real, s.totalStores as real);
    }
  }

  /** The category store shares always exist (an entry means at least one store) and add up to
      100%. */
  lemma {:induction false} StoreSharesAddUp(stores: seq<Store>)
    ensures var s := SummaryOf(stores);
      && (forall i :: 0 <= i < |s.chartData| ==> StoreShare(s, s.chartData[i]).Some?)
      && (|stores| > 0 ==> Numbers.Sum(Numbers.Shares(StoreCounts(s.chartData), s.totalStores as real)) == 100.0)
  {
    var s := SummaryOf(stores);
    SummaryAddsUp(stores);
    if |stores| > 0 {
      Numbers.SharesOfWholeAddUp(StoreCounts(s.chartData), s.totalStores as real);
    }
  }

  /** The category redemption shares are undefined (NaN) exactly when the total redemption is 0,
      and otherwise add up to 100%. */
  lemma {:induction false} RedemptionSharesAddUp(stores: seq<Store>)
    ensures var s := SummaryOf(stores);
      && (forall i :: 0 <= i < |s.chartData| ==> (RedemptionShare(s, s.chartData[i]).None? <==> s.totalRedemption == 0.0))
      && (s.totalRedemption != 0.0 ==> Numbers.Sum(Numbers.Shares(Redemptions(s.chartData), s.totalRedemption)) == 100.0)
  {
    var s := SummaryOf(stores);
    SummaryAddsUp(stores);
    if s.totalRedemption != 0.0 {
      Numbers.SharesOfWholeAddUp(Redemptions(s.chartData), s.totalRedemption);
    }
  }
}

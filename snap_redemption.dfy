/** `processData` of src/components/SnapRedemptionViz.js: the 2020 SNAP redemption estimates summed
    per retail category, each category's share of the total, largest share first. */
module SnapRedemption {
  import opened StoreRecord
  import opened Grouping
  import DataSummary
  import Sequences
  import Numbers

  /** One card of the view: `{category, value, percentage}`. `value` is `Number(sum.toFixed(2))`;
      `percentage` is the text `((sum / total) * 100).toFixed(2)`, kept here as the number it
      reads back as, with None for the "NaN" (or "Infinity") a zero total produces. */
  datatype Share = Share(category: string, value: real, percentage: Option<real>)

  /** The value `categoryData[category]` holds: the category's redemption sum. */
  function Amount(g: Group): real {
    g.sum
  }

  /** `((value / total) * 100).toFixed(2)` as a number. */
  function Percentage(value: real, total: real): (p: Option<real>)
    ensures p.None? <==> total == 0.0
    ensures p.Some? ==> p.value * 100.0 == Numbers.Cents(value / total * 100.0) as real
    ensures p.Some? ==> value / total * 100.0 - 0.005 <= p.value <= value / total * 100.0 + 0.005
  {
    match Numbers.Percent(value, total)
    case None => None
    case Some(x) => Some(Numbers.Round2(x))
  }

  function Entry(category: string, value: real, total: real): Share {
    Share(category, Numbers.Round2(value), Percentage(value, total))
  }

  /** The entries of `categoryData`, in key order, before the sort. */
  function Entries(gs: seq<Group>, total: real): seq<Share> {
    seq(|gs|, i requires 0 <= i < |gs| => Entry(gs[i].category, gs[i].sum, total))
  }

  /** The order `(a, b) => b.percentage - a.percentage` asks for: largest percentage first. When
      the total is 0 every percentage is "NaN", every comparison gives NaN, which the sort reads
      as "equal". */
  function DescendingKey(s: Share): real {
    match s.percentage
    case Some(p) => -p
    case None => 0.0
  }

  /** What `processData` returns, stated through the group-by of the stores. */
  function ProcessDataOf(stores: seq<Store>): seq<Share> {
    var items := DataSummary.RedemptionItems(stores);
    Sequences.SortBy(Entries(Tally(items), Total(items)), DescendingKey)
  }

  /** A loop turn for a category seen before. `!categoryData[category]` also holds when its sum
      so far is 0; resetting it to 0 then changes nothing. */
  lemma AmountBumped(gs: seq<Group>, dict: map<string, real>, x: Item)
    requires dict == AsMap(gs, Amount) && x.category in dict
    ensures dict[x.category := dict[x.category] + x.amount] == AsMap(Add(gs, x), Amount)
    ensures Categories(Add(gs, x)) == Categories(gs)
  {
    DictionaryLookup(gs, Amount, x.category);
    DictionaryBump(gs, x, Amount);
  }

  /** A loop turn for a new category: created as 0, then increased by the store's amount. */
  lemma AmountCreated(gs: seq<Group>, dict: map<string, real>, x: Item)
    requires dict == AsMap(gs, Amount) && x.category !in dict
    ensures dict[x.category := 0.0 + x.amount] == AsMap(Add(gs, x), Amount)
    ensures Categories(Add(gs, x)) == Categories(gs) + [x.category]
  {
    DictionaryLookup(gs, Amount, x.category);
    DictionaryInsert(gs, x, Amount);
  }

  /** The body of the `forEach` on `categoryData`: set the category to 0 when its entry is
      missing or 0, then add the store's redemption. The dictionary goes on standing for the
      group-by, extended by the store. */
  method SumIn(categoryData: map<string, real>, keys: seq<string>, x: Item, ghost gs: seq<Group>)
      returns (categoryData': map<string, real>, keys': seq<string>)
    requires categoryData == AsMap(gs, Amount) && keys == Categories(gs)
    ensures categoryData' == AsMap(Add(gs, x), Amount) && keys' == Categories(Add(gs, x))
  {
    var category := x.category;
    if category in categoryData {
      AmountBumped(gs, categoryData, x);
    } else {
      AmountCreated(gs, categoryData, x);
    }
    categoryData', keys' := categoryData, keys;
    if category !in categoryData' || categoryData'[category] == 0.0 {
      if category !in categoryData' {
        keys' := keys' + [category];
      }
      categoryData' := categoryData'[category := 0.0];
    }
    categoryData' := categoryData'[category := categoryData'[category] + x.amount];
  }

  /** `processData`: one pass that sums the redemption per category and in total, then the
      entries of the dictionary, rounded and turned into percentages, sorted by percentage. */
  method ProcessData(stores: seq<Store>) returns (data: seq<Share>)
    ensures data == ProcessDataOf(stores)
  {
    var categoryData: map<string, real> := map[];
    var keys: seq<string> := [];  // the object's keys in insertion order
    var total := 0.0;
    var i := 0;
    while i < |stores|
      invariant 0 <= i <= |stores|
      invariant keys == Categories(Tally(DataSummary.RedemptionItems(stores[..i])))
      invariant categoryData == AsMap(Tally(DataSummary.RedemptionItems(stores[..i])), Amount)
      invariant total == Total(DataSummary.RedemptionItems(stores[..i]))
    {
      var store := stores[i];
      var redemption := Redemption(store);
      DataSummary.PrefixStep(stores, i);
      categoryData, keys := SumIn(categoryData, keys, Item(store.category, redemption),
                                  Tally(DataSummary.RedemptionItems(stores[..i])));
      total := total + redemption;
      i := i + 1;
    }
    assert stores[..i] == stores;
    var items := DataSummary.RedemptionItems(stores);
    DictionaryHoldsTally(items, Amount);
    var entries := seq(|keys|, j requires 0 <= j < |keys| => Entry(keys[j], categoryData[keys[j]], total));
    assert entries == Entries(Tally(items), Total(items));
    data := Sequences.SortBy(entries, DescendingKey);
  }

  /** The unrounded sums, in key order. */
  function Amounts(gs: seq<Group>): seq<real> {
    seq(|gs|, i requires 0 <= i < |gs| => gs[i].sum)
  }

  lemma {:induction false} AmountsAddUp(gs: seq<Group>)
    ensures Numbers.Sum(Amounts(gs)) == TotalSum(gs)
    decreases |gs|
  {
    if |gs| > 0 {
      AmountsAddUp(gs[1..]);
      assert Amounts(gs)[1..] == Amounts(gs[1..]);
    }
  }

  /** The unrounded category sums add up to `total`, so, when it is not 0, the unrounded
      percentages add up to 100. */
  lemma {:induction false} PercentagesAddUp(stores: seq<Store>)
    ensures var items := DataSummary.RedemptionItems(stores);
      && Numbers.Sum(Amounts(Tally(items))) == Total(items)
      && (Total(items) != 0.0 ==> Numbers.Sum(Numbers.Shares(Amounts(Tally(items)), Total(items))) == 100.0)
  {
    var items := DataSummary.RedemptionItems(stores);
    TallyTotals(items);
    AmountsAddUp(Tally(items));
    if Total(items) != 0.0 {
      Numbers.SharesOfWholeAddUp(Amounts(Tally(items)), Total(items));
    }
  }

  /** Every card shows its category's redemption sum rounded to cents, and its share of the
      total, rounded, or none when the total is 0. */
  lemma {:induction false} SharesAreCategorySums(stores: seq<Store>)
    ensures var items := DataSummary.RedemptionItems(stores);
      var data := ProcessDataOf(stores);
      forall i :: 0 <= i < |data| ==>
        && data[i].value == Numbers.Round2(SumOf(items, data[i].category))
        && data[i].percentage == Percentage(SumOf(items, data[i].category), Total(items))
  {
    var items := DataSummary.RedemptionItems(stores);
    var gs := Tally(items);
    var entries := Entries(gs, Total(items));
    var data := ProcessDataOf(stores);
    TallyDescribes(items);
    forall i | 0 <= i < |data|
      ensures data[i].value == Numbers.Round2(SumOf(items, data[i].category))
      ensures data[i].percentage == Percentage(SumOf(items, data[i].category), Total(items))
    {
      assert data[i] in multiset(entries);
      var j :| 0 <= j < |entries| && entries[j] == data[i];
      assert gs[j].sum == SumOf(items, gs[j].category);
    }
  }

  function CategoryOf(s: Share): string {
    s.category
  }

  /** No category gets two cards. */
  lemma {:induction false} OneSharePerCategory(stores: seq<Store>)
    ensures var data := ProcessDataOf(stores);
      forall i, j :: 0 <= i < j < |data| ==> data[i].category != data[j].category
  {
    var items := DataSummary.RedemptionItems(stores);
    var gs := Tally(items);
    var entries := Entries(gs, Total(items));
    TallyDescribes(items);
    assert forall i, j :: 0 <= i < j < |entries| ==> CategoryOf(entries[i]) != CategoryOf(entries[j]);
    Sequences.DistinctKeysPermuted(entries, ProcessDataOf(stores), CategoryOf);
  }

  /** Every store's category gets a card. */
  lemma {:induction false} SharesCoverStores(stores: seq<Store>)
    ensures var data := ProcessDataOf(stores);
      forall k :: 0 <= k < |stores| ==> exists i :: 0 <= i < |data| && data[i].category == stores[k].category
  {
    var items := DataSummary.RedemptionItems(stores);
    var gs := Tally(items);
    var entries := Entries(gs, Total(items));
    var data := ProcessDataOf(stores);
    TallyCovers(items);
    DataSummary.RedemptionItemsAt(stores);
    forall k | 0 <= k < |stores|
      ensures exists i :: 0 <= i < |data| && data[i].category == stores[k].category
    {
      var keys := Categories(gs);
      var j :| 0 <= j < |keys| && keys[j] == items[k].category;
      assert entries[j] in multiset(data);
      var i :| 0 <= i < |data| && data[i] == entries[j];
    }
  }

  /** Every card is the category of some store. */
  lemma {:induction false} SharesComeFromStores(stores: seq<Store>)
    ensures var data := ProcessDataOf(stores);
      forall i :: 0 <= i < |data| ==> exists k :: 0 <= k < |stores| && stores[k].category == data[i].category
  {
    var items := DataSummary.RedemptionItems(stores);
    var gs := Tally(items);
    var entries := Entries(gs, Total(items));
    var data := ProcessDataOf(stores);
    TallyCategoriesOccur(items);
    DataSummary.RedemptionItemsAt(stores);
    forall i | 0 <= i < |data|
      ensures exists k :: 0 <= k < |stores| && stores[k].category == data[i].category
    {
      assert data[i] in multiset(entries);
      var j :| 0 <= j < |entries| && entries[j] == data[i];
      var k :| 0 <= k < |items| && items[k].category == gs[j].category;
      assert stores[k].category == items[k].category;
    }
  }

  /** With a non-zero total every card has a percentage, and they come largest first. */
  lemma {:induction false} SharesSortedDescending(stores: seq<Store>)
    ensures var items := DataSummary.RedemptionItems(stores);
      var data := ProcessDataOf(stores);
      Total(items) != 0.0 ==>
        && (forall i :: 0 <= i < |data| ==> data[i].percentage.Some?)
        && (forall i, j :: 0 <= i < j < |data| ==> data[i].percentage.value >= data[j].percentage.value)
  {
    var items := DataSummary.RedemptionItems(stores);
    var entries := Entries(Tally(items), Total(items));
    var data := ProcessDataOf(stores);
    if Total(items) != 0.0 {
      forall i | 0 <= i < |data| ensures data[i].percentage.Some? {
        assert data[i] in multiset(entries);
      }
      forall i, j | 0 <= i < j < |data|
        ensures data[i].percentage.value >= data[j].percentage.value
      {
        assert DescendingKey(data[i]) <= DescendingKey(data[j]);
      }
    }
  }

  /** With a zero total every percentage is "NaN", the comparator always answers NaN, and the
      cards keep the order in which their categories were first seen. */
  lemma {:induction false} ZeroTotalKeepsFirstSeenOrder(stores: seq<Store>)
    ensures var items := DataSummary.RedemptionItems(stores);
      var data := ProcessDataOf(stores);
      Total(items) == 0.0 ==>
        && data == Entries(Tally(items), 0.0)
        && (forall i :: 0 <= i < |data| ==> data[i].percentage.None? && data[i].category == Tally(items)[i].category)
  {
    var items := DataSummary.RedemptionItems(stores);
    var entries := Entries(Tally(items), Total(items));
    if Total(items) == 0.0 {
      Sequences.SortByEqualKeys(entries, DescendingKey);
    }
  }

  /** No more cards than stores, and none exactly when there are no stores. */
  lemma {:induction false} SharesBoundedByStores(stores: seq<Store>)
    ensures |ProcessDataOf(stores)| <= |stores|
    ensures |stores| == 0 <==> ProcessDataOf(stores) == []
  {
    var items := DataSummary.RedemptionItems(stores);
    TallySize(items);
    TallyTotals(items);
  }
}

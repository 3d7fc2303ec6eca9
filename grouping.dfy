/** The group-by-category loop that every summary view runs: a `forEach` over the stores that
    creates a dictionary entry the first time a category is seen and then updates it, followed
    by `Object.entries` on the dictionary. */
module Grouping {

  /** What one element contributes: the key it is grouped under and the amount it adds. */
  datatype Item = Item(category: string, amount: real)

  /** One dictionary entry: how many items had the category and the sum of their amounts. */
  datatype Group = Group(category: string, count: nat, sum: real)

  function IndexOf(gs: seq<Group>, c: string): (i: int)
    ensures -1 <= i < |gs|
    ensures 0 <= i ==> gs[i].category == c
    ensures i < 0 ==> forall j :: 0 <= j < |gs| ==> gs[j].category != c
    decreases |gs|
  {
    if |gs| == 0 then -1
    else if gs[0].category == c then 0
    else
      var k := IndexOf(gs[1..], c);
      if k < 0 then -1 else k + 1
  }

  /** One turn of the loop: bump the entry for `x.category`, or append a new one. */
  function Add(gs: seq<Group>, x: Item): seq<Group> {
    var i := IndexOf(gs, x.category);
    if i < 0 then gs + [Group(x.category, 1, x.amount)]
    else gs[i := Group(x.category, gs[i].count + 1, gs[i].sum + x.amount)]
  }

  /** The dictionary after the loop, in insertion order (the order `Object.entries` lists it). */
  function Tally(items: seq<Item>): seq<Group>
    decreases |items|
  {
    if |items| == 0 then [] else Add(Tally(items[..|items| - 1]), items[|items| - 1])
  }

  // Reference definitions, independent of the loop.

  /** How many items have category `c`. */
  function CountOf(items: seq<Item>, c: string): nat
    decreases |items|
  {
    if |items| == 0 then 0
    else CountOf(items[..|items| - 1], c) + (if items[|items| - 1].category == c then 1 else 0)
  }

  /** The summed amount of the items with category `c`. */
  function SumOf(items: seq<Item>, c: string): real
    decreases |items|
  {
    if |items| == 0 then 0.0
    else SumOf(items[..|items| - 1], c) + (if items[|items| - 1].category == c then items[|items| - 1].amount else 0.0)
  }

  /** The summed amount of all items (the running `total` of the loop). */
  function Total(items: seq<Item>): real
    decreases |items|
  {
    if |items| == 0 then 0.0 else Total(items[..|items| - 1]) + items[|items| - 1].amount
  }

  function TotalCount(gs: seq<Group>): nat
    decreases |gs|
  {
    if |gs| == 0 then 0 else gs[0].count + TotalCount(gs[1..])
  }

  function TotalSum(gs: seq<Group>): real
    decreases |gs|
  {
    if |gs| == 0 then 0.0 else gs[0].sum + TotalSum(gs[1..])
  }

  ghost predicate Distinct(gs: seq<Group>) {
    forall i, j :: 0 <= i < j < |gs| ==> gs[i].category != gs[j].category
  }

  /** `gs` is a group-by of `items`: one entry per category that occurs, no entry twice, each
      with that category's count (at least one) and summed amount. */
  ghost predicate Describes(gs: seq<Group>, items: seq<Item>) {
    && Distinct(gs)
    && (forall i :: 0 <= i < |gs| ==> gs[i].count >= 1)
    && (forall i :: 0 <= i < |gs| ==>
          gs[i].count == CountOf(items, gs[i].category) && gs[i].sum == SumOf(items, gs[i].category))
    && (forall k :: 0 <= k < |items| ==> exists i :: 0 <= i < |gs| && gs[i].category == items[k].category)
  }

  lemma TallySnoc(items: seq<Item>, x: Item)
    ensures Tally(items + [x]) == Add(Tally(items), x)
  {
    assert (items + [x])[..|items|] == items;
  }

  lemma {:induction false} CountOfAbsent(items: seq<Item>, c: string)
    requires forall k :: 0 <= k < |items| ==> items[k].category != c
    ensures CountOf(items, c) == 0 && SumOf(items, c) == 0.0
    decreases |items|
  {
    if |items| > 0 {
      CountOfAbsent(items[..|items| - 1], c);
    }
  }

  lemma {:induction false} CountOfPresent(items: seq<Item>, c: string)
    requires CountOf(items, c) >= 1
    ensures exists k :: 0 <= k < |items| && items[k].category == c
    decreases |items|
  {
    if items[|items| - 1].category != c {
      CountOfPresent(items[..|items| - 1], c);
      var k :| 0 <= k < |items| - 1 && items[..|items| - 1][k].category == c;
      assert items[k].category == c;
    }
  }

  lemma AddDescribes(gs: seq<Group>, items: seq<Item>, x: Item)
    requires Describes(gs, items)
    ensures Describes(Add(gs, x), items + [x])
  {
    if IndexOf(gs, x.category) < 0 {
      AddDescribesNew(gs, items, x);
    } else {
      AddDescribesExisting(gs, items, x);
    }
  }

  /** An item of a new category gets an entry of its own, last. */
  lemma AddDescribesNew(gs: seq<Group>, items: seq<Item>, x: Item)
    requires Describes(gs, items) && IndexOf(gs, x.category) < 0
    ensures Describes(Add(gs, x), items + [x])
  {
    var items' := items + [x];
    assert items'[..|items'| - 1] == items;
    var gs' := Add(gs, x);
    forall k | 0 <= k < |items| ensures items[k].category != x.category {
      var j :| 0 <= j < |gs| && gs[j].category == items[k].category;
    }
    CountOfAbsent(items, x.category);
    forall k | 0 <= k < |items'|
      ensures exists j :: 0 <= j < |gs'| && gs'[j].category == items'[k].category
    {
      if k < |items| {
        var j :| 0 <= j < |gs| && gs[j].category == items[k].category;
        assert gs'[j] == gs[j];
      } else {
        assert gs'[|gs|].category == items'[k].category;
      }
    }
  }

  /** An item of a category seen before bumps that category's entry. */
  lemma AddDescribesExisting(gs: seq<Group>, items: seq<Item>, x: Item)
    requires Describes(gs, items) && IndexOf(gs, x.category) >= 0
    ensures Describes(Add(gs, x), items + [x])
  {
    var items' := items + [x];
    assert items'[..|items'| - 1] == items;
    var i := IndexOf(gs, x.category);
    var gs' := Add(gs, x);
    forall k | 0 <= k < |items'|
      ensures exists j :: 0 <= j < |gs'| && gs'[j].category == items'[k].category
    {
      if k < |items| {
        var j :| 0 <= j < |gs| && gs[j].category == items[k].category;
        assert gs'[j].category == gs[j].category;
      } else {
        assert gs'[i].category == items'[k].category;
      }
    }
  }

  /** The loop computes a group-by: `Tally(items)` describes `items`. */
  lemma {:induction false} TallyDescribes(items: seq<Item>)
    ensures Describes(Tally(items), items)
    decreases |items|
  {
    if |items| > 0 {
      var init := items[..|items| - 1];
      TallyDescribes(init);
      AddDescribes(Tally(init), init, items[|items| - 1]);
      assert init + [items[|items| - 1]] == items;
    }
  }

  lemma {:induction false} TotalsUpdate(gs: seq<Group>, i: nat, g: Group)
    requires i < |gs|
    ensures TotalCount(gs[i := g]) == TotalCount(gs) - gs[i].count + g.count
    ensures TotalSum(gs[i := g]) == TotalSum(gs) - gs[i].sum + g.sum
    decreases |gs|
  {
    if i > 0 {
      TotalsUpdate(gs[1..], i - 1, g);
      assert gs[i := g][1..] == gs[1..][i - 1 := g];
    }
  }

  lemma {:induction false} TotalsAppend(gs: seq<Group>, g: Group)
    ensures TotalCount(gs + [g]) == TotalCount(gs) + g.count
    ensures TotalSum(gs + [g]) == TotalSum(gs) + g.sum
    decreases |gs|
  {
    if |gs| > 0 {
      TotalsAppend(gs[1..], g);
      assert (gs + [g])[1..] == gs[1..] + [g];
    }
  }

  /** The entries' counts add up to the number of items and their sums to the total amount:
      no item is lost or counted twice. */
  lemma {:induction false} TallyTotals(items: seq<Item>)
    ensures TotalCount(Tally(items)) == |items|
    ensures TotalSum(Tally(items)) == Total(items)
    decreases |items|
  {
    if |items| > 0 {
      var init := items[..|items| - 1];
      var x := items[|items| - 1];
      TallyTotals(init);
      var gs := Tally(init);
      var i := IndexOf(gs, x.category);
      if i < 0 {
        TotalsAppend(gs, Group(x.category, 1, x.amount));
      } else {
        TotalsUpdate(gs, i, Group(x.category, gs[i].count + 1, gs[i].sum + x.amount));
      }
    }
  }

  /** There are never more entries than items, and there are none exactly when there are no items. */
  lemma {:induction false} TallySize(items: seq<Item>)
    ensures |Tally(items)| <= |items|
    ensures |Tally(items)| == 0 <==> |items| == 0
    decreases |items|
  {
    if |items| > 0 {
      TallySize(items[..|items| - 1]);
    }
  }

  /** Every entry's category occurs among the items. */
  lemma TallyCategoriesOccur(items: seq<Item>)
    ensures forall i :: 0 <= i < |Tally(items)| ==>
              exists k :: 0 <= k < |items| && items[k].category == Tally(items)[i].category
  {
    var gs := Tally(items);
    TallyDescribes(items);
    forall i | 0 <= i < |gs| ensures exists k :: 0 <= k < |items| && items[k].category == gs[i].category {
      CountOfPresent(items, gs[i].category);
    }
  }

  /** The keys of the dictionary, in insertion order. */
  function Categories(gs: seq<Group>): (keys: seq<string>)
    ensures |keys| == |gs|
    ensures forall j :: 0 <= j < |gs| ==> keys[j] == gs[j].category
  {
    seq(|gs|, j requires 0 <= j < |gs| => gs[j].category)
  }

  /** The dictionary itself, as a JavaScript object whose value for each key is `view` of the
      entry with that key (each loop keeps its own shape of value). Were a key listed twice, the
      first entry would count, as for `IndexOf`. */
  ghost function AsMap<V>(gs: seq<Group>, view: Group -> V): map<string, V>
    decreases |gs|
  {
    if |gs| == 0 then map[] else AsMap(gs[1..], view)[gs[0].category := view(gs[0])]
  }

  /** The dictionary holds exactly the entries' keys, each with its entry. */
  lemma {:induction false} AsMapLookup<V>(gs: seq<Group>, view: Group -> V, c: string)
    ensures c in AsMap(gs, view) <==> IndexOf(gs, c) >= 0
    ensures IndexOf(gs, c) >= 0 ==> AsMap(gs, view)[c] == view(gs[IndexOf(gs, c)])
    decreases |gs|
  {
    if |gs| > 0 && gs[0].category != c {
      AsMapLookup(gs[1..], view, c);
    }
  }

  /** Overwriting the entry of a key overwrites that key's value. */
  lemma {:induction false} AsMapUpdate<V>(gs: seq<Group>, view: Group -> V, i: nat, g: Group)
    requires i < |gs| && IndexOf(gs, g.category) == i
    ensures AsMap(gs[i := g], view) == AsMap(gs, view)[g.category := view(g)]
    decreases |gs|
  {
    if i == 0 {
      assert gs[i := g][1..] == gs[1..];
    } else {
      AsMapUpdate(gs[1..], view, i - 1, g);
      assert gs[i := g][1..] == gs[1..][i - 1 := g];
    }
  }

  /** Appending the entry of a new key adds that key. */
  lemma {:induction false} AsMapAppend<V>(gs: seq<Group>, view: Group -> V, g: Group)
    requires IndexOf(gs, g.category) < 0
    ensures AsMap(gs + [g], view) == AsMap(gs, view)[g.category := view(g)]
    decreases |gs|
  {
    if |gs| == 0 {
      assert (gs + [g])[1..] == [];
    } else {
      AsMapAppend(gs[1..], view, g);
      assert (gs + [g])[1..] == gs[1..] + [g];
    }
  }

  lemma AddExisting(gs: seq<Group>, x: Item)
    requires IndexOf(gs, x.category) >= 0
    ensures var i := IndexOf(gs, x.category);
      Add(gs, x) == gs[i := Group(x.category, gs[i].count + 1, gs[i].sum + x.amount)]
  {
  }

  // One turn of a dictionary-updating loop, in three lemmas: whether the key is present, what a
  // present key's value becomes (it keeps its position), and what a new key gets (the entry of
  // `x` alone, placed last).

  lemma {:induction false} DictionaryLookup<V>(gs: seq<Group>, view: Group -> V, c: string)
    ensures c in AsMap(gs, view) <==> IndexOf(gs, c) >= 0
    ensures IndexOf(gs, c) >= 0 ==> AsMap(gs, view)[c] == view(gs[IndexOf(gs, c)])
  {
    AsMapLookup(gs, view, c);
  }

  lemma {:induction false} DictionaryBump<V>(gs: seq<Group>, x: Item, view: Group -> V)
    requires IndexOf(gs, x.category) >= 0
    ensures var i := IndexOf(gs, x.category);
            AsMap(Add(gs, x), view) == AsMap(gs, view)[x.category := view(Group(x.category, gs[i].count + 1, gs[i].sum + x.amount))]
    ensures Categories(Add(gs, x)) == Categories(gs)
  {
    var i := IndexOf(gs, x.category);
    var g := Group(x.category, gs[i].count + 1, gs[i].sum + x.amount);
    AddExisting(gs, x);
    AsMapUpdate(gs, view, i, g);
    assert Categories(gs[i := g]) == Categories(gs);
  }

  lemma {:induction false} DictionaryInsert<V>(gs: seq<Group>, x: Item, view: Group -> V)
    requires IndexOf(gs, x.category) < 0
    ensures AsMap(Add(gs, x), view) == AsMap(gs, view)[x.category := view(Group(x.category, 1, x.amount))]
    ensures Categories(Add(gs, x)) == Categories(gs) + [x.category]
  {
    var g := Group(x.category, 1, x.amount);
    AsMapAppend(gs, view, g);
    assert Categories(gs + [g]) == Categories(gs) + [x.category];
  }

  /** Adding an item keeps every key and makes the item's category one. */
  lemma {:induction false} CategoriesOfAdd(gs: seq<Group>, x: Item)
    ensures forall c :: c in Categories(gs) ==> c in Categories(Add(gs, x))
    ensures x.category in Categories(Add(gs, x))
  {
    var i := IndexOf(gs, x.category);
    if i < 0 {
      DictionaryInsert(gs, x, (g: Group) => g.count);
    } else {
      DictionaryBump(gs, x, (g: Group) => g.count);
      assert Categories(gs)[i] == x.category;
    }
  }

  /** Every item's category is a key of the dictionary. */
  lemma {:induction false} TallyCovers(items: seq<Item>)
    ensures forall k :: 0 <= k < |items| ==> items[k].category in Categories(Tally(items))
    decreases |items|
  {
    if |items| > 0 {
      var prefix := items[..|items| - 1];
      TallyCovers(prefix);
      CategoriesOfAdd(Tally(prefix), items[|items| - 1]);
      assert forall k :: 0 <= k < |items| - 1 ==> items[k] == prefix[k];
    }
  }

  /** After the loop, listing the dictionary's keys in order gives back every entry of the
      group-by, each with its own value. */
  lemma {:induction false} DictionaryHoldsTally<V>(items: seq<Item>, view: Group -> V)
    ensures forall j :: 0 <= j < |Tally(items)| ==>
              Tally(items)[j].category in AsMap(Tally(items), view)
              && AsMap(Tally(items), view)[Tally(items)[j].category] == view(Tally(items)[j])
  {
    var gs := Tally(items);
    TallyDescribes(items);
    forall j | 0 <= j < |gs|
      ensures gs[j].category in AsMap(gs, view) && AsMap(gs, view)[gs[j].category] == view(gs[j])
    {
      AsMapLookup(gs, view, gs[j].category);
      var k := IndexOf(gs, gs[j].category);
      assert k == j;
    }
  }

  /** The value a counting dictionary holds for a group. */
  function Count(g: Group): nat {
    g.count
  }

  /** A counting loop's turn for a category already counted: its count goes up by one. (A
      count of 0 would be falsy, and the code would set it to 1: the same value.) */
  lemma CountBumped(gs: seq<Group>, dict: map<string, nat>, x: Item)
    requires dict == AsMap(gs, Count) && x.category in dict
    ensures dict[x.category := dict[x.category] + 1] == AsMap(Add(gs, x), Count)
    ensures Categories(Add(gs, x)) == Categories(gs)
  {
    DictionaryLookup(gs, Count, x.category);
    DictionaryBump(gs, x, Count);
  }

  /** A counting loop's turn for a new category: its count is set to 1, and its key goes last. */
  lemma CountCreated(gs: seq<Group>, dict: map<string, nat>, x: Item)
    requires dict == AsMap(gs, Count) && x.category !in dict
    ensures dict[x.category := 1] == AsMap(Add(gs, x), Count)
    ensures Categories(Add(gs, x)) == Categories(gs) + [x.category]
  {
    DictionaryLookup(gs, Count, x.category);
    DictionaryInsert(gs, x, Count);
  }

  /** The sum of the count each element of a chart's data carries (its `value`). */
  function SumValues<T>(data: seq<T>, value: T -> nat): nat
    decreases |data|
  {
    if |data| == 0 then 0 else value(data[0]) + SumValues(data[1..], value)
  }

  /** Chart data that carries the group-by's counts, entry by entry, adds up to their total. */
  lemma {:induction false} SumValuesOfCounts<T>(gs: seq<Group>, data: seq<T>, value: T -> nat)
    requires |data| == |gs|
    requires forall i :: 0 <= i < |gs| ==> value(data[i]) == gs[i].count
    ensures SumValues(data, value) == TotalCount(gs)
    decreases |gs|
  {
    if |gs| > 0 {
      SumValuesOfCounts(gs[1..], data[1..], value);
    }
  }
}

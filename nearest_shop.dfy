/** src/components/NearestShopDistance.js: the shops reachable within a chosen drive time, the ten
    closest first, and the pie chart of their categories. */
module NearestShop {
  import opened StoreRecord
  import opened Grouping
  import Sequences

  /** `haversineDistance(lat1, lon1, lat2, lon2)`, the great-circle distance in kilometres. The
      trigonometry is not part of this model: any function may be supplied. */
  type Haversine = (real, real, real, real) -> real

  /** `averageSpeed`, in km/h. */
  const AverageSpeed: real := 30.0

  /** The drive-time slider: 5 to 600 minutes in steps of 5, starting at 15. */
  const DefaultDriveDuration: int := 15

  predicate ValidDuration(minutes: int) {
    5 <= minutes <= 600 && minutes % 5 == 0
  }

  /** `maxDistance = (driveDuration / 60) * averageSpeed`: how far the car gets, in km. */
  function MaxDistance(driveDuration: int): (km: real)
    ensures km * 2.0 == driveDuration as real
  {
    driveDuration as real / 60.0 * AverageSpeed
  }

  /** A store spread with its `distance`. None stands for NaN: the store's latitude or longitude
      did not parse. */
  datatype Shop = Shop(store: Store, distance: Option<real>)

  /** The distance the effect attaches to a store, from the user's `[longitude, latitude]`. */
  function DistanceTo(haversine: Haversine, user: LngLat, store: Store): Option<real> {
    match Position(store)
    case Some(p) => Some(haversine(user.lat, user.lng, p.lat, p.lng))
    case None => None
  }

  /** `stores.map(store => ({...store, distance: ...}))` */
  function ShopsWithDistance(haversine: Haversine, user: LngLat, stores: seq<Store>): (shops: seq<Shop>)
    ensures |shops| == |stores|
  {
    seq(|stores|, i requires 0 <= i < |stores| => Shop(stores[i], DistanceTo(haversine, user, stores[i])))
  }

  /** `shop => shop.distance <= maxDistance`; a NaN distance fails every comparison. */
  function WithinReach(maxDistance: real): Shop -> bool {
    (shop: Shop) => shop.distance.Some? && shop.distance.value <= maxDistance
  }

  /** The key of `(a, b) => a.distance - b.distance`. Only shops with a distance get sorted. */
  function DistanceKey(shop: Shop): real {
    shop.distance.GetOr(0.0)
  }

  /** The shops within reach, nearest first. */
  function Reachable(haversine: Haversine, user: LngLat, stores: seq<Store>, driveDuration: int): seq<Shop> {
    var shops := ShopsWithDistance(haversine, user, stores);
    Sequences.SortBy(Sequences.Filter(shops, WithinReach(MaxDistance(driveDuration))), DistanceKey)
  }

  /** `filteredShops`: the first ten of them (`.slice(0, 10)`). */
  function NearestShops(haversine: Haversine, user: LngLat, stores: seq<Store>, driveDuration: int): (nearest: seq<Shop>)
    ensures |nearest| <= 10 && |nearest| <= |stores|
    ensures |nearest| == Sequences.Min(10, |Sequences.Filter(ShopsWithDistance(haversine, user, stores), WithinReach(MaxDistance(driveDuration)))|)
    ensures multiset(nearest) <= multiset(Sequences.Filter(ShopsWithDistance(haversine, user, stores), WithinReach(MaxDistance(driveDuration))))
  {
    var reachable := Reachable(haversine, user, stores, driveDuration);
    var n := Sequences.Min(10, |reachable|);
    assert reachable == reachable[..n] + reachable[n..];
    reachable[..n]
  }

  /** Every shop shown is within reach, so has a distance, and is one of the stores, unchanged,
      carrying that store's distance. */
  lemma {:induction false} NearestShopsWithinReach(haversine: Haversine, user: LngLat, stores: seq<Store>, driveDuration: int)
    ensures var nearest := NearestShops(haversine, user, stores, driveDuration);
      forall i :: 0 <= i < |nearest| ==>
        && nearest[i].distance.Some?
        && nearest[i].distance.value <= MaxDistance(driveDuration)
        && nearest[i].store in stores
        && nearest[i].distance == DistanceTo(haversine, user, nearest[i].store)
  {
    var shops := ShopsWithDistance(haversine, user, stores);
    var filtered := Sequences.Filter(shops, WithinReach(MaxDistance(driveDuration)));
    var reachable := Reachable(haversine, user, stores, driveDuration);
    var nearest := NearestShops(haversine, user, stores, driveDuration);
    forall i | 0 <= i < |nearest|
      ensures nearest[i].distance.Some? && nearest[i].distance.value <= MaxDistance(driveDuration)
      ensures nearest[i].store in stores && nearest[i].distance == DistanceTo(haversine, user, nearest[i].store)
    {
      assert nearest[i] == reachable[i];
      assert reachable[i] in multiset(filtered);
      var j :| 0 <= j < |filtered| && filtered[j] == reachable[i];
      var k :| 0 <= k < |shops| && shops[k] == filtered[j];
    }
  }

  /** The shops shown come nearest first. */
  lemma {:induction false} NearestShopsSorted(haversine: Haversine, user: LngLat, stores: seq<Store>, driveDuration: int)
    ensures var nearest := NearestShops(haversine, user, stores, driveDuration);
      forall i, j :: 0 <= i < j < |nearest| ==> DistanceKey(nearest[i]) <= DistanceKey(nearest[j])
  {
    var reachable := Reachable(haversine, user, stores, driveDuration);
    var nearest := NearestShops(haversine, user, stores, driveDuration);
    assert forall i :: 0 <= i < |nearest| ==> nearest[i] == reachable[i];
  }

  /** The top ten are the nearest: a store within reach that is not shown is no nearer than any
      shop that is. */
  lemma {:induction false} NearestShopsAreNearest(haversine: Haversine, user: LngLat, stores: seq<Store>, driveDuration: int)
    ensures var shops := ShopsWithDistance(haversine, user, stores);
      var nearest := NearestShops(haversine, user, stores, driveDuration);
      forall k, i ::
        (&& 0 <= k < |shops| && 0 <= i < |nearest|
         && WithinReach(MaxDistance(driveDuration))(shops[k]) && shops[k] !in nearest)
        ==> DistanceKey(nearest[i]) <= DistanceKey(shops[k])
  {
    var shops := ShopsWithDistance(haversine, user, stores);
    var reach := WithinReach(MaxDistance(driveDuration));
    var filtered := Sequences.Filter(shops, reach);
    var reachable := Reachable(haversine, user, stores, driveDuration);
    var n := Sequences.Min(10, |reachable|);
    var nearest := NearestShops(haversine, user, stores, driveDuration);
    Sequences.SortedPrefixIsSmallest(filtered, DistanceKey, n);
    forall k, i | 0 <= k < |shops| && 0 <= i < |nearest| && reach(shops[k]) && shops[k] !in nearest
      ensures DistanceKey(nearest[i]) <= DistanceKey(shops[k])
    {
      assert shops[k] in filtered;
      assert nearest[i] in nearest;
    }
  }

  /** When ten or fewer shops are within reach, every one of them is shown, as often as it
      occurs among the stores. */
  lemma {:induction false} NearestShopsShowAllWhenFew(haversine: Haversine, user: LngLat, stores: seq<Store>, driveDuration: int)
    ensures var shops := ShopsWithDistance(haversine, user, stores);
      var filtered := Sequences.Filter(shops, WithinReach(MaxDistance(driveDuration)));
      var nearest := NearestShops(haversine, user, stores, driveDuration);
      |filtered| <= 10 ==>
        && multiset(nearest) == multiset(filtered)
        && forall k :: 0 <= k < |shops| && WithinReach(MaxDistance(driveDuration))(shops[k]) ==> shops[k] in nearest
  {
    var shops := ShopsWithDistance(haversine, user, stores);
    var filtered := Sequences.Filter(shops, WithinReach(MaxDistance(driveDuration)));
    var reachable := Reachable(haversine, user, stores, driveDuration);
    var nearest := NearestShops(haversine, user, stores, driveDuration);
    if |filtered| <= 10 {
      assert nearest == reachable;
      forall k | 0 <= k < |shops| && WithinReach(MaxDistance(driveDuration))(shops[k])
        ensures shops[k] in nearest
      {
        assert shops[k] in multiset(filtered);
      }
    }
  }

  /** A longer drive never reaches fewer shops. */
  lemma {:induction false} LongerDriveReachesNoFewer(haversine: Haversine, user: LngLat, stores: seq<Store>, shorter: int, longer: int)
    requires shorter <= longer
    ensures |Reachable(haversine, user, stores, shorter)| <= |Reachable(haversine, user, stores, longer)|
    ensures |NearestShops(haversine, user, stores, shorter)| <= |NearestShops(haversine, user, stores, longer)|
  {
    var shops := ShopsWithDistance(haversine, user, stores);
    Sequences.FilterNarrower(shops, WithinReach(MaxDistance(shorter)), WithinReach(MaxDistance(longer)));
  }

  /** One slice of `categoryData`: `{label, value}`. */
  datatype Slice = Slice(name: string, value: nat)  // `name` is the field `label`

  /** The shops as group-by items: only their categories matter. */
  function ShopItems(shops: seq<Shop>): (items: seq<Item>)
    ensures |items| == |shops|
    ensures forall k :: 0 <= k < |shops| ==> items[k].category == shops[k].store.category
  {
    seq(|shops|, k requires 0 <= k < |shops| => Item(shops[k].store.category, 0.0))
  }

  /** `categoryData` for a list of shops, stated through the group-by of their categories. */
  function CategoryDataOf(shops: seq<Shop>): seq<Slice> {
    var gs := Tally(ShopItems(shops));
    seq(|gs|, i requires 0 <= i < |gs| => Slice(gs[i].category, gs[i].count))
  }

  /** One more shop of a prefix adds its category to the group-by. */
  lemma ShopPrefixStep(shops: seq<Shop>, i: nat)
    requires i < |shops|
    ensures Tally(ShopItems(shops)[..i + 1]) == Add(Tally(ShopItems(shops)[..i]), Item(shops[i].store.category, 0.0))
  {
    var x := Item(shops[i].store.category, 0.0);
    assert ShopItems(shops)[..i + 1] == ShopItems(shops)[..i] + [x];
    TallySnoc(ShopItems(shops)[..i], x);
  }

  /** The body of the `forEach` over `filteredShops`: bump the category's count when it is
      truthy, else set it to 1. The dictionary goes on standing for the group-by, extended by the
      shop. */
  method CountIn(categories: map<string, nat>, keys: seq<string>, x: Item, ghost gs: seq<Group>)
      returns (categories': map<string, nat>, keys': seq<string>)
    requires categories == AsMap(gs, Count) && keys == Categories(gs)
    ensures categories' == AsMap(Add(gs, x), Count) && keys' == Categories(Add(gs, x))
  {
    var category := x.category;
    if category in categories {
      CountBumped(gs, categories, x);
    } else {
      CountCreated(gs, categories, x);
    }
    categories', keys' := categories, keys;
    if category in categories' && categories'[category] > 0 {
      categories' := categories'[category := categories'[category] + 1];
    } else {
      if category !in categories' {
        keys' := keys' + [category];
      }
      categories' := categories'[category := 1];
    }
  }

  /** The `forEach` over `filteredShops` that counts categories, and the `Object.entries` map
      that turns the counts into slices. */
  method CountCategories(shops: seq<Shop>) returns (categoryData: seq<Slice>)
    ensures categoryData == CategoryDataOf(shops)
  {
    var categories: map<string, nat> := map[];
    var keys: seq<string> := [];  // the object's keys in insertion order
    var i := 0;
    while i < |shops|
      invariant 0 <= i <= |shops|
      invariant keys == Categories(Tally(ShopItems(shops)[..i]))
      invariant categories == AsMap(Tally(ShopItems(shops)[..i]), Count)
    {
      ShopPrefixStep(shops, i);
      categories, keys := CountIn(categories, keys, Item(shops[i].store.category, 0.0), Tally(ShopItems(shops)[..i]));
      i := i + 1;
    }
    assert ShopItems(shops)[..i] == ShopItems(shops);
    DictionaryHoldsTally(ShopItems(shops), Count);
    categoryData := seq(|keys|, j requires 0 <= j < |keys| => Slice(keys[j], categories[keys[j]]));
  }

  /** A slice's `value`. */
  function SliceValue(slice: Slice): nat {
    slice.value
  }

  /** The pie has one slice per category shown, none twice, each counting the shops of its
      category, and the slices add up to the number of shops. */
  lemma {:induction false} CategoryDataCountsShops(shops: seq<Shop>)
    ensures var data := CategoryDataOf(shops);
      && SumValues(data, SliceValue) == |shops|
      && (forall i, j :: 0 <= i < j < |data| ==> data[i].name != data[j].name)
      && (forall i :: 0 <= i < |data| ==> data[i].value >= 1 && data[i].value == CountOf(ShopItems(shops), data[i].name))
      && (forall k :: 0 <= k < |shops| ==> shops[k].store.category in NamesOf(data))
  {
    var items := ShopItems(shops);
    TallyTotals(items);
    TallyDescribes(items);
    TallyCovers(items);
    SumValuesOfCounts(Tally(items), CategoryDataOf(shops), SliceValue);
    assert NamesOf(CategoryDataOf(shops)) == Categories(Tally(items));
  }

  function NamesOf(data: seq<Slice>): seq<string> {
    seq(|data|, i requires 0 <= i < |data| => data[i].name)
  }

  /** The component's state. */
  class NearestShopDistanceState {
    var nearestShops: seq<Shop>
    var driveDuration: int
    var categoryData: seq<Slice>

    /** The duration is one the slider offers, at most ten shops are shown, and the pie counts
        the shops shown. */
    ghost predicate Valid()
      reads this
    {
      && ValidDuration(driveDuration)
      && |nearestShops| <= 10
      && categoryData == CategoryDataOf(nearestShops)
    }

    constructor ()
      ensures Valid()
      ensures nearestShops == [] && driveDuration == DefaultDriveDuration && categoryData == []
    {
      nearestShops, driveDuration, categoryData := [], DefaultDriveDuration, [];
    }

    /** The effect, run whenever the location, the stores or the duration changes. Without a
        location or without stores it returns early and leaves everything as it was, including
        shops found for an earlier list. */
    method Refresh(haversine: Haversine, userLocation: Option<LngLat>, stores: seq<Store>)
      requires Valid()
      modifies this
      ensures Valid()
      ensures driveDuration == old(driveDuration)
      ensures userLocation.None? || |stores| == 0 ==>
                nearestShops == old(nearestShops) && categoryData == old(categoryData)
      ensures userLocation.Some? && |stores| > 0 ==>
                nearestShops == NearestShops(haversine, userLocation.value, stores, driveDuration)
    {
      if userLocation.None? || |stores| == 0 {
        return;
      }
      var filteredShops := NearestShops(haversine, userLocation.value, stores, driveDuration);
      nearestShops := filteredShops;
      categoryData := CountCategories(filteredShops);
    }

    /** `handleDriveDurationChange`: the slider's new value replaces the duration; the shops are
        recomputed by the effect that follows. */
    method HandleDriveDurationChange(newValue: int)
      requires Valid() && ValidDuration(newValue)
      modifies this
      ensures Valid()
      ensures driveDuration == newValue
      ensures nearestShops == old(nearestShops) && categoryData == old(categoryData)
    {
      driveDuration := newValue;
    }
  }
}

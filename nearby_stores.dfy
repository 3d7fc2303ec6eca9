/** src/components/NearbyStoresViz.js: the stores within reach of the user, their categories and
    how many of them accept SNAP or sell fresh produce. */
module NearbyStores {
  import opened StoreRecord
  import opened Grouping
  import Sequences
  import Numbers
  import DataSummaryPage

  /** turf's `distance(from, to, { units: 'miles' })` between two `[longitude, latitude]`
      points. The geodesy is not part of this model: any function may be supplied. */
  type TurfDistance = (LngLat, LngLat) -> real

  /** The threshold the filter applies, in miles (the code says 2000; its comment says 20). */
  const ThresholdMiles: real := 2000.0

  /** The store's distance from the user, or None (NaN) when a coordinate did not parse. */
  function DistanceMiles(turf: TurfDistance, user: LngLat, store: Store): Option<real> {
    match Position(store)
    case Some(p) => Some(turf(user, p))
    case None => None
  }

  /** `storeDistance <= 2000`; NaN fails it. */
  function IsNearby(turf: TurfDistance, user: LngLat): Store -> bool {
    (store: Store) => DistanceMiles(turf, user, store).Some? && DistanceMiles(turf, user, store).value <= ThresholdMiles
  }

  /** `stores.filter(...)`: the stores within the threshold. */
  function Nearby(turf: TurfDistance, user: LngLat, stores: seq<Store>): seq<Store> {
    Sequences.Filter(stores, IsNearby(turf, user))
  }

  /** The nearby stores keep the order of the full list, each is within 2000 miles (so has
      parsed coordinates), and every store within 2000 miles is there, as often as it occurs. */
  lemma {:induction false} NearbyIsThresholdFilter(turf: TurfDistance, user: LngLat, stores: seq<Store>)
    ensures Sequences.IsSubsequence(Nearby(turf, user, stores), stores)
    ensures forall s :: s in Nearby(turf, user, stores) ==>
              && s in stores
              && DistanceMiles(turf, user, s).Some?
              && DistanceMiles(turf, user, s).value <= ThresholdMiles
    ensures forall s :: IsNearby(turf, user)(s) ==>
              multiset(Nearby(turf, user, stores))[s] == multiset(stores)[s]
  {
    var r := Nearby(turf, user, stores);
    Sequences.FilterIsSubsequence(stores, IsNearby(turf, user));
    forall s | s in r ensures s in stores && IsNearby(turf, user)(s) {
      var i :| 0 <= i < |r| && r[i] == s;
    }
    forall s | IsNearby(turf, user)(s) ensures multiset(r)[s] == multiset(stores)[s] {
      Sequences.FilterMultiplicity(stores, IsNearby(turf, user), s);
    }
  }

  /** What `navigator.geolocation` reports. */
  datatype Geolocation = Located(position: LngLat) | LocationFailed | Unsupported

  const LocationErrorMessage := "Error getting your location. Please enable location services."
  const UnsupportedMessage := "Geolocation is not supported by your browser."

  /** The component's state. */
  class NearbyStoresState {
    var nearbyStores: seq<Store>
    var loading: bool
    var error: Option<string>

    constructor ()
      ensures nearbyStores == [] && loading && error == None
    {
      nearbyStores, loading, error := [], true, None;
    }

    /** The effect's outcome: a position replaces the nearby stores; a failure or a missing
        geolocation sets the error message and leaves them alone; loading ends either way. */
    method LocationResolved(turf: TurfDistance, stores: seq<Store>, outcome: Geolocation)
      modifies this
      ensures !loading
      ensures outcome.Located? ==>
                nearbyStores == Nearby(turf, outcome.position, stores) && error == old(error)
      ensures outcome.LocationFailed? ==>
                nearbyStores == old(nearbyStores) && error == Some(LocationErrorMessage)
      ensures outcome.Unsupported? ==>
                nearbyStores == old(nearbyStores) && error == Some(UnsupportedMessage)
    {
      match outcome {
        case Located(userLocation) =>
          nearbyStores := Nearby(turf, userLocation, stores);
        case LocationFailed =>
          error := Some(LocationErrorMessage);
        case Unsupported =>
          error := Some(UnsupportedMessage);
      }
      loading := false;
    }
  }

  /** One datum of the pie: `{id, label, value}`; `id` and `label` are both the category. */
  datatype PieDatum = PieDatum(id: string, caption: string, value: nat)  // `caption` is `label`

  /** The stores as group-by items: only their categories matter. */
  function CategoryItems(stores: seq<Store>): (items: seq<Item>)
    ensures |items| == |stores|
    ensures forall k :: 0 <= k < |stores| ==> items[k].category == stores[k].category
  {
    seq(|stores|, k requires 0 <= k < |stores| => Item(stores[k].category, 0.0))
  }

  /** What `getCategoryData` returns, stated through the group-by of the categories. */
  function CategoryDataOf(nearby: seq<Store>): seq<PieDatum> {
    var gs := Tally(CategoryItems(nearby));
    seq(|gs|, i requires 0 <= i < |gs| => PieDatum(gs[i].category, gs[i].category, gs[i].count))
  }

  lemma PrefixStep(stores: seq<Store>, i: nat)
    requires i < |stores|
    ensures Tally(CategoryItems(stores)[..i + 1]) == Add(Tally(CategoryItems(stores)[..i]), Item(stores[i].category, 0.0))
  {
    var x := Item(stores[i].category, 0.0);
    assert CategoryItems(stores)[..i + 1] == CategoryItems(stores)[..i] + [x];
    TallySnoc(CategoryItems(stores)[..i], x);
  }

  /** The body of the `forEach`: `counts[category] = (counts[category] || 0) + 1`. */
  method CountIn(counts: map<string, nat>, keys: seq<string>, x: Item, ghost gs: seq<Group>)
      returns (counts': map<string, nat>, keys': seq<string>)
    requires counts == AsMap(gs, Count) && keys == Categories(gs)
    ensures counts' == AsMap(Add(gs, x), Count) && keys' == Categories(Add(gs, x))
  {
    var category := x.category;
    var current := 0;
    if category in counts {
      CountBumped(gs, counts, x);
      current := counts[category];
    } else {
      CountCreated(gs, counts, x);
    }
    keys' := if category in counts then keys else keys + [category];
    counts' := counts[category := current + 1];
  }

  /** `getCategoryData`: count the nearby stores per category, then list the counts. */
  method GetCategoryData(nearbyStores: seq<Store>) returns (data: seq<PieDatum>)
    ensures data == CategoryDataOf(nearbyStores)
  {
    var counts: map<string, nat> := map[];
    var keys: seq<string> := [];  // the object's keys in insertion order
    var i := 0;
    while i < |nearbyStores|
      invariant 0 <= i <= |nearbyStores|
      invariant keys == Categories(Tally(CategoryItems(nearbyStores)[..i]))
      invariant counts == AsMap(Tally(CategoryItems(nearbyStores)[..i]), Count)
    {
      PrefixStep(nearbyStores, i);
      counts, keys := CountIn(counts, keys, Item(nearbyStores[i].category, 0.0), Tally(CategoryItems(nearbyStores)[..i]));
      i := i + 1;
    }
    assert CategoryItems(nearbyStores)[..i] == CategoryItems(nearbyStores);
    DictionaryHoldsTally(CategoryItems(nearbyStores), Count);
    data := seq(|keys|, j requires 0 <= j < |keys| => PieDatum(keys[j], keys[j], counts[keys[j]]));
  }

  /** A datum's `value`. */
  function DatumValue(datum: PieDatum): nat {
    datum.value
  }

  function IdsOf(data: seq<PieDatum>): seq<string> {
    seq(|data|, i requires 0 <= i < |data| => data[i].id)
  }

  /** One datum per category, none twice, labelled by its category and counting its stores (at
      least one); every nearby store's category is there, and the values add up to the number
      of nearby stores. */
  lemma {:induction false} CategoryDataCountsStores(nearby: seq<Store>)
    ensures var data := CategoryDataOf(nearby);
      && SumValues(data, DatumValue) == |nearby|
      && (forall i, j :: 0 <= i < j < |data| ==> data[i].id != data[j].id)
      && (forall i :: 0 <= i < |data| ==>
            data[i].caption == data[i].id && data[i].value >= 1 && data[i].value == CountOf(CategoryItems(nearby), data[i].id))
      && (forall k :: 0 <= k < |nearby| ==> nearby[k].category in IdsOf(data))
  {
    var items := CategoryItems(nearby);
    TallyTotals(items);
    TallyDescribes(items);
    TallyCovers(items);
    SumValuesOfCounts(Tally(items), CategoryDataOf(nearby), DatumValue);
    assert IdsOf(CategoryDataOf(nearby)) == Categories(Tally(items));
  }

  /** `renderSnapAndProduceStats`: the numbers behind the two cards, the percentages before
      `toFixed(1)`. */
  datatype Stats = Stats(totalStores: nat, snapStores: nat, produceStores: nat,
                         snapPercentage: Option<real>, producePercentage: Option<real>)

  function StatsOf(nearbyStores: seq<Store>): Stats {
    var totalStores := |nearbyStores|;
    var snapStores := DataSummaryPage.SnapAcceptingStores(nearbyStores);
    var produceStores := DataSummaryPage.FreshProduceStores(nearbyStores);
    Stats(totalStores, snapStores, produceStores,
          Numbers.Percent(snapStores as real, totalStores as real),
          Numbers.Percent(produceStores as real, totalStores as real))
  }

  /** Both counts are bounded by the number of nearby stores; the percentages are undefined
      ("NaN%") exactly when there are none, and otherwise lie between 0 and 100. */
  lemma StatsInRange(nearbyStores: seq<Store>)
    ensures var s := StatsOf(nearbyStores);
      && s.snapStores <= s.totalStores && s.produceStores <= s.totalStores
      && (s.snapPercentage.None? <==> s.totalStores == 0)
      && (s.producePercentage.None? <==> s.totalStores == 0)
      && (s.totalStores > 0 ==>
            && 0.0 <= s.snapPercentage.value <= 100.0
            && 0.0 <= s.producePercentage.value <= 100.0)
  {
    var s := StatsOf(nearbyStores);
    if s.totalStores > 0 {
      Numbers.PercentBounds(s.snapStores as real, s.totalStores as real);
      Numbers.PercentBounds(s.produceStores as real, s.totalStores as real);
    }
  }
}

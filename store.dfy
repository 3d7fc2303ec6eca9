/** The store record every view works on: one row of the backend's `find_food` table,
    with the numeric text columns already run through `parseFloat`. */
module StoreRecord {

  datatype Option<T> = None | Some(value: T) {
    function GetOr(default: T): T {
      match this
      case Some(v) => v
      case None => default
    }
  }

  /** A JavaScript value found in a flag column ('SNAP', 'Fresh Produce'). The columns are
      meant to hold booleans, but nothing stops a row from holding a number, a text or null. */
  datatype FieldValue = Bool(b: bool) | Number(n: real) | Text(s: string) | Null

  /** JavaScript truthiness: `if (store['SNAP'])`, `stores.filter(store => store.SNAP)`. */
  predicate IsTruthy(v: FieldValue) {
    match v
    case Bool(b) => b
    case Number(n) => n != 0.0
    case Text(s) => s != ""
    case Null => false
  }

  /** Strict equality with `true`: `store['SNAP'] === true`. */
  predicate IsTrue(v: FieldValue) {
    v == Bool(true)
  }

  /** A position as the code holds it, `[longitude, latitude]`. */
  datatype LngLat = LngLat(lng: real, lat: real)

  /** A store. `None` in a parsed column stands for NaN: `parseFloat` found no number. */
  datatype Store = Store(
    id: int,
    name: string,
    address: string,
    category: string,          // 'Retail Category'
    freshProduce: FieldValue,  // 'Fresh Produce'
    snap: FieldValue,          // 'SNAP'
    redemption: Option<real>,  // parseFloat(store['2020 SNAP Redemption Estimate'])
    latitude: Option<real>,    // parseFloat(store.Latitude)
    longitude: Option<real>)   // parseFloat(store.Longitude)

  /** `parseFloat(store['2020 SNAP Redemption Estimate']) || 0`: NaN (and 0) become 0. */
  function Redemption(s: Store): real {
    s.redemption.GetOr(0.0)
  }

  /** The store's position, or None when either coordinate is NaN. */
  function Position(s: Store): Option<LngLat> {
    if s.latitude.Some? && s.longitude.Some? then Some(LngLat(s.longitude.value, s.latitude.value))
    else None
  }

  predicate AcceptsSnap(s: Store) {
    IsTruthy(s.snap)
  }

  predicate SellsFreshProduce(s: Store) {
    IsTruthy(s.freshProduce)
  }

  predicate DeclinesSnap(s: Store) {
    !IsTruthy(s.snap)
  }

  /** The two flag columns the summaries count. */
  datatype Flag = Snap | FreshProduce

  predicate HasFlag(s: Store, f: Flag) {
    match f
    case Snap => AcceptsSnap(s)
    case FreshProduce => SellsFreshProduce(s)
  }

  /** A counter bumped in a `forEach` for every store whose flag is truthy. */
  function FlagCount(stores: seq<Store>, f: Flag): (n: nat)
    ensures n <= |stores|
    decreases |stores|
  {
    if |stores| == 0 then 0
    else FlagCount(stores[..|stores| - 1], f) + (if HasFlag(stores[|stores| - 1], f) then 1 else 0)
  }

  /** One more store of a prefix bumps the counter exactly when its flag is truthy. */
  lemma FlagCountStep(stores: seq<Store>, i: nat, f: Flag)
    requires i < |stores|
    ensures HasFlag(stores[i], f) ==> FlagCount(stores[..i + 1], f) == FlagCount(stores[..i], f) + 1
    ensures !HasFlag(stores[i], f) ==> FlagCount(stores[..i + 1], f) == FlagCount(stores[..i], f)
  {
    assert stores[..i + 1][..i] == stores[..i];
  }

  /** The `|| 0` fallback: a store adds nothing to a redemption sum exactly when its estimate
      did not parse or parsed to zero, and otherwise adds the parsed value. */
  lemma RedemptionFallback(s: Store)
    ensures Redemption(s) == 0.0 <==> s.redemption.None? || s.redemption.value == 0.0
    ensures s.redemption.Some? ==> Redemption(s) == s.redemption.value
  {
  }

  /** Strict `=== true` implies truthiness, but not the other way round: a text flag such
      as "yes" is truthy and is not `true`. */
  lemma StrictTrueIsNarrowerThanTruthy(v: FieldValue)
    ensures IsTrue(v) ==> IsTruthy(v)
    ensures IsTruthy(Text("yes")) && !IsTrue(Text("yes"))
  {
  }
}

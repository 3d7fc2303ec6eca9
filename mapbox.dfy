/** src/components/MapboxComponent.js: the category styles, the point features handed to the
    clustering index, the Google Maps link, and the map's viewport and popup state. */
module Mapbox {
  import opened StoreRecord

  /** The marker icons of the style table. */
  datatype Icon = GroceryIcon | BasketIcon | StorefrontIcon | StoreIcon | ShopIcon

  datatype CategoryStyle = CategoryStyle(color: string, icon: Icon)

  /** `categoryData`, in key order (the order the legend lists it). */
  const CategoryTable: seq<(string, CategoryStyle)> := [
    ("Grocery Store", CategoryStyle("#4285F4", GroceryIcon)),
    ("Farmers Market", CategoryStyle("#0F9D58", BasketIcon)),
    ("Convenience Store", CategoryStyle("#F4B400", StorefrontIcon)),
    ("Small Store", CategoryStyle("#DB4437", StoreIcon)),
    ("Other", CategoryStyle("#757575", ShopIcon))
  ]

  const OtherStyle: CategoryStyle := CategoryStyle("#757575", ShopIcon)

  /** `table[key]`: the entry stored under `key`, or None (`undefined`). */
  function Lookup(table: seq<(string, CategoryStyle)>, key: string): (r: Option<CategoryStyle>)
    ensures r.Some? <==> exists i :: 0 <= i < |table| && table[i].0 == key
    ensures r.Some? ==> exists i :: 0 <= i < |table| && table[i] == (key, r.value)
    decreases |table|
  {
    if |table| == 0 then None
    else if table[0].0 == key then Some(table[0].1)
    else
      var r := Lookup(table[1..], key);
      assert forall i :: 0 <= i < |table[1..]| ==> table[1..][i] == table[i + 1];
      r
  }

  /** `categoryData[store['Retail Category']] || categoryData["Other"]`: the style of a single
      store's marker. */
  function StyleFor(category: string): CategoryStyle {
    match Lookup(CategoryTable, category)
    case Some(style) => style
    case None => Lookup(CategoryTable, "Other").GetOr(OtherStyle)
  }

  /** `categoryData[clusterCategory]?.color || '#757575'`: the colour of a cluster marker. The
      category is None when the cluster carries none. */
  function ClusterColor(clusterCategory: Option<string>): string {
    var style := if clusterCategory.Some? then Lookup(CategoryTable, clusterCategory.value) else None;
    if style.Some? && style.value.color != "" then style.value.color else "#757575"
  }

  function Keys(table: seq<(string, CategoryStyle)>): seq<string> {
    seq(|table|, i requires 0 <= i < |table| => table[i].0)
  }

  /** The style lookup is total: each of the five categories gets its own entry, and any other
      text gets the "Other" entry. */
  lemma StyleLookupIsTotal(category: string)
    ensures category in Keys(CategoryTable) ==> StyleFor(category) == Lookup(CategoryTable, category).value
    ensures category !in Keys(CategoryTable) ==> StyleFor(category) == OtherStyle
    ensures StyleFor(category) in Styles(CategoryTable)
  {
    CategoryTableShape();
    var r := Lookup(CategoryTable, category);
    if r.Some? {
      var i :| 0 <= i < |CategoryTable| && CategoryTable[i] == (category, r.value);
      assert Keys(CategoryTable)[i] == category;
      assert Styles(CategoryTable)[i] == r.value;
    } else {
      assert forall i :: 0 <= i < |CategoryTable| ==> Keys(CategoryTable)[i] != category;
      assert Styles(CategoryTable)[4] == OtherStyle;
    }
  }

  function Styles(table: seq<(string, CategoryStyle)>): seq<CategoryStyle> {
    seq(|table|, i requires 0 <= i < |table| => table[i].1)
  }

  /** The table has five distinct keys; the "Other" entry is the fallback style. */
  lemma CategoryTableShape()
    ensures Keys(CategoryTable) == ["Grocery Store", "Farmers Market", "Convenience Store", "Small Store", "Other"]
    ensures forall i, j :: 0 <= i < j < |CategoryTable| ==> CategoryTable[i].0 != CategoryTable[j].0
    ensures Lookup(CategoryTable, "Other") == Some(OtherStyle)
  {
    assert CategoryTable[4].0 == "Other";
  }

  /** A cluster takes the colour of its category's entry when there is one, and otherwise the
      same grey as the "Other" entry. */
  lemma ClusterColorFallsBackToOther(clusterCategory: Option<string>)
    ensures clusterCategory.Some? && clusterCategory.value in Keys(CategoryTable) ==>
              ClusterColor(clusterCategory) == StyleFor(clusterCategory.value).color
    ensures clusterCategory.None? || clusterCategory.value !in Keys(CategoryTable) ==>
              ClusterColor(clusterCategory) == OtherStyle.color
  {
    if clusterCategory.Some? {
      StyleLookupIsTotal(clusterCategory.value);
      var r := Lookup(CategoryTable, clusterCategory.value);
      if r.Some? {
        var i :| 0 <= i < |CategoryTable| && CategoryTable[i] == (clusterCategory.value, r.value);
        assert r.value.color != "";
        assert clusterCategory.value in Keys(CategoryTable) by {
          assert Keys(CategoryTable)[i] == clusterCategory.value;
        }
      } else {
        assert clusterCategory.value !in Keys(CategoryTable);
      }
    }
  }

  /** A GeoJSON point feature as built in `generateClusters`. The coordinates are the parsed
      `[Longitude, Latitude]`, each None when it did not parse (NaN). */
  datatype FeatureProperties = FeatureProperties(cluster: bool, storeId: int, category: string)
  datatype Feature = Feature(properties: FeatureProperties, coordinates: seq<Option<real>>)

  function FeatureOf(store: Store): Feature {
    Feature(FeatureProperties(false, store.id, store.category), [store.longitude, store.latitude])
  }

  /** `stores.map(store => ({type: 'Feature', ...}))`: one feature per store, in store order,
      not a cluster, carrying the store's id and category, with the longitude first and the
      latitude second (section 3.1.1 of RFC 7946). */
  function Features(stores: seq<Store>): (features: seq<Feature>)
    ensures |features| == |stores|
    ensures forall i :: 0 <= i < |stores| ==>
              && !features[i].properties.cluster
              && features[i].properties.storeId == stores[i].id
              && features[i].properties.category == stores[i].category
              && |features[i].coordinates| == 2
              && features[i].coordinates[0] == stores[i].longitude
              && features[i].coordinates[1] == stores[i].latitude
  {
    seq(|stores|, i requires 0 <= i < |stores| => FeatureOf(stores[i]))
  }

  /** Position `i` holds the first store with the id. */
  predicate FirstWithId(stores: seq<Store>, i: int, storeId: int) {
    0 <= i < |stores| && stores[i].id == storeId && forall j :: 0 <= j < i ==> stores[j].id != storeId
  }

  /** `stores.find(s => s.id === storeId)`: the first store with that id. */
  function FindStore(stores: seq<Store>, storeId: int): (r: Option<Store>)
    ensures r.Some? ==> exists i :: FirstWithId(stores, i, storeId) && stores[i] == r.value
    ensures r.None? ==> forall i :: 0 <= i < |stores| ==> stores[i].id != storeId
    decreases |stores|
  {
    if |stores| == 0 then None
    else if stores[0].id == storeId then
      assert FirstWithId(stores, 0, storeId);
      Some(stores[0])
    else
      var r := FindStore(stores[1..], storeId);
      assert r.Some? ==> exists i :: FirstWithId(stores, i, storeId) && stores[i] == r.value by {
        if r.Some? {
          var i :| FirstWithId(stores[1..], i, storeId) && stores[1..][i] == r.value;
          forall j | 0 <= j < i + 1 ensures stores[j].id != storeId {
            if j > 0 { assert stores[j] == stores[1..][j - 1]; }
          }
          assert FirstWithId(stores, i + 1, storeId);
        }
      }
      r
  }

  /** A point's marker finds its store again: with distinct ids it is the very store the
      feature was built from. */
  lemma {:induction false} FindStoreRecoversFeature(stores: seq<Store>, i: nat)
    requires i < |stores|
    requires forall j, k :: 0 <= j < k < |stores| ==> stores[j].id != stores[k].id
    ensures FindStore(stores, Features(stores)[i].properties.storeId) == Some(stores[i])
    decreases i
  {
    if i > 0 {
      assert stores[0].id != stores[i].id;
      assert Features(stores[1..])[i - 1] == Features(stores)[i];
      FindStoreRecoversFeature(stores[1..], i - 1);
    }
  }

  /** `new Supercluster({radius: 40, maxZoom: 16, map: props => ({category: props.category})})`.
      `mappedProperties` lists the point properties `map` copies into a cluster's properties:
      only the category, which is what a cluster marker's colour is read from. */
  datatype ClusterOptions = ClusterOptions(radius: int, maxZoom: int, mappedProperties: seq<string>)

  const Options := ClusterOptions(40, 16, ["category"])

  /** `[-180, -85, 180, 85]`: west, south, east, north. */
  const WorldBounds: seq<int> := [-180, -85, 180, 85]

  /** What `generateClusters(stores, zoom)` hands to the index: its options, the points it
      loads, and the box and zoom of the `getClusters` query. The clustering is not modelled. */
  datatype ClusterRequest = ClusterRequest(options: ClusterOptions, points: seq<Feature>, bbox: seq<int>, zoom: real)

  function GenerateClusters(stores: seq<Store>, zoom: real): ClusterRequest {
    ClusterRequest(Options, Features(stores), WorldBounds, zoom)
  }

  const MapsSearchPrefix := "https://www.google.com/maps/search/?api=1&query="

  /** `getGoogleMapsUrl(address)`. `encodeURIComponent` is supplied by the caller. */
  function GoogleMapsUrl(encode: string -> string, address: string): (url: string)
    ensures |url| == |MapsSearchPrefix| + |encode(address)|
  {
    MapsSearchPrefix + encode(address)
  }

  /** The query of a search link, or None when the text is not one. */
  function QueryOf(url: string): Option<string> {
    if |url| >= |MapsSearchPrefix| && url[..|MapsSearchPrefix|] == MapsSearchPrefix
    then Some(url[|MapsSearchPrefix|..])
    else None
  }

  /** Every link is a search link whose query is the encoded address, so addresses with
      different encodings get different links. */
  lemma GoogleMapsUrlRoundTrip(encode: string -> string, address: string, other: string)
    ensures QueryOf(GoogleMapsUrl(encode, address)) == Some(encode(address))
    ensures encode(address) != encode(other) ==> GoogleMapsUrl(encode, address) != GoogleMapsUrl(encode, other)
  {
    var url := GoogleMapsUrl(encode, address);
    assert url[..|MapsSearchPrefix|] == MapsSearchPrefix;
    assert url[|MapsSearchPrefix|..] == encode(address);
    var url' := GoogleMapsUrl(encode, other);
    assert url'[|MapsSearchPrefix|..] == encode(other);
  }

  datatype Viewport = Viewport(latitude: real, longitude: real, zoom: real)

  const InitialViewport := Viewport(39.0, -80.0, 8.0)

  /** The component's state: the viewport and the store whose popup is open. */
  class MapView {
    var viewport: Viewport
    var popupInfo: Option<Store>

    constructor ()
      ensures viewport == InitialViewport && popupInfo == None
    {
      viewport, popupInfo := InitialViewport, None;
    }

    /** The memoised `clusters`: always the whole world at the current zoom. */
    function Clusters(stores: seq<Store>): (request: ClusterRequest)
      reads this
      ensures request.bbox == WorldBounds && request.zoom == viewport.zoom
      ensures |request.points| == |stores|
    {
      GenerateClusters(stores, viewport.zoom)
    }

    /** `onMove`: the map's view state replaces the viewport. */
    method Move(viewState: Viewport)
      modifies this
      ensures viewport == viewState && popupInfo == old(popupInfo)
    {
      viewport := viewState;
    }

    /** A store marker's `onClick`: its store's popup opens. */
    method MarkerClicked(store: Store)
      modifies this
      ensures popupInfo == Some(store) && viewport == old(viewport)
    {
      popupInfo := Some(store);
    }

    /** The popup's `onClose`. */
    method PopupClosed()
      modifies this
      ensures popupInfo == None && viewport == old(viewport)
    {
      popupInfo := None;
    }
  }
}

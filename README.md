# Food-link map: the data logic, in Dafny

The food-link map is a React front end. It loads the `find_food` table of food retailers once:
store name, address, retail category, SNAP and fresh-produce flags, 2020 SNAP redemption
estimate, latitude and longitude. It then shows that list several ways. This project models
what the views compute from the list and proves what they promise:

- the home page's `filterStores` and the selection controls that drive it;
- the `summary` memo of the data-summary views and the percentages they show;
- the per-category redemption cards of `SnapRedemptionViz`;
- the counts and the SNAP pie chart of `DataSummaryPage`;
- the nearest-shop search of `NearestShopDistance`: distance budget, filter, sort, top ten and
  category pie;
- the 2000-mile filter, category pie and SNAP/produce statistics of `NearbyStoresViz`;
- in `MapboxComponent`: the category style table, the point features handed to the clustering
  index, the Google Maps link, and the viewport and popup state.

A store is a `StoreRecord.Store`. A flag column holds any JavaScript value
(`StoreRecord.FieldValue`). This keeps the home page's strict `=== true` apart from the
truthiness tests of the summaries. A numeric text column is the result of `parseFloat`, with
None for NaN.

Every group-by loop builds the same thing: a JavaScript object keyed by category and read back
with `Object.entries`. `Grouping` models that once:

- `Tally` is the list of `(category, count, sum)` entries in insertion order;
- `CountOf` and `SumOf` are independent reference definitions, tied to `Tally` by
  `TallyDescribes`;
- the loop's object is a key list plus a map, `Categories` and `AsMap`.

Each view's loop is a `method` with a `while` loop. A helper method performs the body of the
`forEach`, with the source's own branches. The loop invariant ties the object to the group-by of
the prefix read so far.

src/pages/DataSummary.js holds the same `summary` code as src/components/DataSummary.js, line for
line, so one model (`DataSummary`) serves both. The rows below cite the component. In the page
copy, the memo is at lines 6-42 and the four percentages are at lines 70, 74, 87 and 91.

Percentages are divisions with no zero check in the source. `Numbers.Percent` gives None where
JavaScript would produce NaN or an infinity, and the lemmas say exactly when that happens.
`real` is exact, so the sum identities hold exactly here. The JavaScript doubles only
approximate them.

## Model

| member | source | states |
|---|---|---|
| StoreRecord.RedemptionFallback | src/components/DataSummary.js:15 | `parseFloat(...) \|\| 0` adds nothing exactly when the estimate did not parse or is 0, and otherwise adds the parsed value |
| StoreRecord.StrictTrueIsNarrowerThanTruthy | src/pages/HomePage.js:60-61 | a flag that is `=== true` is truthy, and a truthy text flag is not `=== true` |
| StoreRecord.FlagCountStep | src/components/DataSummary.js:25-26 | one more store bumps a flag counter exactly when its flag is truthy |
| Sequences.Filter | src/pages/HomePage.js:58-62 | `Array.filter`: every kept element satisfies the test and comes from the input, and every input element that satisfies it is kept |
| Sequences.SortBy | src/components/NearestShopDistance.js:42 | the sort returns a permutation of its input ordered by the comparator's key |
| Sequences.SortByEqualKeys | src/components/SnapRedemptionViz.js:40 | when the comparator always answers 0, the order is kept |
| Sequences.SortByIsStable | src/components/NearestShopDistance.js:42 | the sort is stable: the elements that share a key come out in their input order, so among equally distant shops the earlier store goes first |
| Sequences.SortedPrefixIsSmallest | src/components/NearestShopDistance.js:42-43 | after sorting, an element outside the first n has a key at least as large as every element inside |
| Grouping.TallyDescribes | src/components/DataSummary.js:13-22 | the group-by has one entry per category, none twice, each with that category's count (at least 1) and sum |
| Grouping.TallyTotals | src/components/DataSummary.js:21-23 | the entries' counts add up to the number of items and their sums to the running total |
| Grouping.TallySize | src/components/DataSummary.js:29-33 | no more entries than items, and none exactly when there are no items |
| Grouping.TallyCovers | src/components/DataSummary.js:17-19 | every item's category is a key of the object |
| Grouping.TallyCategoriesOccur | src/components/DataSummary.js:17-19 | every key is the category of some item |
| Grouping.DictionaryHoldsTally | src/components/DataSummary.js:29-33 | `Object.entries` on the built object lists each entry of the group-by with its own value, in insertion order |
| Grouping.CountBumped | src/components/NearestShopDistance.js:51-52 | incrementing a key that is already there bumps that entry and keeps the key order |
| Grouping.CountCreated | src/components/NearestShopDistance.js:53-54 | setting a missing key to 1 adds the category's first entry as the last key |
| Numbers.Percent | src/components/DataSummary.js:115 | a percentage is undefined exactly when the denominator is 0, and otherwise times the denominator gives 100 times the part |
| Numbers.PercentBounds | src/components/DataSummary.js:115-123 | a part of a positive whole is between 0% and 100% |
| Numbers.SharesOfWholeAddUp | src/components/DataSummary.js:147-155 | shares of parts that make up the whole add up to exactly 100% |
| Numbers.Round2 | src/components/SnapRedemptionViz.js:37 | `toFixed(2)` read back as a number is a whole number of cents within half a cent of the input |
| Numbers.Round2Monotonic | src/components/SnapRedemptionViz.js:37-40 | rounding to cents never reverses an order |
| HomePage.MatchingIsFilter | src/pages/HomePage.js:58-62 | the filtered list is a subsequence of the stores; every kept store meets each requested condition (exact category, flags `=== true`); every store that meets them all is kept as often as it occurs |
| HomePage.NoConstraintKeepsAll | src/pages/HomePage.js:58-62 | with no category and no flag requested, every store is kept, in order |
| HomePage.MatchingIdempotent | src/pages/HomePage.js:58-63 | filtering the filtered list again with the same specification changes nothing |
| HomePage.StrictFlagDropsTruthyText | src/pages/HomePage.js:61 | a store whose SNAP flag is the text "yes" is truthy but is dropped by the SNAP filter |
| HomePage.HomePageState.constructor | src/pages/HomePage.js:13-16 | both lists start empty, loading, with no error |
| HomePage.HomePageState.FetchCompleted | src/pages/HomePage.js:21-35 | on success both lists become the loaded rows; on failure the message is kept and the lists are unchanged; loading ends either way |
| HomePage.HomePageState.FilterStores | src/pages/HomePage.js:57-64 | the new filtered list depends only on the full list and the specification, and stays a subsequence of the full list |
| SelectionBox.ButtonValue | src/components/SelectionBox.js:41-71 | the buttons hand over only the five non-empty values "Grocery", "Farmers Market", "Small Box", "Convenience" and "Other" |
| SelectionBox.ButtonValuesDistinct | src/components/SelectionBox.js:41-71 | different buttons hand over different values |
| SelectionBox.InitialSpecSelectsAll | src/components/SelectionBox.js:12-14 | the starting specification ('' and two unchecked boxes) restricts nothing and selects every store |
| SelectionBox.ButtonSelectsItsCategory | src/components/SelectionBox.js:16-19 | after a button is chosen, every store shown has exactly that category |
| SelectionBox.SelectionBoxState.constructor | src/components/SelectionBox.js:12-14 | the state starts as category '', fresh produce off, SNAP off |
| SelectionBox.SelectionBoxState.HandleCategoryChange | src/components/SelectionBox.js:16-19 | sets only the category, calls `filterStores` once with the new state, and the page then shows exactly the matching stores |
| SelectionBox.SelectionBoxState.HandleFreshProduceChange | src/components/SelectionBox.js:21-24 | sets only the fresh-produce flag and issues the whole new specification once |
| SelectionBox.SelectionBoxState.HandleSnapChange | src/components/SelectionBox.js:26-29 | sets only the SNAP flag and issues the whole new specification once |
| DataSummary.RedemptionItemsAt | src/components/DataSummary.js:14-15 | each store contributes its category and its parsed redemption, or 0 |
| DataSummary.EntryBumped | src/components/DataSummary.js:21-22 | bumping an existing entry's count and redemption gives the group-by extended by the store |
| DataSummary.EntryCreated | src/components/DataSummary.js:17-22 | creating `{count: 0, redemption: 0}` and then bumping it gives the store's own entry as the last key |
| DataSummary.CountIn | src/components/DataSummary.js:14-22 | one loop turn keeps the object equal to the group-by of the stores read so far |
| DataSummary.Summarize | src/components/DataSummary.js:6-42 | the memo's result is the group-by chart, the total redemption, the number of stores and the two truthy-flag counts |
| DataSummary.EntriesOfTally | src/components/DataSummary.js:29-33 | listing the object's entries gives the chart of the group-by |
| DataSummary.SummaryAddsUp | src/components/DataSummary.js:9-33 | `totalStores` is the number of stores; the chart's counts add up to it and its redemptions to `totalRedemption`; flag counts are at most `totalStores`; no stores give an empty chart |
| DataSummary.ChartEntriesAreCategories | src/components/DataSummary.js:17-33 | no category appears twice; each entry counts the stores of its category (at least 1) and sums their redemption |
| DataSummary.ChartCoversStores | src/components/DataSummary.js:17-19 | every store's category has a chart entry |
| DataSummary.ChartCategoriesOccur | src/components/DataSummary.js:29-33 | every chart entry is the category of some store |
| DataSummary.UnparsedRedemptionAddsNothing | src/components/DataSummary.js:15-23 | a store whose estimate did not parse or is 0 changes neither the total nor any category sum |
| DataSummary.FlagSharesInRange | src/components/DataSummary.js:115-123 | the SNAP and fresh-produce percentages are undefined exactly when there are no stores, and otherwise between 0 and 100 |
| DataSummary.StoreSharesAddUp | src/components/DataSummary.js:147 | every category's store share exists, and the shares add up to 100% |
| DataSummary.RedemptionSharesAddUp | src/components/DataSummary.js:155 | the redemption shares are undefined exactly when the total redemption is 0, and otherwise add up to 100% |
| SnapRedemption.Percentage | src/components/SnapRedemptionViz.js:38 | the percentage is undefined exactly when the total is 0, and otherwise is the share rounded to cents |
| SnapRedemption.AmountBumped | src/components/SnapRedemptionViz.js:26-30 | adding to a key already there (and resetting a 0 to 0) gives the group-by extended by the store |
| SnapRedemption.AmountCreated | src/components/SnapRedemptionViz.js:26-30 | a new key set to 0 and then increased holds the store's amount and goes last |
| SnapRedemption.SumIn | src/components/SnapRedemptionViz.js:23-30 | one loop turn keeps the object equal to the group-by of the stores read so far |
| SnapRedemption.ProcessData | src/components/SnapRedemptionViz.js:18-41 | `processData` returns the entries of the group-by, rounded and as percentages, sorted by percentage |
| SnapRedemption.PercentagesAddUp | src/components/SnapRedemptionViz.js:30-38 | the unrounded category sums add up to `total`, and their percentages to 100 when the total is not 0 |
| SnapRedemption.SharesAreCategorySums | src/components/SnapRedemptionViz.js:34-39 | each card shows its category's redemption sum rounded to cents, and that sum's share of the total |
| SnapRedemption.OneSharePerCategory | src/components/SnapRedemptionViz.js:26-28 | no category gets two cards |
| SnapRedemption.SharesCoverStores | src/components/SnapRedemptionViz.js:22-28 | every store's category gets a card |
| SnapRedemption.SharesComeFromStores | src/components/SnapRedemptionViz.js:34-35 | every card is the category of some store |
| SnapRedemption.SharesSortedDescending | src/components/SnapRedemptionViz.js:40 | with a non-zero total every card has a percentage, largest first |
| SnapRedemption.ZeroTotalKeepsFirstSeenOrder | src/components/SnapRedemptionViz.js:38-40 | with a zero total every percentage is undefined and the cards keep first-seen order |
| SnapRedemption.SharesBoundedByStores | src/components/SnapRedemptionViz.js:22-35 | no more cards than stores, and none exactly when there are no stores |
| DataSummaryPage.SnapAcceptingStores | src/pages/DataSummaryPage.js:8 | the truthy-SNAP count is at most the number of stores |
| DataSummaryPage.FreshProduceStores | src/pages/DataSummaryPage.js:9 | the truthy fresh-produce count is at most the number of stores |
| DataSummaryPage.SlicesAddUp | src/pages/DataSummaryPage.js:11-14 | both pie slices are non-negative; the second counts exactly the stores whose SNAP flag is falsy; together they make up every store |
| DataSummaryPage.AcceptanceRateRange | src/pages/DataSummaryPage.js:58 | the acceptance rate is undefined exactly when there are no stores, and otherwise between 0 and 100 |
| DataSummaryPage.FlagCountIsFilterLength | src/pages/DataSummaryPage.js:8-9 | `filter(...).length` equals the loop counter of the summary |
| DataSummaryPage.CountsAgreeWithSummary | src/pages/DataSummaryPage.js:8-9 | this page's SNAP and fresh-produce counts equal those of the `summary` memo |
| DataSummaryPage.StrictFilterKeepsNoMore | src/pages/DataSummaryPage.js:8 | the home page's strict SNAP filter never keeps more stores than this page counts as accepting SNAP |
| NearestShop.MaxDistance | src/components/NearestShopDistance.js:25-30 | the budget is half a kilometre per minute of driving |
| NearestShop.ShopsWithDistance | src/components/NearestShopDistance.js:32-38 | one shop per store, in order |
| NearestShop.NearestShops | src/components/NearestShopDistance.js:40-43 | exactly ten shops, or all the shops within reach when there are fewer; never more than there are stores; every shop shown is within reach, and none is shown more often than it is within reach |
| NearestShop.NearestShopsShowAllWhenFew | src/components/NearestShopDistance.js:40-43 | when ten or fewer shops are within reach, every one of them is shown, as often as it occurs |
| NearestShop.NearestShopsWithinReach | src/components/NearestShopDistance.js:32-41 | every shop shown has a distance, within the budget, and is an input store unchanged, carrying its own distance |
| NearestShop.NearestShopsSorted | src/components/NearestShopDistance.js:42 | the shops shown come nearest first |
| NearestShop.NearestShopsAreNearest | src/components/NearestShopDistance.js:40-43 | a shop within reach that is not shown is no nearer than any shop that is |
| NearestShop.LongerDriveReachesNoFewer | src/components/NearestShopDistance.js:30-43 | a longer drive never reaches or shows fewer shops |
| NearestShop.ShopPrefixStep | src/components/NearestShopDistance.js:49-50 | one more shop adds its category to the group-by of the shops read so far |
| NearestShop.CountIn | src/components/NearestShopDistance.js:50-55 | one loop turn keeps the object equal to the group-by of the shops read so far |
| NearestShop.CountCategories | src/components/NearestShopDistance.js:48-58 | the pie data is the group-by of the shops' categories in first-seen order |
| NearestShop.CategoryDataCountsShops | src/components/NearestShopDistance.js:48-58 | one slice per category shown, none twice, each counting its shops (at least 1), covering every shop; the values add up to the number of shops |
| NearestShop.NearestShopDistanceState.constructor | src/components/NearestShopDistance.js:22-24 | no shops, a 15-minute drive, an empty pie |
| NearestShop.NearestShopDistanceState.Refresh | src/components/NearestShopDistance.js:27-60 | without a location or without stores nothing changes; otherwise the shops become the top ten within reach and the pie counts them |
| NearestShop.NearestShopDistanceState.HandleDriveDurationChange | src/components/NearestShopDistance.js:62-64 | the slider's value (5 to 600 in steps of 5) replaces the duration and nothing else |
| NearbyStores.NearbyIsThresholdFilter | src/components/NearbyStoresViz.js:20-28 | the nearby stores keep the list order, are within 2000 miles, and include every store within 2000 miles |
| NearbyStores.NearbyStoresState.constructor | src/components/NearbyStoresViz.js:11-13 | no stores, loading, no error |
| NearbyStores.NearbyStoresState.LocationResolved | src/components/NearbyStoresViz.js:15-41 | a position replaces the nearby stores; an error or a missing geolocation sets its message and keeps them; loading ends either way |
| NearbyStores.PrefixStep | src/components/NearbyStoresViz.js:45-46 | one more store adds its category to the group-by of the stores read so far |
| NearbyStores.CountIn | src/components/NearbyStoresViz.js:46-47 | `(counts[category] \|\| 0) + 1` keeps the object equal to the group-by of the stores read so far |
| NearbyStores.GetCategoryData | src/components/NearbyStoresViz.js:43-54 | the pie data is the group-by of the nearby stores' categories |
| NearbyStores.CategoryDataCountsStores | src/components/NearbyStoresViz.js:43-54 | one datum per category, none twice, id and label equal, each counting its stores (at least 1), covering every store; the values add up to the number of nearby stores |
| NearbyStores.StatsInRange | src/components/NearbyStoresViz.js:106-111 | both counts are at most the total; the percentages are undefined exactly when there are no nearby stores, and otherwise between 0 and 100 |
| Mapbox.Lookup | src/components/MapboxComponent.js:15-36 | a key is found exactly when the table has it, with its own entry |
| Mapbox.StyleLookupIsTotal | src/components/MapboxComponent.js:160 | a known category gets its entry and any other text gets the "Other" entry |
| Mapbox.CategoryTableShape | src/components/MapboxComponent.js:15-36 | five distinct keys in legend order, and "Other" holds the fallback style |
| Mapbox.ClusterColorFallsBackToOther | src/components/MapboxComponent.js:129 | a cluster takes its category's colour when there is one, and otherwise the grey of "Other" |
| Mapbox.Features | src/components/MapboxComponent.js:49-60 | one point feature per store, in order, not a cluster, with the store's id and category and `[longitude, latitude]` |
| Mapbox.FindStore | src/components/MapboxComponent.js:159 | `find` returns the first store with the requested id, or nothing when none has it |
| Mapbox.FindStoreRecoversFeature | src/components/MapboxComponent.js:159 | with distinct ids, a point's marker finds the very store the feature was built from |
| Mapbox.GoogleMapsUrl | src/components/MapboxComponent.js:38-40 | the link is the search prefix followed by the encoded address |
| Mapbox.GoogleMapsUrlRoundTrip | src/components/MapboxComponent.js:38-40 | the query is recovered from the link, so different encodings give different links |
| Mapbox.MapView.constructor | src/components/MapboxComponent.js:88-93 | the view starts at latitude 39, longitude -80, zoom 8, with no popup |
| Mapbox.MapView.Clusters | src/components/MapboxComponent.js:96 | the clusters are always asked for the whole world at the current zoom, over one point per store |
| Mapbox.MapView.Move | src/components/MapboxComponent.js:109 | moving the map replaces the viewport and keeps the popup |
| Mapbox.MapView.MarkerClicked | src/components/MapboxComponent.js:167-170 | clicking a store marker opens that store's popup |
| Mapbox.MapView.PopupClosed | src/components/MapboxComponent.js:197 | closing the popup clears it |

## Left out

- The Supabase query, its loading and error rendering, and browser geolocation. These are
  network and platform I/O. Their outcomes are inputs: `HomePage.FetchOutcome` and
  `NearbyStores.Geolocation`, or a user location given as an `Option`.
- `haversineDistance` and turf's `distance`: floating-point trigonometry and a foreign library.
  They are function parameters. A store whose coordinates did not parse gets no distance
  (NaN). A supplied function that itself returns NaN for parsed coordinates is not modelled.
- The Supercluster index, `getClusters` and what they return. Only the options, points, box and
  zoom handed to them are modelled (`Mapbox.GenerateClusters`). The options are the radius, the
  maximum zoom, and the properties the `map` option copies (only the category). Which category
  a cluster of mixed points ends up with is decided inside the index and is not modelled.
  `Mapbox.ClusterColor` takes that category as an input.
- `encodeURIComponent` is a parameter of `Mapbox.GoogleMapsUrl`.
- `parseFloat`'s prefix parsing. A parsed column is an `Option<real>`.
- `toFixed`, `toLocaleString` and the display strings. `Numbers.Round2` models the value of
  `toFixed(2)` where it feeds a comparison.
- The cluster marker's pixel size, and the drive-time and distance texts.
- IEEE double rounding. Sums and quotients are exact reals.
- `Object.entries` lists integer-like keys first, and a category named like an
  `Object.prototype` member (`"constructor"`) reads an inherited value. Neither is modelled:
  keys are listed in insertion order and start absent.
- SnapRedemption.DescendingKey: when the total is 0 but some category sums are not (negative
  estimates that cancel), the percentages are ±Infinity and NaN. The comparator is then
  inconsistent, and the order is the engine's choice. The model keeps first-seen order, which
  is exact only when every sum is 0.
- NearestShop.NearestShopDistanceState.HandleDriveDurationChange: requires a value the slider
  can produce (5 to 600 in steps of 5). The handler itself stores whatever it is given.
- The effect in `NearestShopDistance` re-runs whenever the location, the stores or the duration
  change. `Refresh` is that run. The scheduling by React is not modelled.
- Calling `Refresh` with an empty store list keeps the previous shops, exactly as the source
  does.
- src/components/LeafletComponent.js is not part of this model. Its only logic, the category
  fallback and the Maps link, repeats MapboxComponent.
- src/SimpleTable.js, src/components/DropdownMenu.js and src/App.js are not part of this model.
  They are rendering and routing only.
- JSX rendering, the chart libraries and the commented-out alternative home page.

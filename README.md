# Map page controller, search gateway and settings store of the simple-route client

This project models, in Dafny, the decision logic of the map page of the
`simple-route` example of an interactive trip-planning client, and the small
pieces around it:

- **The map page** (`MapsPage.MapsPage`): the component's transient UI state
  (modal flags, bottom navigation, view height, active place, search-button
  availability, first-load and refreshing-search flags, previous route, map
  view data), its computed values (`fitMapBounds`, `mapHeight`, `zoom`,
  `refreshSearchAvailable`, `supportsDrawingTool`) and every handler that
  updates them. It is a class with a field for each data field that a handler or computed value reads or writes; `defaultZoom`, `bottomNavHeight` and `mapHeightOffset` are constants. Each handler has a
  field-level `modifies` frame, so anything it does not name stays unchanged.
  The store slices the page uses are `AppState.Store` (mode, map settings) and
  `MapsPage.RouteStore` (route data, one-shot modal flags, clean-map flag).
- **The API runner** (`OrsApiRunner`): `PlacesSearch`, which applies a bounding
  box only when both the caller and the settings ask for it. When a restricted
  search finds nothing, it retries exactly once without the box. The module
  also covers `Geocode`, `ReverseGeocode`, the argument merge of `Directions`,
  and the success and failure envelopes of `Directions` and `Isochrones`. The
  openrouteservice client is a function from the request it receives to its
  result. The model records every request, so the number and content of client
  calls are stated and proved.
- **The app-state store module** (`AppState`): state, getters, one mutation per
  field, and `saveSettings`. That action keeps a copy of the settings in the
  store and persists the caller's object without a default, empty or null API
  key. Browser storage is a map.
- **The tile-provider list** (`MapDefinitions.GetProviders`) and **the short
  locale** (`I18nBuilder.GetShortLocale`, proved against a model of
  `String.prototype.split` and its inverse `join`).

JavaScript truthiness is modelled where the code relies on it. A number that may
be `null`/`undefined` is an `Option`, and `||` returns its first truthy operand,
so `0` counts as missing (`Js.Or`, `Js.Truthy`). Settings are JSON-like records
(`Js.Json`).

Three behaviours of the code are easy to misread:

- A map move enables the refresh-search button when that single move exceeds
  500 units. No distance is accumulated across moves.
- `fitMapBounds` treats "no previous route" as "route unchanged". So without a
  previous route the bounds are still not fitted when the view already had
  content, the mode is directions and `alwaysFitBounds` is off.
- No generation token guards against out-of-order responses, and none is
  modelled.

The client method `MapsPageThresholds.PanelAndPanThresholds` shows what a caller can conclude from the page's contracts alone at the guard thresholds: a window height of panel height + 99 keeps the bottom navigation closed and + 101 opens it, a move of 500 does not offer a refresh and 501 does, and a refresh suppresses fitting until new data arrives. A second client method, `MapsPageThresholds.DirectionsEndFirstLoad`, shows that after `directionsToPoint` has written its place into the view, the next data swap ends the first load, even though no earlier data had places.

## Model

| member | source | states |
|---|---|---|
| MapsPage.MapsPage.constructor | example/simple-route/src/pages/maps/maps.js:15-34 | the initial data: modals closed, empty map view data, bottom navigation closed, active place 0, no view height, search button off, first load, no previous route, not refreshing |
| MapsPage.MapsPage.FitMapBounds | example/simple-route/src/pages/maps/maps.js:120-132 | never fits while a search refresh is in flight; otherwise fitting is suppressed iff not first load, route name unchanged (false when there is no previous route), mode directions and `alwaysFitBounds` falsy; in particular it fits on first load |
| MapsPage.MapsPage.MapHeight | example/simple-route/src/pages/maps/maps.js:59-65 | the view height when the bottom navigation is closed; 250 less (panel 310 minus offset 60) when it is open; under the page invariant it is defined exactly when the view height is |
| MapsPage.MapsPage.Zoom | example/simple-route/src/pages/maps/maps.js:84-87 | the stored zoom option when truthy, otherwise the default 12; never 0 |
| MapsPage.MapsPage.RefreshSearchAvailable | example/simple-route/src/pages/maps/maps.js:109-112 | available iff the mode is search and the search button is available |
| MapsPage.MapsPage.SupportsDrawingTool | example/simple-route/src/pages/maps/maps.js:150-157 | true iff the mode is directions or round trip |
| MapsPage.EffectiveZoom | example/simple-route/src/pages/maps/maps.js:349 | the first truthy value among the requested zoom, the stored zoom and the default; never 0 |
| MapsPage.MapsPage.StoreZoomValue | example/simple-route/src/pages/maps/maps.js:347-352 | the store's route data gets exactly that effective zoom and nothing else changes, so the stored zoom is truthy afterwards and the computed zoom equals it |
| MapsPage.MapsPage.ZoomChanged | example/simple-route/src/pages/maps/maps.js:201-204 | stores the effective zoom and makes the search button available |
| MapsPage.MapsPage.DoRefreshSearch | example/simple-route/src/pages/maps/maps.js:211-224 | refreshing is on, the search button off, a refresh signal is emitted; afterwards refresh search is not available and the bounds are not fitted |
| MapsPage.MapsPage.MapCenterMoved | example/simple-route/src/pages/maps/maps.js:230-236 | the search button becomes available iff this one move exceeds 500 (500 does not, 501 does); it is never cleared |
| MapsPage.MapsPage.SetViewHeight | example/simple-route/src/pages/maps/maps.js:240-242 | the view height becomes the window's inner height |
| MapsPage.MapsPage.MarkerClicked | example/simple-route/src/pages/maps/maps.js:263-271 | when the inner height exceeds panel height + 100 in search mode: active place is the clicked place's index, bottom navigation open, view height measured; otherwise the page is unchanged |
| MapsPage.MapsPage.ClosedBottomNav | example/simple-route/src/pages/maps/maps.js:289-292 | the bottom navigation is closed and the view height re-measured |
| MapsPage.MapsPage.SetMapDataAndUpdateMapView | example/simple-route/src/pages/maps/maps.js:305-326 | search button and refreshing off, the map view data is the new data; first load ends iff the previous data had places, and is otherwise unchanged |
| MapsPage.MapsPage.DirectionsToPoint | example/simple-route/src/pages/maps/maps.js:413-420 | clear-map is emitted, then the view data keeps its origin and its places become exactly the one place, in place, so the view holds places |
| MapsPage.MapsPage.SetViewHeightAndBottomNav | example/simple-route/src/pages/maps/maps.js:331-341 | the bottom navigation is open iff it fits in search mode; when opened the active index is kept if truthy and becomes 0 otherwise; the view height is measured either way |
| MapsPage.MapsPage.MapViewDataChanged | example/simple-route/src/pages/maps/maps.js:557-560 | the data-arrival listener: both of the above in order: the data swapped in, the bottom navigation open iff it fits, the active index `|| 0` when it opens and unchanged otherwise, the view height measured, keeping the page invariant |
| MapsPage.MapsPage.LoadRoute | example/simple-route/src/pages/maps/maps.js:358-372 | emits clear-map first; an undecodable route redirects to `Maps` and leaves the route data alone; a decoded route is stored with its effective zoom and announced, with no redirect |
| MapsPage.MapsPage.RouteChange | example/simple-route/src/pages/maps/maps.js:170-174 | the previous route becomes the old current route, then the new route is loaded and the modal state set |
| MapsPage.MapsPage.Created | example/simple-route/src/pages/maps/maps.js:583-585 | loads the route (clear-map first; a redirect to `Maps` when it does not decode, otherwise the route data stored with its effective zoom and announced), sets the modal state from the one-shot flags and measures the view |
| MapsPage.MapsPage.SetModalState | example/simple-route/src/pages/maps/maps.js:529-544 | each modal is open iff its one-shot store flag was set, and that flag is false afterwards |
| MapsPage.MapsPage.ShowAltitudeModal | example/simple-route/src/pages/maps/maps.js:564-566 | the altitude modal is open |
| MapsPage.MapsPage.ShowSettingsModal | example/simple-route/src/pages/maps/maps.js:567-569 | the settings modal is open |
| MapsPage.MapsPage.ShowAboutModal | example/simple-route/src/pages/maps/maps.js:570-572 | the about modal is open |
| MapsPage.MapsPage.CloseAltitudeModal | example/simple-route/src/pages/maps/maps.js:484-486 | the altitude modal is closed |
| MapsPage.MapsPage.CloseSettingsModal | example/simple-route/src/pages/maps/maps.js:493-499 | the settings modal is closed; the map is cleaned and `Maps` pushed only on the `MapSettings` route, otherwise the store and navigation are untouched |
| MapsPage.MapsPage.CloseAboutModal | example/simple-route/src/pages/maps/maps.js:506-512 | the about modal is closed; the map is cleaned and `Maps` pushed only on the `MapAbout` route |
| OrsApiRunner.PlacesSearch | example/simple-route/src/support/ors-api-runner.js:108-139 | one or two client calls; the first, built from the settings read at its start, has the term, size = quantity and a bounding box iff both `restrictArea` and `prioritizeSearchingForNearbyPlaces`; a second call happens iff the first was restricted and returned no features, and it is unrestricted with the same term and quantity and built from the settings as read again when the retry starts; the result is the last response's places, or its rejection unchanged |
| OrsApiRunner.PlacesSearchIsTwoPhase | example/simple-route/src/support/ors-api-runner.js:111-133 | the recursive search equals an explicit two-phase reference policy (bounded attempt, then at most one unbounded attempt with the settings read for it) on every input |
| OrsApiRunner.SearchRequestsKeepQuantity | example/simple-route/src/support/ors-api-runner.js:111-118 | the first request goes to the geocode-search client of the first settings read and the retry to that of the retry's read, with the term and size = quantity, and none is restricted unless both flags are set |
| OrsApiRunner.SearchFailurePropagates | example/simple-route/src/support/ors-api-runner.js:135-137 | a rejected first attempt is the caller's rejection, unchanged, after one call |
| OrsApiRunner.UnrestrictedSearchDoesNotRetry | example/simple-route/src/support/ors-api-runner.js:125-134 | an unrestricted search makes one call and resolves to its places even when empty |
| OrsApiRunner.Geocode | example/simple-route/src/support/ors-api-runner.js:52-69 | one autocomplete call with the term and size (default 10), to which no restrict flag is passed (recorded as false); resolves to its places or rejects with its error unchanged |
| OrsApiRunner.ReverseGeocode | example/simple-route/src/support/ors-api-runner.js:78-96 | one reverse call at (lat, lng) with size (default 10); resolves to its places or rejects with its error unchanged |
| OrsApiRunner.MergeArgs | example/simple-route/src/support/ors-api-runner.js:31-34 | custom keys override, all other built keys are kept, the keys are the union; with no custom args the args are exactly the built ones |
| OrsApiRunner.Directions | example/simple-route/src/support/ors-api-runner.js:22-44 | succeeds iff the client call does, resolving to `{origin: directions, apiVersion, content: response}`; otherwise rejects with `{response: err, args}` where args are exactly those sent |
| OrsApiRunner.DirectionsWithoutCustomArgs | example/simple-route/src/support/ors-api-runner.js:31-34 | without custom args a failure reports exactly the built routing args |
| OrsApiRunner.Isochrones | example/simple-route/src/support/ors-api-runner.js:155-173 | succeeds iff the client call does, resolving to `{origin: isochrones, apiVersion, content}`; otherwise rejects with the error and the built args |
| AppState.Store.constructor | example/simple-route/src/store/modules/app-state.js:5-12 | mode is place; `apiDataRequested`, `dataAcquired`, `embed`, `acessibleModeActive` are false; settings hold only `shownOnceTooltips` |
| AppState.Store.CommitMode | example/simple-route/src/store/modules/app-state.js:36-38 | sets the mode and nothing else; the getter returns it |
| AppState.Store.CommitApiDataRequested | example/simple-route/src/store/modules/app-state.js:39-41 | sets `apiDataRequested` and nothing else; the getter returns it |
| AppState.Store.CommitDataAcquired | example/simple-route/src/store/modules/app-state.js:42-44 | sets `dataAcquired` and nothing else; the getter returns it |
| AppState.Store.CommitMapSettings | example/simple-route/src/store/modules/app-state.js:45-47 | sets `mapSettings` and nothing else; the getter returns it |
| AppState.Store.CommitEmbed | example/simple-route/src/store/modules/app-state.js:48-50 | sets `embed` and nothing else; the getter returns it |
| AppState.Store.CommitAcessibleModeActive | example/simple-route/src/store/modules/app-state.js:51-53 | sets `acessibleModeActive` and nothing else; the getter returns it |
| AppState.PersistedSettings | example/simple-route/src/store/modules/app-state.js:65-69 | the persisted record has no `apiKey` iff the settings had none or it equals the default, `''` or `null`; otherwise it keeps the supplied key; every other key agrees with the settings |
| AppState.PersistedSettingsIdempotent | example/simple-route/src/store/modules/app-state.js:65-67 | persisting the persisted record again changes nothing |
| AppState.KeptSettingsRecoverable | example/simple-route/src/store/modules/app-state.js:62-69 | the in-store copy is the persisted record with the supplied `apiKey` put back |
| AppState.Store.SaveSettings | example/simple-route/src/store/modules/app-state.js:57-72 | resolves with a copy of the caller's settings taken first; the store's settings become that copy and nothing else in the store changes; the caller's object loses `apiKey` exactly in the default/empty/null case; storage holds exactly that record under `mapSettings` |
| MapDefinitions.EffectiveDefault | example/vue-app/src/fragments/map-view/map-definitions.js:96 | a missing or empty `defaultTileProvider` is `'osm'`; any other value is kept |
| MapDefinitions.GetProviders | example/vue-app/src/fragments/map-view/map-definitions.js:95-130 | OpenStreetMap then satellite imagery, each entry given whole (name, id, attribution, url, no token), plus a third `Custom` entry with the setting's URL, its fixed attribution and neither id nor token iff the custom URL is truthy; an entry is visible iff the effective default equals its id (`'custom'` for the custom entry) |
| MapDefinitions.AtMostOneVisible | example/vue-app/src/fragments/map-view/map-definitions.js:101-122 | two visible entries are the same entry |
| MapDefinitions.UnknownDefaultHidesAll | example/vue-app/src/fragments/map-view/map-definitions.js:101-122 | a default naming no entry leaves every entry hidden |
| MapDefinitions.MissingDefaultShowsOsm | example/vue-app/src/fragments/map-view/map-definitions.js:96-122 | with no default, OpenStreetMap is the only visible entry |
| I18nBuilder.Split | example/vue-app/src/i18n/i18n-builder.js:22 | at least one piece, none containing the separator; the first piece is a prefix of the string that is either all of it or followed by the separator |
| I18nBuilder.JoinSplit | example/vue-app/src/i18n/i18n-builder.js:22 | joining the pieces of a split with the separator gives the string back |
| I18nBuilder.SplitJoin | example/vue-app/src/i18n/i18n-builder.js:22 | splitting a join of separator-free pieces gives the pieces back |
| I18nBuilder.GetShortLocale | example/vue-app/src/i18n/i18n-builder.js:21-24 | a `-`-free prefix of the locale that is the whole locale or is followed by `-`: the text before the first `-` |
| I18nBuilder.ShortLocaleUnique | example/vue-app/src/i18n/i18n-builder.js:22 | those three properties determine the result |
| I18nBuilder.ShortLocaleWithoutDash | example/vue-app/src/i18n/i18n-builder.js:22 | a locale without `-` is returned unchanged |
| I18nBuilder.ShippedLocales | example/vue-app/src/i18n/i18n-builder.js:22 | `en-us`, `de-de`, `pt-br` give `en`, `de`, `pt`; a locale starting with `-` gives `''` |

## Left out

- Event-bus emissions that only pass data through (`removePlace`, `directChanged`, `markerDragged`, `directionsFromPoint`, `addRouteStop`, `addDestinationToRoute`, `addAsIsochroneCenter`, `avoidPolygonsChanged`, `placeFocusChanged`, `titleChanged`, `directionsToPoint`): they carry no logic. `setInputPlace` is left out too; it has one guard and emits only when `data.pickPlaceIndex !== null`. Only the clear-map, route-data-changed and refresh-search signals are recorded.
- Timers: the 100 ms debounce of `refreshViewSizeAfterTouchMode` is scheduling, and `SetViewHeight` is the action it finally runs.
- MapsPage.MapsPage.DirectionsToPoint: the 100 ms delay between the clear-map emission and the write of the place is collapsed into one call, so handlers that run during that delay are not interleaved. The write itself is modelled, including its effect on the first load.
- The DOM: `window.innerHeight` is a parameter of each handler that reads it, and the `touchmove` listener is not modelled.
- Data fields that no modelled logic reads: `mapViewGuid`, `myLocation`, `simpleMapSearcHeight` and `touchmoveDebounceTimeoutId` (the last belongs to the left-out debounce).
- MapsPage.MapsPage.Created: does not model the store commits `setDisplayFooter(false)` and `setLeftSideBarIsOpen(false)`, because footer and side-bar visibility are layout state of the app shell outside this model, nor the `titleChanged` emission and the listener registrations.
- The router and the rest of the component lifecycle: `beforeRouteUpdate`, `gotToPlace` and `$router.push` are not modelled. A redirect is recorded in `navigations`, and the current route is the field `route`.
- `AppMode.decodePath` and `place.findIndex` are function parameters. `AppMode.getRoute`, `RouteUtils`, the routes resolver, `OrsParamsParser` and `Place.placesFromFeatures` are not part of this model. `MapViewData` is modelled only by its places and its data origin. Of the constants module only `modes` and `dataOrigins` are modelled, as the closed enumerations `Mode` and `DataOrigin`; `apiVersion` is a parameter. The argument builders are function parameters. Geocoding arguments record only what was handed to the builder and the `size` set on the result. `Geocode` passes no restrict flag to `buildAutocompleteArgs`, and the model records that as `false`, since what the builder does with a missing flag is not visible.
- Computed values without decision logic: `simpleSearchIsVisible`, `accessibilityButtomHeight` (CSS string formatting), `showBottomNav`, `bottomNavTop` and `mapViewCenter`. Also `orsMapCreated`.
- `toggleAcessibleMode`: flips `acessibleModeActive` on the store's own `mapSettings` object in place, then dispatches `saveSettings` with that object. It is not modelled. The save it triggers is `AppState.Store.SaveSettings`, but the in-place flip through an alias of the store's settings object is not modelled.
- The openrouteservice client's HTTP transport and promise plumbing. `Pois` only constructs a client, and so does `ClientFor`.
- `JSON.stringify`: storage holds the record itself. `utils.clone` is a value copy. Both are opaque helpers whose details are not visible.
- Object identity: map view data and route data are values, so "swapped by reference" is modelled as replacement by an equal value.
- `polylineMeasureOptions`, `drawOptions` and the example configuration file are constant literals. `i18n.build` wraps a translation library.
- Zoom and map distances are reals and view heights are integers. NaN, which JavaScript also treats as falsy, is not modelled.
- `Mode` is a closed enumeration. The JavaScript mutation accepts any value.

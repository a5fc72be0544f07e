/**
 * The map page of the simple-route example: the component's transient UI
 * state (modal flags, bottom navigation, view height, refresh-search
 * availability, first-load and refreshing-search flags, previous route, the
 * map view data), the values derived from it, and the handlers that update it.
 *
 * The page reads the mode and the map settings from the app-state store
 * (`AppState.Store`) and reads and writes the route data and the one-shot
 * modal flags of the rest of the store (`RouteStore`). The current route
 * stands in for `this.$route`; a redirect is recorded in `navigations`; the
 * window's inner height is a parameter; route decoding and `place.findIndex`
 * are function parameters.
 */
module MapsPage {
  import opened Wrappers
  import opened Js
  import opened Constants
  import AppState

  datatype Place = Place(lat: real, lng: real, placeName: string)

  /** The payload rendered by the map view. */
  datatype MapViewData = MapViewData(places: seq<Place>, origin: Option<DataOrigin>) {
    predicate HasPlaces() {
      |places| > 0
    }
  }

  const EmptyMapViewData := MapViewData([], None)

  /** The route's options; `center` is carried for the map view's centre, which this model does not render. */
  datatype RouteOptions = RouteOptions(zoom: Option<real>, center: Option<Place>)

  /** The decoded route: its places and its options. */
  datatype AppRouteData = AppRouteData(places: seq<Place>, options: RouteOptions)

  /** The router's current route; `fullPath` is what the left-out route-update guard compares. */
  datatype Route = Route(name: string, fullPath: string)

  /** Event-bus signals the page's handlers emit. */
  datatype Signal = ClearMap | AppRouteDataChanged(data: AppRouteData) | RefreshSearch

  /** The route data `appRouteData` with its zoom option replaced. */
  function WithZoom(data: AppRouteData, zoom: real): AppRouteData {
    data.(options := data.options.(zoom := Some(zoom)))
  }

  /**
   * `zoom || appRouteData.options.zoom || defaultZoom`: the first truthy value
   * among the requested zoom, the stored one and the default.
   */
  function EffectiveZoom(requested: Option<real>, stored: Option<real>, defaultZoom: real): (zoom: real)
    requires defaultZoom != 0.0
    ensures zoom != 0.0
    ensures Truthy(requested, 0.0) ==> zoom == requested.value
    ensures !Truthy(requested, 0.0) && Truthy(stored, 0.0) ==> zoom == stored.value
    ensures !Truthy(requested, 0.0) && !Truthy(stored, 0.0) ==> zoom == defaultZoom
  {
    Or(Or(requested, stored, 0.0), Some(defaultZoom), 0.0).value
  }

  /** The store's route data, the one-shot modal flags and the clean-map flag. */
  class RouteStore {
    var appRouteData: AppRouteData
    var openSettings: bool
    var openAbout: bool
    var cleanMap: bool

    constructor (appRouteData: AppRouteData, openSettings: bool, openAbout: bool)
      ensures this.appRouteData == appRouteData
      ensures this.openSettings == openSettings && this.openAbout == openAbout
      ensures !cleanMap
    {
      this.appRouteData := appRouteData;
      this.openSettings := openSettings;
      this.openAbout := openAbout;
      cleanMap := false;
    }
  }

  class MapsPage {
    const appState: AppState.Store
    const routeStore: RouteStore

    const defaultZoom: real := 12.0
    const bottomNavHeight: int := 310
    const mapHeightOffset: int := 60

    var isAltitudeModalOpen: bool
    var isSettingsOpen: bool
    var isAboutOpen: bool
    var mapViewData: MapViewData
    var bottomNavActive: bool
    var activeplaceIndex: Option<int>
    var viewHeight: Option<int>
    var searchBtnAvailable: bool
    var firstLoad: bool
    var previousRoute: Option<Route>
    var refreshingSearch: bool

    /** `this.$route`. */
    var route: Route
    /** The route names pushed to the router, oldest first. */
    var navigations: seq<string>
    /** The signals emitted on the event bus, oldest first. */
    var emitted: seq<Signal>

    /** The bottom navigation is never open without a measured view height. */
    ghost predicate Valid()
      reads this
    {
      bottomNavActive ==> viewHeight.Some?
    }

    /** The component's initial data. */
    constructor (appState: AppState.Store, routeStore: RouteStore, route: Route)
      ensures this.appState == appState && this.routeStore == routeStore && this.route == route
      ensures !isAltitudeModalOpen && !isSettingsOpen && !isAboutOpen
      ensures mapViewData == EmptyMapViewData && !bottomNavActive
      ensures activeplaceIndex == Some(0) && viewHeight == None
      ensures !searchBtnAvailable && firstLoad && previousRoute == None && !refreshingSearch
      ensures navigations == [] && emitted == []
      ensures Valid()
    {
      this.appState := appState;
      this.routeStore := routeStore;
      this.route := route;
      isAltitudeModalOpen := false;
      isSettingsOpen := false;
      isAboutOpen := false;
      mapViewData := EmptyMapViewData;
      bottomNavActive := false;
      activeplaceIndex := Some(0);
      viewHeight := None;
      searchBtnAvailable := false;
      firstLoad := true;
      previousRoute := None;
      refreshingSearch := false;
      navigations := [];
      emitted := [];
    }

    // Derived values (the component's computed properties)

    /** The route name differs from the previous route's; false when there is no previous route. */
    predicate RouteChanged()
      reads this
    {
      previousRoute.Some? && previousRoute.value.name != route.name
    }

    /** `mapSettings.alwaysFitBounds`, read with JavaScript truthiness. */
    predicate AlwaysFitBounds()
      reads this, appState
    {
      JsonTruthy(Lookup(appState.mapSettings, "alwaysFitBounds"))
    }

    /**
     * `fitMapBounds`: never while a search refresh is in flight; otherwise
     * suppressed exactly when the view already held content, the route name
     * did not change, the mode is directions and the settings do not force
     * fitting.
     */
    function FitMapBounds(): (fit: bool)
      reads this, appState
      ensures refreshingSearch ==> !fit
      ensures !refreshingSearch ==>
        (!fit <==> !firstLoad && !RouteChanged() && appState.mode == DirectionsMode && !AlwaysFitBounds())
      ensures !refreshingSearch && (firstLoad || RouteChanged() || appState.mode != DirectionsMode) ==> fit
    {
      var fit := !refreshingSearch;
      if !firstLoad && !RouteChanged() && appState.mode == DirectionsMode && !AlwaysFitBounds()
      then false
      else fit
    }

    /** `mapHeight`: the view height, less the part the open bottom navigation covers. */
    function MapHeight(): (height: Option<int>)
      reads this
      ensures !bottomNavActive ==> height == viewHeight
      ensures bottomNavActive ==> height.Some?
      ensures bottomNavActive && viewHeight.Some? ==> height.value == viewHeight.value - 250
      ensures Valid() ==> (height.Some? <==> viewHeight.Some?)
    {
      if bottomNavActive then Some(NumberValue(viewHeight) - bottomNavHeight + mapHeightOffset)
      else viewHeight
    }

    /** `zoom`: the stored zoom option when truthy, else the default zoom; never 0. */
    function Zoom(): (zoom: real)
      reads this, routeStore
      ensures zoom != 0.0
      ensures Truthy(routeStore.appRouteData.options.zoom, 0.0) ==> zoom == routeStore.appRouteData.options.zoom.value
      ensures !Truthy(routeStore.appRouteData.options.zoom, 0.0) ==> zoom == defaultZoom
    {
      Or(routeStore.appRouteData.options.zoom, Some(defaultZoom), 0.0).value
    }

    /** `refreshSearchAvailable`: only in search mode, and only once the search button was made available. */
    function RefreshSearchAvailable(): (available: bool)
      reads this, appState
      ensures available ==> appState.mode == SearchMode && searchBtnAvailable
      ensures appState.mode == SearchMode && searchBtnAvailable ==> available
    {
      appState.mode == SearchMode && searchBtnAvailable
    }

    /** `supportsDrawingTool`: the modes that plan routes, directions and round trip. */
    function SupportsDrawingTool(): (supported: bool)
      reads this, appState
      ensures supported <==> appState.mode in {DirectionsMode, RoundTripMode}
    {
      appState.mode in {DirectionsMode, RoundTripMode}
    }

    /** Room for the bottom navigation and 100 more units of map, in search mode. */
    predicate BottomNavFits(innerHeight: int)
      reads this, appState
    {
      innerHeight > bottomNavHeight + 100 && appState.mode == SearchMode
    }

    // Handlers

    /** `storeZoomValue(zoom = null)`: stores the first truthy of the given, the stored and the default zoom. */
    method StoreZoomValue(zoom: Option<real> := None)
      modifies routeStore`appRouteData
      ensures routeStore.appRouteData ==
        WithZoom(old(routeStore.appRouteData), EffectiveZoom(zoom, old(routeStore.appRouteData.options.zoom), defaultZoom))
      ensures Truthy(routeStore.appRouteData.options.zoom, 0.0)
      ensures Zoom() == routeStore.appRouteData.options.zoom.value
    {
      var appRouteData := routeStore.appRouteData;
      routeStore.appRouteData := WithZoom(appRouteData, EffectiveZoom(zoom, appRouteData.options.zoom, defaultZoom));
    }

    /** `zoomChanged(newZoomLevel)`: stores the zoom and makes the search button available. */
    method ZoomChanged(newZoomLevel: Option<real>)
      modifies this`searchBtnAvailable, routeStore`appRouteData
      ensures searchBtnAvailable
      ensures routeStore.appRouteData ==
        WithZoom(old(routeStore.appRouteData), EffectiveZoom(newZoomLevel, old(routeStore.appRouteData.options.zoom), defaultZoom))
    {
      StoreZoomValue(newZoomLevel);
      searchBtnAvailable := true;
    }

    /** `refreshSearch()`: a refresh is in flight, so neither the button nor fitting is on offer. */
    method DoRefreshSearch()
      modifies this`refreshingSearch, this`searchBtnAvailable, this`emitted
      ensures refreshingSearch && !searchBtnAvailable
      ensures emitted == old(emitted) + [RefreshSearch]
      ensures !RefreshSearchAvailable() && !FitMapBounds()
    {
      refreshingSearch := true;
      searchBtnAvailable := false;
      emitted := emitted + [RefreshSearch];
    }

    /** `mapCenterMoved(data)`: a single move of more than 500 units makes the button available. */
    method MapCenterMoved(distance: real)
      modifies this`searchBtnAvailable
      ensures searchBtnAvailable == (old(searchBtnAvailable) || distance > 500.0)
    {
      if distance > 500.0 {
        searchBtnAvailable := true;
      }
    }

    /** `setViewHeight()`. */
    method SetViewHeight(innerHeight: int)
      modifies this`viewHeight
      ensures viewHeight == Some(innerHeight)
      ensures Valid()
    {
      viewHeight := Some(innerHeight);
    }

    /** `markerClicked(place)`: opens the bottom navigation on the place, when it fits and in search mode. */
    method MarkerClicked(place: Place, findIndex: (Place, seq<Place>) -> int, innerHeight: int)
      requires Valid()
      modifies this`activeplaceIndex, this`bottomNavActive, this`viewHeight
      ensures Valid()
      ensures BottomNavFits(innerHeight) ==>
        activeplaceIndex == Some(findIndex(place, mapViewData.places)) && bottomNavActive && viewHeight == Some(innerHeight)
      ensures !BottomNavFits(innerHeight) ==> unchanged(this)
    {
      if BottomNavFits(innerHeight) {
        var index := findIndex(place, mapViewData.places);
        activeplaceIndex := Some(index);
        bottomNavActive := true;
        SetViewHeight(innerHeight);
      }
    }

    /** `closedBottomNav()`. */
    method ClosedBottomNav(innerHeight: int)
      requires Valid()
      modifies this`bottomNavActive, this`viewHeight
      ensures !bottomNavActive && viewHeight == Some(innerHeight)
      ensures Valid()
    {
      bottomNavActive := false;
      SetViewHeight(innerHeight);
    }

    /**
     * `setMapDataAndUpdateMapView(mapViewData)`: swaps in the new data and ends
     * any refresh cycle; the first load is over once data replaces data that
     * had places.
     */
    method SetMapDataAndUpdateMapView(data: MapViewData)
      modifies this`searchBtnAvailable, this`firstLoad, this`mapViewData, this`refreshingSearch
      ensures !searchBtnAvailable && !refreshingSearch && mapViewData == data
      ensures old(mapViewData).HasPlaces() ==> !firstLoad
      ensures !old(mapViewData).HasPlaces() ==> firstLoad == old(firstLoad)
    {
      searchBtnAvailable := false;
      if mapViewData.HasPlaces() {
        firstLoad := false;
      }
      mapViewData := data;
      refreshingSearch := false;
    }

    /** `setViewHeightAndBottomNav()`: the bottom navigation is open exactly when it fits in search mode. */
    method SetViewHeightAndBottomNav(innerHeight: int)
      requires Valid()
      modifies this`bottomNavActive, this`activeplaceIndex, this`viewHeight
      ensures Valid()
      ensures bottomNavActive == BottomNavFits(innerHeight)
      ensures viewHeight == Some(innerHeight)
      ensures BottomNavFits(innerHeight) ==> activeplaceIndex == Or(old(activeplaceIndex), Some(0), 0)
      ensures !BottomNavFits(innerHeight) ==> activeplaceIndex == old(activeplaceIndex)
    {
      if BottomNavFits(innerHeight) {
        bottomNavActive := true;
        activeplaceIndex := Or(activeplaceIndex, Some(0), 0);
        SetViewHeight(innerHeight);
      } else {
        ClosedBottomNav(innerHeight);
      }
    }

    /**
     * `directionsToPoint(data)`: clears the map and, once the 100 ms timer
     * fires (collapsed into this call), overwrites the places of the current
     * map view data with the one place, in place. The view then holds places,
     * so the next data swap ends the first load.
     */
    method DirectionsToPoint(place: Place)
      modifies this`emitted, this`mapViewData
      ensures emitted == old(emitted) + [ClearMap]
      ensures mapViewData == old(mapViewData).(places := [place])
      ensures mapViewData.HasPlaces()
    {
      emitted := emitted + [ClearMap];
      mapViewData := mapViewData.(places := [place]);
    }

    /** The `mapViewDataChanged` listener: new data, then the bottom navigation and view height. */
    method MapViewDataChanged(data: MapViewData, innerHeight: int)
      requires Valid()
      modifies this`searchBtnAvailable, this`firstLoad, this`mapViewData, this`refreshingSearch
      modifies this`bottomNavActive, this`activeplaceIndex, this`viewHeight
      ensures Valid()
      ensures !searchBtnAvailable && !refreshingSearch && mapViewData == data
      ensures firstLoad == (old(firstLoad) && !old(mapViewData).HasPlaces())
      ensures bottomNavActive == BottomNavFits(innerHeight) && viewHeight == Some(innerHeight)
      ensures BottomNavFits(innerHeight) ==> activeplaceIndex == Or(old(activeplaceIndex), Some(0), 0)
      ensures !BottomNavFits(innerHeight) ==> activeplaceIndex == old(activeplaceIndex)
    {
      SetMapDataAndUpdateMapView(data);
      SetViewHeightAndBottomNav(innerHeight);
    }

    /**
     * `loadRoute()`: clears the map, then either redirects to `Maps` when the
     * route does not decode, or stores the decoded route data with its
     * effective zoom and announces it.
     */
    method LoadRoute(decodePath: Route -> Option<AppRouteData>)
      modifies this`navigations, this`emitted, routeStore`appRouteData
      ensures decodePath(route).None? ==>
        && navigations == old(navigations) + ["Maps"]
        && emitted == old(emitted) + [ClearMap]
        && routeStore.appRouteData == old(routeStore.appRouteData)
      ensures decodePath(route).Some? ==>
        && navigations == old(navigations)
        && routeStore.appRouteData == WithZoom(decodePath(route).value,
             EffectiveZoom(None, decodePath(route).value.options.zoom, defaultZoom))
        && emitted == old(emitted) + [ClearMap, AppRouteDataChanged(routeStore.appRouteData)]
    {
      emitted := emitted + [ClearMap];
      var appRouteData := decodePath(route);
      if appRouteData.None? {
        navigations := navigations + ["Maps"];
      } else {
        routeStore.appRouteData := appRouteData.value;
        StoreZoomValue();
        emitted := emitted + [AppRouteDataChanged(routeStore.appRouteData)];
      }
    }

    /** `setModalState()`: each modal is open exactly when its one-shot store flag was set, which is then consumed. */
    method SetModalState()
      modifies this`isSettingsOpen, this`isAboutOpen, routeStore`openSettings, routeStore`openAbout
      ensures isSettingsOpen == old(routeStore.openSettings) && !routeStore.openSettings
      ensures isAboutOpen == old(routeStore.openAbout) && !routeStore.openAbout
    {
      if routeStore.openSettings {
        isSettingsOpen := true;
        routeStore.openSettings := false;
      } else {
        isSettingsOpen := false;
      }
      if routeStore.openAbout {
        isAboutOpen := true;
        routeStore.openAbout := false;
      } else {
        isAboutOpen := false;
      }
    }

    /** The `$route` watcher: remember where we came from, load the new route, set the modals. */
    method RouteChange(to: Route, decodePath: Route -> Option<AppRouteData>)
      modifies this`previousRoute, this`route, this`navigations, this`emitted
      modifies this`isSettingsOpen, this`isAboutOpen
      modifies routeStore`appRouteData, routeStore`openSettings, routeStore`openAbout
      ensures previousRoute == Some(old(route)) && route == to
      ensures decodePath(to).None? ==>
        && navigations == old(navigations) + ["Maps"]
        && emitted == old(emitted) + [ClearMap]
        && routeStore.appRouteData == old(routeStore.appRouteData)
      ensures decodePath(to).Some? ==>
        && navigations == old(navigations)
        && routeStore.appRouteData == WithZoom(decodePath(to).value,
             EffectiveZoom(None, decodePath(to).value.options.zoom, defaultZoom))
        && emitted == old(emitted) + [ClearMap, AppRouteDataChanged(routeStore.appRouteData)]
      ensures isSettingsOpen == old(routeStore.openSettings) && !routeStore.openSettings
      ensures isAboutOpen == old(routeStore.openAbout) && !routeStore.openAbout
    {
      previousRoute := Some(route);
      route := to;
      LoadRoute(decodePath);
      SetModalState();
    }

    /** `created()`: load the route, set the modals, measure the view. */
    method Created(decodePath: Route -> Option<AppRouteData>, innerHeight: int)
      requires Valid()
      modifies this`navigations, this`emitted, this`isSettingsOpen, this`isAboutOpen, this`viewHeight
      modifies routeStore`appRouteData, routeStore`openSettings, routeStore`openAbout
      ensures Valid()
      ensures decodePath(route).None? ==>
        && navigations == old(navigations) + ["Maps"]
        && emitted == old(emitted) + [ClearMap]
        && routeStore.appRouteData == old(routeStore.appRouteData)
      ensures decodePath(route).Some? ==>
        && navigations == old(navigations)
        && routeStore.appRouteData == WithZoom(decodePath(route).value,
             EffectiveZoom(None, decodePath(route).value.options.zoom, defaultZoom))
        && emitted == old(emitted) + [ClearMap, AppRouteDataChanged(routeStore.appRouteData)]
      ensures isSettingsOpen == old(routeStore.openSettings) && !routeStore.openSettings
      ensures isAboutOpen == old(routeStore.openAbout) && !routeStore.openAbout
      ensures viewHeight == Some(innerHeight)
    {
      LoadRoute(decodePath);
      SetModalState();
      SetViewHeight(innerHeight);
    }

    /** The `showAltitudeModal` listener. */
    method ShowAltitudeModal()
      modifies this`isAltitudeModalOpen
      ensures isAltitudeModalOpen
    {
      isAltitudeModalOpen := true;
    }

    /** The `showSettingsModal` listener. */
    method ShowSettingsModal()
      modifies this`isSettingsOpen
      ensures isSettingsOpen
    {
      isSettingsOpen := true;
    }

    /** The `showAboutModal` listener. */
    method ShowAboutModal()
      modifies this`isAboutOpen
      ensures isAboutOpen
    {
      isAboutOpen := true;
    }

    /** `closeAltitudeModal()`. */
    method CloseAltitudeModal()
      modifies this`isAltitudeModalOpen
      ensures !isAltitudeModalOpen
    {
      isAltitudeModalOpen := false;
    }

    /** `closeSettingsModal()`: on the settings route it also cleans the map and redirects to `Maps`. */
    method CloseSettingsModal()
      modifies this`isSettingsOpen, this`navigations, routeStore`cleanMap
      ensures !isSettingsOpen
      ensures route.name == "MapSettings" ==> routeStore.cleanMap && navigations == old(navigations) + ["Maps"]
      ensures route.name != "MapSettings" ==> unchanged(routeStore) && navigations == old(navigations)
    {
      isSettingsOpen := false;
      if route.name == "MapSettings" {
        routeStore.cleanMap := true;
        navigations := navigations + ["Maps"];
      }
    }

    /** `closeAboutModal()`: on the about route it also cleans the map and redirects to `Maps`. */
    method CloseAboutModal()
      modifies this`isAboutOpen, this`navigations, routeStore`cleanMap
      ensures !isAboutOpen
      ensures route.name == "MapAbout" ==> routeStore.cleanMap && navigations == old(navigations) + ["Maps"]
      ensures route.name != "MapAbout" ==> unchanged(routeStore) && navigations == old(navigations)
    {
      isAboutOpen := false;
      if route.name == "MapAbout" {
        routeStore.cleanMap := true;
        navigations := navigations + ["Maps"];
      }
    }
  }
}

/** What a caller can conclude from the page's contracts alone, at the thresholds of the guards. */
module MapsPageThresholds {
  import opened Wrappers
  import opened Constants
  import AppState
  import opened MapsPage

  method PanelAndPanThresholds(findIndex: (Place, seq<Place>) -> int, place: Place)
  {
    var appState := new AppState.Store();
    appState.CommitMode(SearchMode);
    var routeStore := new RouteStore(AppRouteData([], RouteOptions(None, None)), false, false);
    var page := new MapsPage(appState, routeStore, Route("Maps", "/"));

    page.MarkerClicked(place, findIndex, 310 + 99);
    assert !page.bottomNavActive && page.viewHeight == None;
    page.MarkerClicked(place, findIndex, 310 + 101);
    assert page.bottomNavActive && page.activeplaceIndex == Some(findIndex(place, []));

    page.MapCenterMoved(500.0);
    assert !page.searchBtnAvailable;
    page.MapCenterMoved(501.0);
    assert page.searchBtnAvailable && page.RefreshSearchAvailable();

    page.DoRefreshSearch();
    assert !page.FitMapBounds();
    page.SetMapDataAndUpdateMapView(MapViewData([place], None));
    assert page.firstLoad && page.FitMapBounds();
  }

  /**
   * The delayed write of `directionsToPoint` gives the view places, so the
   * next data swap ends the first load although no earlier data had any.
   */
  method DirectionsEndFirstLoad(place: Place)
  {
    var appState := new AppState.Store();
    var routeStore := new RouteStore(AppRouteData([], RouteOptions(None, None)), false, false);
    var page := new MapsPage(appState, routeStore, Route("Maps", "/"));
    assert page.firstLoad && !page.mapViewData.HasPlaces();

    page.DirectionsToPoint(place);
    page.SetMapDataAndUpdateMapView(EmptyMapViewData);
    assert !page.firstLoad;
  }
}

/**
 * The gateway to the openrouteservice API: PlacesSearch with its bounded-area
 * search and single unrestricted retry, Geocode, ReverseGeocode, and the
 * argument merge and result/failure envelopes of Directions and Isochrones.
 *
 * The HTTP client, the argument builders and `Place.placesFromFeatures` are
 * not part of this model; each operation takes them as function parameters,
 * and a client call is a function from the request it receives to its result.
 */
module OrsApiRunner {
  import opened Wrappers
  import opened Constants

  /** `mapSettings.endpoints`: the service path of each operation. */
  datatype Endpoints = Endpoints(
    directions: string,
    autocomplete: string,
    reverseGeocode: string,
    geocodeSearch: string,
    isochrones: string)

  /** The parts of `mapSettings` the gateway reads, afresh on every call. */
  datatype ApiSettings = ApiSettings(
    apiKey: string,
    apiBaseUrl: string,
    endpoints: Endpoints,
    prioritizeSearchingForNearbyPlaces: bool)

  /** The options an API client object is constructed with. */
  datatype ClientConfig = ClientConfig(apiKey: string, host: string, service: string)

  function ClientFor(settings: ApiSettings, service: string): ClientConfig {
    ClientConfig(settings.apiKey, settings.apiBaseUrl, service)
  }

  /**
   * Geocoding arguments: what was handed to the argument builder, plus the
   * `size` field set on the built object.
   */
  datatype GeocodeArgs =
    | AutocompleteArgs(term: string, restrictToBbox: bool, size: int)
    | ReverseSearchArgs(lat: real, lng: real, size: int)

  /** One geocoding client call: the client it went to and its arguments. */
  datatype GeocodeRequest = GeocodeRequest(client: ClientConfig, args: GeocodeArgs)

  /** What a geocoding operation resolves or rejects with, and the client calls it made. */
  datatype SearchOutcome<P, E> = SearchOutcome(result: Result<seq<P>, E>, requests: seq<GeocodeRequest>)

  const DefaultSearchQuantity := 100
  const DefaultGeocodeSize := 10

  /** A response's features turned into places; a rejection passes through unchanged. */
  function ToPlaces<F, P, E>(response: Result<seq<F>, E>, placesFromFeatures: seq<F> -> seq<P>): Result<seq<P>, E> {
    match response
    case Success(features) => Success(placesFromFeatures(features))
    case Failure(e) => Failure(e)
  }

  /** The request PlacesSearch sends for one attempt. */
  function SearchRequest(settings: ApiSettings, term: string, quantity: int, restrictToBbox: bool): GeocodeRequest {
    GeocodeRequest(ClientFor(settings, settings.endpoints.geocodeSearch), AutocompleteArgs(term, restrictToBbox, quantity))
  }

  /**
   * `PlacesSearch(term, quantity = 100, restrictArea = true)`. The bounding
   * box applies only when the caller asks for it and the settings prioritise
   * nearby places; a restricted search that finds nothing is run once more,
   * unrestricted, and the caller sees only that second outcome.
   *
   * Each attempt reads the settings when it starts: `settings` is what the
   * first attempt reads, `retrySettings` what the retry reads once the first
   * response has arrived (a save in between makes them differ).
   */
  function PlacesSearch<F, P, E>(
    settings: ApiSettings,
    retrySettings: ApiSettings,
    geocode: GeocodeRequest -> Result<seq<F>, E>,
    placesFromFeatures: seq<F> -> seq<P>,
    term: string,
    quantity: int := DefaultSearchQuantity,
    restrictArea: bool := true): (out: SearchOutcome<P, E>)
    ensures 1 <= |out.requests| <= 2
    ensures out.requests[0] == SearchRequest(settings, term, quantity, restrictArea && settings.prioritizeSearchingForNearbyPlaces)
    ensures |out.requests| == 2 <==>
      restrictArea && settings.prioritizeSearchingForNearbyPlaces && geocode(out.requests[0]) == Success([])
    ensures |out.requests| == 2 ==> out.requests[1] == SearchRequest(retrySettings, term, quantity, false)
    ensures out.result == ToPlaces(geocode(out.requests[|out.requests| - 1]), placesFromFeatures)
    decreases if restrictArea then 1 else 0
  {
    var restrictToBbox := restrictArea && settings.prioritizeSearchingForNearbyPlaces;
    var request := SearchRequest(settings, term, quantity, restrictToBbox);
    match geocode(request)
    case Failure(e) => SearchOutcome(Failure(e), [request])
    case Success(features) =>
      if |features| == 0 && restrictToBbox then
        var retry := PlacesSearch(retrySettings, retrySettings, geocode, placesFromFeatures, term, quantity, false);
        SearchOutcome(retry.result, [request] + retry.requests)
      else
        SearchOutcome(Success(placesFromFeatures(features)), [request])
  }

  /**
   * Reference definition of the same policy as two explicit phases: a first
   * attempt, then (only if it was restricted and came back empty) one
   * unrestricted attempt, and nothing after it.
   */
  function TwoPhaseSearch<F, P, E>(
    settings: ApiSettings,
    retrySettings: ApiSettings,
    geocode: GeocodeRequest -> Result<seq<F>, E>,
    placesFromFeatures: seq<F> -> seq<P>,
    term: string,
    quantity: int,
    restrictArea: bool): SearchOutcome<P, E>
  {
    var first := SearchRequest(settings, term, quantity, restrictArea && settings.prioritizeSearchingForNearbyPlaces);
    if first.args.restrictToBbox && geocode(first) == Success([]) then
      var second := SearchRequest(retrySettings, term, quantity, false);
      SearchOutcome(ToPlaces(geocode(second), placesFromFeatures), [first, second])
    else
      SearchOutcome(ToPlaces(geocode(first), placesFromFeatures), [first])
  }

  /** The recursive search and the two-phase policy agree on every input. */
  lemma PlacesSearchIsTwoPhase<F, P, E>(
    settings: ApiSettings,
    retrySettings: ApiSettings,
    geocode: GeocodeRequest -> Result<seq<F>, E>,
    placesFromFeatures: seq<F> -> seq<P>,
    term: string,
    quantity: int,
    restrictArea: bool)
    ensures PlacesSearch(settings, retrySettings, geocode, placesFromFeatures, term, quantity, restrictArea)
         == TwoPhaseSearch(settings, retrySettings, geocode, placesFromFeatures, term, quantity, restrictArea)
  {
  }

  /** Every request asks for `quantity` results, and none is restricted unless both flags are set. */
  lemma SearchRequestsKeepQuantity<F, P, E>(
    settings: ApiSettings,
    retrySettings: ApiSettings,
    geocode: GeocodeRequest -> Result<seq<F>, E>,
    placesFromFeatures: seq<F> -> seq<P>,
    term: string,
    quantity: int,
    restrictArea: bool)
    ensures var out := PlacesSearch(settings, retrySettings, geocode, placesFromFeatures, term, quantity, restrictArea);
      forall i :: 0 <= i < |out.requests| ==>
        && out.requests[i].client ==
             (if i == 0 then ClientFor(settings, settings.endpoints.geocodeSearch)
              else ClientFor(retrySettings, retrySettings.endpoints.geocodeSearch))
        && out.requests[i].args == AutocompleteArgs(term, out.requests[i].args.restrictToBbox, quantity)
        && (out.requests[i].args.restrictToBbox ==> restrictArea && settings.prioritizeSearchingForNearbyPlaces)
  {
  }

  /** A rejection of the first attempt is what the caller sees, with no retry. */
  lemma SearchFailurePropagates<F, P, E>(
    settings: ApiSettings,
    retrySettings: ApiSettings,
    geocode: GeocodeRequest -> Result<seq<F>, E>,
    placesFromFeatures: seq<F> -> seq<P>,
    term: string,
    quantity: int,
    restrictArea: bool,
    e: E)
    requires geocode(SearchRequest(settings, term, quantity, restrictArea && settings.prioritizeSearchingForNearbyPlaces)) == Failure(e)
    ensures PlacesSearch(settings, retrySettings, geocode, placesFromFeatures, term, quantity, restrictArea).result == Failure(e)
    ensures |PlacesSearch(settings, retrySettings, geocode, placesFromFeatures, term, quantity, restrictArea).requests| == 1
  {
  }

  /** An unrestricted search resolves to whatever it finds, even nothing, in one call. */
  lemma UnrestrictedSearchDoesNotRetry<F, P, E>(
    settings: ApiSettings,
    retrySettings: ApiSettings,
    geocode: GeocodeRequest -> Result<seq<F>, E>,
    placesFromFeatures: seq<F> -> seq<P>,
    term: string,
    quantity: int)
    ensures var out := PlacesSearch(settings, retrySettings, geocode, placesFromFeatures, term, quantity, false);
      && out.requests == [SearchRequest(settings, term, quantity, false)]
      && out.result == ToPlaces(geocode(SearchRequest(settings, term, quantity, false)), placesFromFeatures)
  {
  }

  /** `Geocode(term, size = 10)`: an autocomplete query; a rejection passes through unchanged. */
  function Geocode<F, P, E>(
    settings: ApiSettings,
    geocode: GeocodeRequest -> Result<seq<F>, E>,
    placesFromFeatures: seq<F> -> seq<P>,
    term: string,
    size: int := DefaultGeocodeSize): (out: SearchOutcome<P, E>)
    ensures |out.requests| == 1
    ensures out.requests[0].client == ClientFor(settings, settings.endpoints.autocomplete)
    ensures out.requests[0].args.AutocompleteArgs? && out.requests[0].args.term == term
    ensures out.requests[0].args.size == size && !out.requests[0].args.restrictToBbox
    ensures geocode(out.requests[0]).Failure? ==> out.result == Failure(geocode(out.requests[0]).error)
    ensures geocode(out.requests[0]).Success? ==> out.result == Success(placesFromFeatures(geocode(out.requests[0]).value))
  {
    var request := GeocodeRequest(ClientFor(settings, settings.endpoints.autocomplete), AutocompleteArgs(term, false, size));
    SearchOutcome(ToPlaces(geocode(request), placesFromFeatures), [request])
  }

  /** `ReverseGeocode(lat, lng, size = 10)`: a reverse query at a coordinate. */
  function ReverseGeocode<F, P, E>(
    settings: ApiSettings,
    reverseGeocode: GeocodeRequest -> Result<seq<F>, E>,
    placesFromFeatures: seq<F> -> seq<P>,
    lat: real,
    lng: real,
    size: int := DefaultGeocodeSize): (out: SearchOutcome<P, E>)
    ensures |out.requests| == 1
    ensures out.requests[0].client == ClientFor(settings, settings.endpoints.reverseGeocode)
    ensures out.requests[0].args == ReverseSearchArgs(lat, lng, size)
    ensures reverseGeocode(out.requests[0]).Failure? ==> out.result == Failure(reverseGeocode(out.requests[0]).error)
    ensures reverseGeocode(out.requests[0]).Success? ==> out.result == Success(placesFromFeatures(reverseGeocode(out.requests[0]).value))
  {
    var request := GeocodeRequest(ClientFor(settings, settings.endpoints.reverseGeocode), ReverseSearchArgs(lat, lng, size));
    SearchOutcome(ToPlaces(reverseGeocode(request), placesFromFeatures), [request])
  }

  /** The payload a routing call resolves with: `{options: {origin, apiVersion}, content}`. */
  datatype Envelope<R> = Envelope(origin: DataOrigin, apiVersion: string, content: R)

  /** What a routing call rejects with: `{response: err, args}`, the arguments exactly as sent. */
  datatype RoutingFailure<V, E> = RoutingFailure(response: E, args: map<string, V>)

  /** `Object.assign(args, customArgs)` when `customArgs` is given: custom keys win, built keys stay. */
  function MergeArgs<V>(built: map<string, V>, customArgs: Option<map<string, V>>): (args: map<string, V>)
    ensures customArgs.None? ==> args == built
    ensures customArgs.Some? ==> args.Keys == built.Keys + customArgs.value.Keys
    ensures customArgs.Some? ==> forall k :: k in customArgs.value ==> args[k] == customArgs.value[k]
    ensures forall k :: k in built && (customArgs.None? || k !in customArgs.value) ==> k in args && args[k] == built[k]
  {
    if customArgs.Some? then built + customArgs.value else built
  }

  /** A routing client call's result wrapped in the gateway's envelopes. */
  function Wrap<V, R, E>(origin: DataOrigin, apiVersion: string, args: map<string, V>, response: Result<R, E>): Result<Envelope<R>, RoutingFailure<V, E>> {
    match response
    case Success(content) => Success(Envelope(origin, apiVersion, content))
    case Failure(err) => Failure(RoutingFailure(err, args))
  }

  /** `Directions(places, customArgs = null)`. */
  function Directions<P, V, R, E>(
    settings: ApiSettings,
    calculate: (ClientConfig, map<string, V>) -> Result<R, E>,
    buildRoutingArgs: seq<P> -> map<string, V>,
    apiVersion: string,
    places: seq<P>,
    customArgs: Option<map<string, V>> := None): (r: Result<Envelope<R>, RoutingFailure<V, E>>)
    ensures var args := MergeArgs(buildRoutingArgs(places), customArgs);
      var response := calculate(ClientFor(settings, settings.endpoints.directions), args);
      && (r.Success? <==> response.Success?)
      && (r.Success? ==> r.value == Envelope(DirectionsOrigin, apiVersion, response.value))
      && (r.Failure? ==> r.error == RoutingFailure(response.error, args))
  {
    var args := MergeArgs(buildRoutingArgs(places), customArgs);
    Wrap(DirectionsOrigin, apiVersion, args, calculate(ClientFor(settings, settings.endpoints.directions), args))
  }

  /** `Isochrones(places)`. */
  function Isochrones<P, V, R, E>(
    settings: ApiSettings,
    calculate: (ClientConfig, map<string, V>) -> Result<R, E>,
    buildIsochronesArgs: seq<P> -> map<string, V>,
    apiVersion: string,
    places: seq<P>): (r: Result<Envelope<R>, RoutingFailure<V, E>>)
    ensures var args := buildIsochronesArgs(places);
      var response := calculate(ClientFor(settings, settings.endpoints.isochrones), args);
      && (r.Success? <==> response.Success?)
      && (r.Success? ==> r.value == Envelope(IsochronesOrigin, apiVersion, response.value))
      && (r.Failure? ==> r.error == RoutingFailure(response.error, args))
  {
    var args := buildIsochronesArgs(places);
    Wrap(IsochronesOrigin, apiVersion, args, calculate(ClientFor(settings, settings.endpoints.isochrones), args))
  }

  /** With no custom arguments, Directions sends exactly the built arguments. */
  lemma DirectionsWithoutCustomArgs<P, V, R, E>(
    settings: ApiSettings,
    calculate: (ClientConfig, map<string, V>) -> Result<R, E>,
    buildRoutingArgs: seq<P> -> map<string, V>,
    apiVersion: string,
    places: seq<P>)
    ensures var r := Directions(settings, calculate, buildRoutingArgs, apiVersion, places);
      r.Failure? ==> r.error.args == buildRoutingArgs(places)
  {
  }
}

/**
 * `getProviders` of the map definitions: the ordered list of tile providers
 * offered by the map view, built from two settings, `defaultTileProvider` and
 * `customTileProviderUrl`. Both are passed in rather than read from the store.
 */
module MapDefinitions {
  import opened Wrappers

  /** One entry of the provider list; the custom entry has neither `id` nor `token`. */
  datatype TileProvider = TileProvider(
    name: string,
    id: Option<string>,
    visible: bool,
    attribution: string,
    url: string,
    token: Option<string>)
  {
    /** The value of `defaultTileProvider` that makes this entry the visible one. */
    function VisibilityKey(): string {
      id.GetOr("custom")
    }
  }

  const OsmUrl := "https://{s}.tile.openstreetmap.org/{z}/{x}/{y}.png"
  const OsmAttribution := "&copy; <a target=\"_blank\" href=\"http://osm.org/copyright\">OpenStreetMap</a> contributors"
  const ImageryUrl := "https://server.arcgisonline.com/ArcGIS/rest/services/World_Imagery/MapServer/tile/{z}/{y}/{x}"
  const ImageryAttribution := "Tiles &copy; Esri &mdash; Source: Esri, i-cubed, USDA, USGS, AEX, GeoEye, Getmapping, Aerogrid, IGN, IGP, UPR-EGP, and the GIS User Community"
  const CustomAttribution := "Custom tile provider defined by the user"

  /** `mapSettings.defaultTileProvider || 'osm'`: a missing or empty setting means OpenStreetMap. */
  function EffectiveDefault(defaultTileProvider: Option<string>): (provider: string)
    ensures provider != ""
    ensures defaultTileProvider.Some? && defaultTileProvider.value != "" ==> provider == defaultTileProvider.value
    ensures defaultTileProvider.None? || defaultTileProvider.value == "" ==> provider == "osm"
  {
    if defaultTileProvider.Some? && defaultTileProvider.value != "" then defaultTileProvider.value else "osm"
  }

  /** A custom URL setting is used only when it is truthy (present and non-empty). */
  predicate HasCustomUrl(customTileProviderUrl: Option<string>) {
    customTileProviderUrl.Some? && customTileProviderUrl.value != ""
  }

  function GetProviders(defaultTileProvider: Option<string>, customTileProviderUrl: Option<string>): (providers: seq<TileProvider>)
    ensures |providers| == if HasCustomUrl(customTileProviderUrl) then 3 else 2
    ensures providers[0] ==
      TileProvider("OpenStreetMaps", Some("osm"), providers[0].visible, OsmAttribution, OsmUrl, None)
    ensures providers[1] ==
      TileProvider("Satellite imagery", Some("world-imagery"), providers[1].visible, ImageryAttribution, ImageryUrl, None)
    ensures HasCustomUrl(customTileProviderUrl) ==>
      providers[2] ==
        TileProvider("Custom", None, providers[2].visible, CustomAttribution, customTileProviderUrl.value, None)
    ensures forall i :: 0 <= i < |providers| ==>
      (providers[i].visible <==> providers[i].VisibilityKey() == EffectiveDefault(defaultTileProvider))
  {
    var selected := EffectiveDefault(defaultTileProvider);
    var builtIn := [
      TileProvider("OpenStreetMaps", Some("osm"), selected == "osm", OsmAttribution, OsmUrl, None),
      TileProvider("Satellite imagery", Some("world-imagery"), selected == "world-imagery", ImageryAttribution, ImageryUrl, None)
    ];
    if HasCustomUrl(customTileProviderUrl) then
      builtIn + [TileProvider("Custom", None, selected == "custom", CustomAttribution, customTileProviderUrl.value, None)]
    else
      builtIn
  }

  /** The entries have distinct visibility keys, so at most one provider is visible. */
  lemma AtMostOneVisible(defaultTileProvider: Option<string>, customTileProviderUrl: Option<string>, i: int, j: int)
    requires 0 <= i < |GetProviders(defaultTileProvider, customTileProviderUrl)|
    requires 0 <= j < |GetProviders(defaultTileProvider, customTileProviderUrl)|
    requires GetProviders(defaultTileProvider, customTileProviderUrl)[i].visible
    requires GetProviders(defaultTileProvider, customTileProviderUrl)[j].visible
    ensures i == j
  {
  }

  /** A default that names no entry of the list leaves every provider hidden. */
  lemma UnknownDefaultHidesAll(defaultTileProvider: Option<string>, customTileProviderUrl: Option<string>)
    requires EffectiveDefault(defaultTileProvider) !in {"osm", "world-imagery", "custom"}
    ensures forall p :: p in GetProviders(defaultTileProvider, customTileProviderUrl) ==> !p.visible
  {
  }

  /** With no setting at all, OpenStreetMap is the one visible provider. */
  lemma MissingDefaultShowsOsm(customTileProviderUrl: Option<string>)
    ensures GetProviders(None, customTileProviderUrl)[0].visible
    ensures !GetProviders(None, customTileProviderUrl)[1].visible
    ensures HasCustomUrl(customTileProviderUrl) ==> !GetProviders(None, customTileProviderUrl)[2].visible
  {
  }
}

/**
 * The `app-state` store module: six state fields, one getter and one
 * mutation per field, and the `saveSettings` action that persists the map
 * settings to browser storage without a default or empty API key.
 */
module AppState {
  import opened Wrappers
  import opened Js
  import opened Constants

  const MapSettingsKey := "mapSettings"
  const ApiKeyField := "apiKey"

  /** A snapshot of the module's state. */
  datatype StoreState = StoreState(
    mode: Mode,
    apiDataRequested: bool,
    dataAcquired: bool,
    mapSettings: map<string, Json>,
    embed: bool,
    acessibleModeActive: bool)

  /** The state the module starts in. */
  const InitialState := StoreState(PlaceMode, false, false, map["shownOnceTooltips" := Obj(map[])], false, false)

  /** A JavaScript object handed over by reference, which the callee may change in place. */
  class JsObject {
    var fields: map<string, Json>

    constructor (fields: map<string, Json>)
      ensures this.fields == fields
    {
      this.fields := fields;
    }
  }

  /** The browser's `localStorage`, as a map from key to stored record. */
  class LocalStorage {
    var items: map<string, Json>

    constructor (items: map<string, Json>)
      ensures this.items == items
    {
      this.items := items;
    }
  }

  /** The API key is not worth persisting: it is the default one, `''` or `null`. */
  predicate IsDefaultApiKey(settings: map<string, Json>, defaultApiKey: Option<Json>) {
    var key := Lookup(settings, ApiKeyField);
    key == defaultApiKey || key == Some(Str("")) || key == Some(Null)
  }

  /** The record `saveSettings` writes: the settings, without `apiKey` when that key is not worth persisting. */
  function PersistedSettings(settings: map<string, Json>, defaultApiKey: Option<Json>): (persisted: map<string, Json>)
    ensures ApiKeyField !in persisted <==> ApiKeyField !in settings || IsDefaultApiKey(settings, defaultApiKey)
    ensures ApiKeyField in persisted ==> persisted[ApiKeyField] == settings[ApiKeyField]
    ensures forall k :: k != ApiKeyField ==> Lookup(persisted, k) == Lookup(settings, k)
  {
    if IsDefaultApiKey(settings, defaultApiKey) then settings - {ApiKeyField} else settings
  }

  /** Saving what was persisted persists it again unchanged. */
  lemma PersistedSettingsIdempotent(settings: map<string, Json>, defaultApiKey: Option<Json>)
    ensures PersistedSettings(PersistedSettings(settings, defaultApiKey), defaultApiKey) == PersistedSettings(settings, defaultApiKey)
  {
  }

  /** The in-store copy is recovered from the persisted record by putting the removed key back. */
  lemma KeptSettingsRecoverable(settings: map<string, Json>, defaultApiKey: Option<Json>)
    requires ApiKeyField in settings
    ensures PersistedSettings(settings, defaultApiKey)[ApiKeyField := settings[ApiKeyField]] == settings
  {
  }

  class Store {
    var mode: Mode
    var apiDataRequested: bool
    var dataAcquired: bool
    var mapSettings: map<string, Json>
    var embed: bool
    var acessibleModeActive: bool

    function State(): StoreState
      reads this
    {
      StoreState(mode, apiDataRequested, dataAcquired, mapSettings, embed, acessibleModeActive)
    }

    constructor ()
      ensures State() == InitialState
    {
      mode := PlaceMode;
      apiDataRequested := false;
      dataAcquired := false;
      mapSettings := map["shownOnceTooltips" := Obj(map[])];
      embed := false;
      acessibleModeActive := false;
    }

    // Getters

    function GetMode(): Mode reads this { mode }
    function GetApiDataRequested(): bool reads this { apiDataRequested }
    function GetDataAcquired(): bool reads this { dataAcquired }
    function GetMapSettings(): map<string, Json> reads this { mapSettings }
    function GetEmbed(): bool reads this { embed }
    function GetAcessibleModeActive(): bool reads this { acessibleModeActive }

    // Mutations: each sets its one field; the getter then returns the new value.

    method CommitMode(m: Mode)
      modifies this
      ensures State() == old(State()).(mode := m)
      ensures GetMode() == m
    {
      mode := m;
    }

    method CommitApiDataRequested(requested: bool)
      modifies this
      ensures State() == old(State()).(apiDataRequested := requested)
      ensures GetApiDataRequested() == requested
    {
      apiDataRequested := requested;
    }

    method CommitDataAcquired(acquired: bool)
      modifies this
      ensures State() == old(State()).(dataAcquired := acquired)
      ensures GetDataAcquired() == acquired
    {
      dataAcquired := acquired;
    }

    method CommitMapSettings(settings: map<string, Json>)
      modifies this
      ensures State() == old(State()).(mapSettings := settings)
      ensures GetMapSettings() == settings
    {
      mapSettings := settings;
    }

    method CommitEmbed(e: bool)
      modifies this
      ensures State() == old(State()).(embed := e)
      ensures GetEmbed() == e
    {
      embed := e;
    }

    method CommitAcessibleModeActive(active: bool)
      modifies this
      ensures State() == old(State()).(acessibleModeActive := active)
      ensures GetAcessibleModeActive() == active
    {
      acessibleModeActive := active;
    }

    /**
     * `saveSettings(savingSettings)`: clears the stored entry, keeps a copy of
     * the caller's settings in the store, drops a default or empty `apiKey`
     * from the caller's own object, persists that object and resolves with the
     * copy.
     */
    method SaveSettings(savingSettings: JsObject, storage: LocalStorage, defaultApiKey: Option<Json>)
      returns (kept: map<string, Json>)
      modifies this, savingSettings, storage
      ensures kept == old(savingSettings.fields)
      ensures State() == old(State()).(mapSettings := kept)
      ensures savingSettings.fields == PersistedSettings(old(savingSettings.fields), defaultApiKey)
      ensures storage.items == old(storage.items)[MapSettingsKey := Obj(savingSettings.fields)]
    {
      storage.items := storage.items - {MapSettingsKey};
      kept := savingSettings.fields;
      if IsDefaultApiKey(savingSettings.fields, defaultApiKey) {
        savingSettings.fields := savingSettings.fields - {ApiKeyField};
      }
      CommitMapSettings(kept);
      storage.items := storage.items[MapSettingsKey := Obj(savingSettings.fields)];
    }
  }
}

/**
  The overlay settings and their persistence.

  The settings are two strings: the free-form multi-line text printed on the
  overlay and the content URI of the map thumbnail. They are kept in a
  key-value preferences store; here the store is a map from key to string.
  Reading fills in an empty string for every key the store lacks, and saving
  writes both keys inside one edit.
*/
module OverlayRepository {

  /** The settings record, as every reader and writer of it uses it. */
  datatype OverlayConfig = OverlayConfig(details: string, mapUri: string)

  /** The value the app shows before the store has delivered anything. */
  const DefaultConfig := OverlayConfig("", "")

  const DetailsKey := "details"
  const MapUriKey := "map_uri"

  /** The value stored under `key`, or the empty string when there is none. */
  function StringOr(prefs: map<string, string>, key: string): (v: string)
    ensures key in prefs ==> v == prefs[key]
    ensures key !in prefs ==> v == ""
  {
    if key in prefs then prefs[key] else ""
  }

  /** The mapping from a snapshot of the store to the settings it describes. */
  function ConfigOf(prefs: map<string, string>): (c: OverlayConfig)
    ensures DetailsKey in prefs ==> c.details == prefs[DetailsKey]
    ensures DetailsKey !in prefs ==> c.details == ""
    ensures MapUriKey in prefs ==> c.mapUri == prefs[MapUriKey]
    ensures MapUriKey !in prefs ==> c.mapUri == ""
  {
    OverlayConfig(StringOr(prefs, DetailsKey), StringOr(prefs, MapUriKey))
  }

  /** The store after a save of `c`: both keys written, the rest untouched. */
  function SavedPrefs(prefs: map<string, string>, c: OverlayConfig): (saved: map<string, string>)
    ensures DetailsKey in saved && saved[DetailsKey] == c.details
    ensures MapUriKey in saved && saved[MapUriKey] == c.mapUri
    ensures forall key :: key != DetailsKey && key != MapUriKey ==> (key in saved <==> key in prefs)
    ensures forall key :: key != DetailsKey && key != MapUriKey && key in prefs ==> saved[key] == prefs[key]
  {
    prefs[DetailsKey := c.details][MapUriKey := c.mapUri]
  }

  /** A store that holds neither key reads as the default settings. */
  lemma EmptyStoreReadsDefault(prefs: map<string, string>)
    requires DetailsKey !in prefs && MapUriKey !in prefs
    ensures ConfigOf(prefs) == DefaultConfig
  {
  }

  /** Reading the store right after saving `c` gives back `c`, whatever the store held. */
  lemma ReadAfterSave(prefs: map<string, string>, c: OverlayConfig)
    ensures ConfigOf(SavedPrefs(prefs, c)) == c
  {
  }

  /** The keys of the store after a save: the old keys plus the two settings keys. */
  lemma SavedKeys(prefs: map<string, string>, c: OverlayConfig)
    ensures SavedPrefs(prefs, c).Keys == prefs.Keys + {DetailsKey, MapUriKey}
  {
  }

  /** Saving the same settings twice leaves the store as saving them once does. */
  lemma SaveIdempotent(prefs: map<string, string>, c: OverlayConfig)
    ensures SavedPrefs(SavedPrefs(prefs, c), c) == SavedPrefs(prefs, c)
  {
  }

  /** A later save overrides an earlier one completely. */
  lemma LastSaveWins(prefs: map<string, string>, c1: OverlayConfig, c2: OverlayConfig)
    ensures SavedPrefs(SavedPrefs(prefs, c1), c2) == SavedPrefs(prefs, c2)
    ensures ConfigOf(SavedPrefs(SavedPrefs(prefs, c1), c2)) == c2
  {
  }

  /** The repository over its preferences store. */
  class Repository {
    var prefs: map<string, string>

    /** A repository over a store that already holds `initial`. */
    constructor (initial: map<string, string>)
      ensures prefs == initial
    {
      prefs := initial;
    }

    /** The settings the store currently describes. */
    function Config(): OverlayConfig
      reads this
    {
      ConfigOf(prefs)
    }

    /** Writes both settings into the store, one entry after the other. */
    method Save(config: OverlayConfig)
      modifies this
      ensures prefs == SavedPrefs(old(prefs), config)
      ensures Config() == config
    {
      prefs := prefs[DetailsKey := config.details];
      prefs := prefs[MapUriKey := config.mapUri];
      ReadAfterSave(old(prefs), config);
    }
  }
}

/** The saved-configuration list (src/lib/utils/localStorage.ts): an ordered
    list of named snapshots persisted under the storage key
    `cognitive-knobs-configs`. `Date.prototype.toISOString` and
    `new Date(isoString)` are the parameters `toIso` and `fromIso`. */
module Configurations {
  import opened Wrappers
  import opened Seqs
  import opened Types

  /** What the storage key holds, once JSON is parsed: nothing (or the empty
      string), text that does not parse, or a list of stored configurations. */
  datatype ConfigStorage = Absent | Corrupt | Stored(configs: seq<StoredConfiguration>)

  /** The entry `saveConfiguration` writes: the configuration with
      `createdAt` replaced by its ISO string. */
  function ToStored(config: KnobConfiguration, toIso: Instant -> string): (s: StoredConfiguration)
    ensures s.id == config.id && s.name == config.name && s.systemPrompt == config.systemPrompt
    ensures s.cognitiveKnobs == config.cognitiveKnobs && s.llmKnobs == config.llmKnobs
    ensures s.createdAt == toIso(config.createdAt)
  {
    StoredConfiguration(config.id, config.name, config.cognitiveKnobs, config.llmKnobs,
                        config.systemPrompt, toIso(config.createdAt))
  }

  /** The configuration `loadConfiguration` rebuilds from an entry. */
  function FromStored(stored: StoredConfiguration, fromIso: string -> Instant): (c: KnobConfiguration)
    ensures c.id == stored.id && c.name == stored.name && c.systemPrompt == stored.systemPrompt
    ensures c.cognitiveKnobs == stored.cognitiveKnobs && c.llmKnobs == stored.llmKnobs
    ensures c.createdAt == fromIso(stored.createdAt)
  {
    KnobConfiguration(stored.id, stored.name, stored.cognitiveKnobs, stored.llmKnobs,
                      stored.systemPrompt, fromIso(stored.createdAt))
  }

  /** Converting to the stored form and back gives the configuration again
      whenever the date survives its ISO round trip. */
  lemma StoredRoundTrip(config: KnobConfiguration, toIso: Instant -> string, fromIso: string -> Instant)
    requires fromIso(toIso(config.createdAt)) == config.createdAt
    ensures FromStored(ToStored(config, toIso), fromIso) == config
  {
  }

  /** `loadAllConfigurations`: the stored list in a browser when the key
      holds one; the empty list when not in a browser, when the key is
      absent, or when its text does not parse. */
  function LoadAllConfigurations(browser: bool, storage: ConfigStorage): (r: seq<StoredConfiguration>)
    ensures browser && storage.Stored? ==> r == storage.configs
    ensures r != [] ==> browser && storage == Stored(r)
  {
    if !browser then []
    else match storage
      case Stored(configs) => configs
      case _ => []
  }

  /** The list `deleteConfiguration` writes: every entry whose id differs. */
  function WithoutConfiguration(configs: seq<StoredConfiguration>, id: string): (r: seq<StoredConfiguration>)
    ensures |r| <= |configs|
    ensures forall i | 0 <= i < |r| :: r[i].id != id && r[i] in configs
    ensures forall i | 0 <= i < |configs| && configs[i].id != id :: configs[i] in r
  {
    Filter(configs, (c: StoredConfiguration) => c.id != id)
  }

  /** Deleting keeps the survivors in their relative order. */
  lemma WithoutConfigurationAppend(a: seq<StoredConfiguration>, b: seq<StoredConfiguration>, id: string)
    ensures WithoutConfiguration(a + b, id) == WithoutConfiguration(a, id) + WithoutConfiguration(b, id)
  {
    FilterAppend(a, b, (c: StoredConfiguration) => c.id != id);
  }

  /** Deleting the same id twice is deleting it once. */
  lemma WithoutConfigurationIdempotent(configs: seq<StoredConfiguration>, id: string)
    ensures WithoutConfiguration(WithoutConfiguration(configs, id), id) == WithoutConfiguration(configs, id)
  {
    FilterIdempotent(configs, (c: StoredConfiguration) => c.id != id);
  }

  /** The position of the first entry with the id (`configs.find`). */
  function FindConfiguration(configs: seq<StoredConfiguration>, id: string): (r: Option<nat>)
    ensures r.None? <==> forall i | 0 <= i < |configs| :: configs[i].id != id
    ensures r.Some? ==> r.value < |configs| && configs[r.value].id == id
    ensures r.Some? ==> forall j | 0 <= j < r.value :: configs[j].id != id
  {
    FindFirst(configs, (c: StoredConfiguration) => c.id == id)
  }

  /** `loadConfiguration`: null when no loaded entry has the id; otherwise
      the first such entry, with its date converted back. */
  function LoadConfiguration(browser: bool, storage: ConfigStorage, id: string,
                             fromIso: string -> Instant): (r: Option<KnobConfiguration>)
    ensures var all := LoadAllConfigurations(browser, storage);
            r.None? <==> forall i | 0 <= i < |all| :: all[i].id != id
    ensures var all := LoadAllConfigurations(browser, storage);
            forall i | 0 <= i < |all| && all[i].id == id && (forall j | 0 <= j < i :: all[j].id != id) ::
              r == Some(FromStored(all[i], fromIso))
  {
    var all := LoadAllConfigurations(browser, storage);
    match FindConfiguration(all, id)
    case None => None
    case Some(i) => Some(FromStored(all[i], fromIso))
  }

  /** Appending an entry does not change which entry a lookup finds when an
      earlier one already has the id. */
  lemma FindAfterAppend(configs: seq<StoredConfiguration>, entry: StoredConfiguration, id: string)
    ensures FindConfiguration(configs, id).Some? ==>
              FindConfiguration(configs + [entry], id) == FindConfiguration(configs, id)
    ensures FindConfiguration(configs, id).None? && entry.id == id ==>
              FindConfiguration(configs + [entry], id) == Some(|configs|)
  {
    var longer := configs + [entry];
    assert forall j | 0 <= j < |configs| :: longer[j] == configs[j];
    match FindConfiguration(configs, id)
    case Some(i) =>
      var k := FindConfiguration(longer, id);
      assert k.Some?;
    case None =>
      assert longer[|configs|] == entry;
  }

  /** Saved then loaded: with no earlier entry under the configuration's id,
      loading that id from what `saveConfiguration` writes gives the
      configuration back, provided its date survives the ISO round trip. */
  lemma SaveThenLoad(storage: ConfigStorage, config: KnobConfiguration,
                     toIso: Instant -> string, fromIso: string -> Instant)
    requires FindConfiguration(LoadAllConfigurations(true, storage), config.id).None?
    requires fromIso(toIso(config.createdAt)) == config.createdAt
    ensures var saved := Stored(LoadAllConfigurations(true, storage) + [ToStored(config, toIso)]);
            LoadConfiguration(true, saved, config.id, fromIso) == Some(config)
  {
    var before := LoadAllConfigurations(true, storage);
    FindAfterAppend(before, ToStored(config, toIso), config.id);
    StoredRoundTrip(config, toIso, fromIso);
  }

  /** Saving does not de-duplicate ids: when an entry with the id exists
      already, a lookup keeps finding that earlier entry. */
  lemma SaveKeepsEarlierEntry(storage: ConfigStorage, config: KnobConfiguration, id: string,
                              toIso: Instant -> string, fromIso: string -> Instant)
    requires FindConfiguration(LoadAllConfigurations(true, storage), id).Some?
    ensures var saved := Stored(LoadAllConfigurations(true, storage) + [ToStored(config, toIso)]);
            LoadConfiguration(true, saved, id, fromIso) == LoadConfiguration(true, storage, id, fromIso)
  {
    var before := LoadAllConfigurations(true, storage);
    FindAfterAppend(before, ToStored(config, toIso), id);
  }

  /** After a delete, nothing is found under the id, and every other id
      finds what it found before. */
  lemma DeleteThenLoad(storage: ConfigStorage, id: string, other: string, fromIso: string -> Instant)
    requires other != id
    ensures var deleted := Stored(WithoutConfiguration(LoadAllConfigurations(true, storage), id));
            LoadConfiguration(true, deleted, id, fromIso).None?
            && LoadConfiguration(true, deleted, other, fromIso) == LoadConfiguration(true, storage, other, fromIso)
  {
    var before := LoadAllConfigurations(true, storage);
    FindFirstFilter(before, (c: StoredConfiguration) => c.id == other, (c: StoredConfiguration) => c.id != id);
  }

  /** The storage key `cognitive-knobs-configs`; outside a browser it is
      never read or written. */
  class ConfigurationStore {
    const browser: bool
    var storage: ConfigStorage

    constructor (browser: bool, storage: ConfigStorage)
      ensures this.browser == browser && this.storage == storage
    {
      this.browser := browser;
      this.storage := storage;
    }

    /** `saveConfiguration`: in a browser, the loaded list (empty if the key
        was absent or corrupt) with the new entry appended is written back.
        A failed write (`writeOk` false) is caught and leaves the key as it
        was. */
    method SaveConfiguration(config: KnobConfiguration, toIso: Instant -> string, writeOk: bool)
      modifies this
      ensures storage == if browser && writeOk
                         then Stored(LoadAllConfigurations(browser, old(storage)) + [ToStored(config, toIso)])
                         else old(storage)
    {
      if !browser {
        return;
      }
      var configs := LoadAllConfigurations(browser, storage);
      configs := configs + [ToStored(config, toIso)];
      if writeOk {
        storage := Stored(configs);
      }
    }

    /** `deleteConfiguration`: in a browser, the loaded list without the id
        is written back. Nothing catches a failed write here: it raises to
        the caller (`threw`) and leaves the key as it was. */
    method DeleteConfiguration(id: string, writeOk: bool) returns (threw: bool)
      modifies this
      ensures threw == (browser && !writeOk)
      ensures storage == if browser && writeOk
                         then Stored(WithoutConfiguration(LoadAllConfigurations(browser, old(storage)), id))
                         else old(storage)
    {
      threw := false;
      if !browser {
        return;
      }
      var configs := Filter(LoadAllConfigurations(browser, storage), (c: StoredConfiguration) => c.id != id);
      if writeOk {
        storage := Stored(configs);
      } else {
        threw := true;
      }
    }
  }
}

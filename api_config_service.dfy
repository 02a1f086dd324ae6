/** Resolving and saving the API configuration: a per-user row in the hosted
    `user_api_configs` table when someone is signed in, otherwise a record
    under the `clearCueApiConfig` key of the browser's local storage. */
module ApiConfigService {
  import opened Types

  /** The configuration used when nothing better is known. */
  const DefaultConfig: ApiConfig := ApiConfig(
    "gemini", "gemini-2.5-flash", "", "", "", "6918b060522a1fa0d931dad6")

  /** The hosted store's error code for "no rows", which is not a failure here. */
  const NoRowsCode: string := "PGRST116"

  // ---------------------------------------------------------------------
  // Browser storage
  // ---------------------------------------------------------------------

  /** A parsed local record: `Some` for each key the JSON object has. */
  datatype StoredConfig = StoredConfig(
    provider: Option<string>,
    model: Option<string>,
    geminiKey: Option<string>,
    openAIKey: Option<string>,
    youtubeKey: Option<string>,
    youtubeTranscriptKey: Option<string>)

  function Present(v: Option<string>, fallback: string): string
  {
    if v.Some? then v.value else fallback
  }

  /** `{ ...DEFAULT_CONFIG, ...parsed }`: a key the record has wins, even
      when its value is empty; a missing key keeps its default. */
  function Overlay(stored: StoredConfig): (c: ApiConfig)
    ensures stored.provider.Some? ==> c.provider == stored.provider.value
    ensures stored.provider.None? ==> c.provider == DefaultConfig.provider
    ensures stored.model.Some? ==> c.model == stored.model.value
    ensures stored.model.None? ==> c.model == DefaultConfig.model
    ensures stored.geminiKey.Some? ==> c.geminiKey == stored.geminiKey.value
    ensures stored.geminiKey.None? ==> c.geminiKey == DefaultConfig.geminiKey
    ensures stored.openAIKey.Some? ==> c.openAIKey == stored.openAIKey.value
    ensures stored.openAIKey.None? ==> c.openAIKey == DefaultConfig.openAIKey
    ensures stored.youtubeKey.Some? ==> c.youtubeKey == stored.youtubeKey.value
    ensures stored.youtubeKey.None? ==> c.youtubeKey == DefaultConfig.youtubeKey
    ensures stored.youtubeTranscriptKey.Some? ==> c.youtubeTranscriptKey == stored.youtubeTranscriptKey.value
    ensures stored.youtubeTranscriptKey.None? ==> c.youtubeTranscriptKey == DefaultConfig.youtubeTranscriptKey
  {
    ApiConfig(
      Present(stored.provider, DefaultConfig.provider),
      Present(stored.model, DefaultConfig.model),
      Present(stored.geminiKey, DefaultConfig.geminiKey),
      Present(stored.openAIKey, DefaultConfig.openAIKey),
      Present(stored.youtubeKey, DefaultConfig.youtubeKey),
      Present(stored.youtubeTranscriptKey, DefaultConfig.youtubeTranscriptKey))
  }

  /** `JSON.stringify(config)` writes every key. */
  function FullRecord(c: ApiConfig): StoredConfig
  {
    StoredConfig(Some(c.provider), Some(c.model), Some(c.geminiKey),
                 Some(c.openAIKey), Some(c.youtubeKey), Some(c.youtubeTranscriptKey))
  }

  /** `getLocalConfig`: nothing stored, or nothing readable, gives the
      defaults; a record is laid over them. */
  function LocalConfig(entry: Slot<StoredConfig>): (c: ApiConfig)
    ensures !entry.Stored? ==> c == DefaultConfig
    ensures entry.Stored? ==> c == Overlay(entry.value)
  {
    match entry
    case Stored(record) => Overlay(record)
    case _ => DefaultConfig
  }

  /** An empty stored object reads as the defaults. */
  lemma EmptyRecordIsDefault()
    ensures LocalConfig(Stored(StoredConfig(None, None, None, None, None, None))) == DefaultConfig
  {
  }

  /** What the browser store writes, it reads back unchanged. */
  lemma LocalRoundTrip(c: ApiConfig)
    ensures LocalConfig(Stored(FullRecord(c))) == c
  {
  }

  // ---------------------------------------------------------------------
  // Hosted table
  // ---------------------------------------------------------------------

  /** The selected columns of a `user_api_configs` row; `None` is SQL null. */
  datatype ConfigRow = ConfigRow(
    provider: Option<string>,
    model: Option<string>,
    gemini_key: Option<string>,
    openai_key: Option<string>,
    youtube_key: Option<string>,
    youtube_transcript_key: Option<string>)

  datatype DbError = DbError(code: string, message: string)

  /** JavaScript's `value || fallback` for a string column: null and the
      empty string are both falsy. */
  function OrElse(v: Option<string>, fallback: string): (r: string)
    ensures v.Some? && v.value != "" ==> r == v.value
    ensures v.None? || v.value == "" ==> r == fallback
  {
    if v.Some? && v.value != "" then v.value else fallback
  }

  /** The row-to-config mapping with its per-column fallbacks. Unlike the
      default record, an empty transcript key stays empty. */
  function RowToConfig(row: ConfigRow): (c: ApiConfig)
    ensures c.provider == OrElse(row.provider, "gemini")
    ensures c.model == OrElse(row.model, "gemini-2.5-flash")
    ensures c.geminiKey == OrElse(row.gemini_key, "")
    ensures c.openAIKey == OrElse(row.openai_key, "")
    ensures c.youtubeKey == OrElse(row.youtube_key, "")
    ensures c.youtubeTranscriptKey == OrElse(row.youtube_transcript_key, "")
    ensures c.provider != "" && c.model != ""
  {
    ApiConfig(
      OrElse(row.provider, "gemini"),
      OrElse(row.model, "gemini-2.5-flash"),
      OrElse(row.gemini_key, ""),
      OrElse(row.openai_key, ""),
      OrElse(row.youtube_key, ""),
      OrElse(row.youtube_transcript_key, ""))
  }

  /** The columns an upsert writes for a configuration. */
  function ConfigToRow(c: ApiConfig): ConfigRow
  {
    ConfigRow(Some(c.provider), Some(c.model), Some(c.geminiKey),
              Some(c.openAIKey), Some(c.youtubeKey), Some(c.youtubeTranscriptKey))
  }

  /** The answer of `getApiConfig` for a signed-in user, from the lookup's
      `data` and `error`: an error other than "no rows" falls back to the
      defaults, a row is mapped, and no row gives the defaults. */
  function ResolveRemote(data: Option<ConfigRow>, error: Option<DbError>): (c: ApiConfig)
    ensures error.Some? && error.value.code != NoRowsCode ==> c == DefaultConfig
    ensures data.None? ==> c == DefaultConfig
    ensures (error.None? || error.value.code == NoRowsCode) && data.Some? ==> c == RowToConfig(data.value)
  {
    if error.Some? && error.value.code != NoRowsCode then DefaultConfig
    else if data.Some? then RowToConfig(data.value)
    else DefaultConfig
  }

  /** A row saved from a configuration reads back as that configuration,
      provided its provider and model are not empty. */
  lemma RemoteRoundTrip(c: ApiConfig)
    requires c.provider != "" && c.model != ""
    ensures ResolveRemote(Some(ConfigToRow(c)), None) == c
  {
  }

  /** A saved empty provider or model does not read back: the mapping
      replaces it with the Gemini default. */
  lemma RemoteRoundTripReplacesEmpty(c: ApiConfig)
    requires c.provider == ""
    ensures ResolveRemote(Some(ConfigToRow(c)), None) != c
    ensures ResolveRemote(Some(ConfigToRow(c)), None).provider == "gemini"
  {
  }

  /** A row whose columns are all null does not give the default record: its
      transcript key comes out empty where the default has a key. */
  lemma NullRowIsNotDefault()
    ensures RowToConfig(ConfigRow(None, None, None, None, None, None)).youtubeTranscriptKey == ""
    ensures RowToConfig(ConfigRow(None, None, None, None, None, None)) != DefaultConfig
  {
  }

  /** Both configuration stores. `remote` stands for the hosted table, keyed
      by user id; the lookups and writes against it take a `fault` that,
      when present, is the error the hosted service answers with. */
  class ConfigStore {
    var local: Slot<StoredConfig>
    var remote: map<string, ConfigRow>

    constructor (local: Slot<StoredConfig>, remote: map<string, ConfigRow>)
      ensures this.local == local && this.remote == remote
    {
      this.local := local;
      this.remote := remote;
    }

    /** `getApiConfig`. A missing row reaches the code as the "no rows"
        error, exactly as the hosted service reports it. */
    method GetApiConfig(user: Option<string>, fault: Option<DbError>) returns (c: ApiConfig)
      ensures user.None? ==> c == LocalConfig(local)
      ensures user.Some? && fault.Some? ==> c == DefaultConfig
      ensures user.Some? && fault.None? && user.value !in remote ==> c == DefaultConfig
      ensures user.Some? && fault.None? && user.value in remote ==> c == RowToConfig(remote[user.value])
    {
      if user.Some? {
        var data: Option<ConfigRow>;
        var error: Option<DbError>;
        if fault.Some? {
          data, error := None, fault;
        } else if user.value in remote {
          data, error := Some(remote[user.value]), None;
        } else {
          data, error := None, Some(DbError(NoRowsCode, "no rows returned"));
        }
        c := ResolveRemote(data, error);
      } else {
        c := LocalConfig(local);
      }
    }

    /** `saveLocalConfig`: a refused write is swallowed. */
    method SaveLocalConfig(config: ApiConfig, accepted: bool)
      modifies this
      ensures local == if accepted then Stored(FullRecord(config)) else old(local)
      ensures remote == old(remote)
    {
      if accepted {
        local := Stored(FullRecord(config));
      }
    }

    /** `saveApiConfig`: the hosted write replaces the user's whole row and
        raises the service's message on failure; the browser write never
        raises. */
    method SaveApiConfig(config: ApiConfig, user: Option<string>, fault: Option<DbError>, accepted: bool)
      returns (outcome: Outcome<string>)
      modifies this
      ensures user.None? ==> outcome == Pass && remote == old(remote)
      ensures user.None? ==> local == if accepted then Stored(FullRecord(config)) else old(local)
      ensures user.Some? && fault.Some? ==>
        outcome == Fail(fault.value.message) && local == old(local) && remote == old(remote)
      ensures user.Some? && fault.None? ==>
        outcome == Pass && local == old(local) && remote == old(remote)[user.value := ConfigToRow(config)]
    {
      if user.Some? {
        if fault.Some? {
          outcome := Fail(fault.value.message);
        } else {
          remote := remote[user.value := ConfigToRow(config)];
          outcome := Pass;
        }
      } else {
        SaveLocalConfig(config, accepted);
        outcome := Pass;
      }
    }
  }

  /** A signed-out save followed by a load gives back the saved record. */
  method LocalSaveThenLoad(store: ConfigStore, config: ApiConfig) returns (loaded: ApiConfig)
    modifies store
    ensures loaded == config
  {
    var outcome := store.SaveApiConfig(config, None, None, true);
    loaded := store.GetApiConfig(None, None);
    LocalRoundTrip(config);
  }

  /** A signed-in save followed by a load gives back the saved record when
      its provider and model are set. */
  method RemoteSaveThenLoad(store: ConfigStore, user: string, config: ApiConfig) returns (loaded: ApiConfig)
    requires config.provider != "" && config.model != ""
    modifies store
    ensures loaded == config
  {
    var outcome := store.SaveApiConfig(config, Some(user), None, true);
    loaded := store.GetApiConfig(Some(user), None);
    RemoteRoundTrip(config);
  }
}

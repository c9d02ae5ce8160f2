/** Application settings kept as one JSON object in a config file: the API
    key, the transcription provider and the maximum recording time. Every
    save re-reads the whole object, changes its own keys and writes the whole
    object back, so that keys it does not own survive. */
module Settings {

  datatype Option<T> = None | Some(value: T)

  /** A JSON value as the config file holds it; `Null` is also what a
      lookup of a missing key yields. */
  datatype Value =
    | Null
    | Bool(b: bool)
    | Int(i: int)
    | Str(s: string)
    | Array(items: seq<Value>)
    | Object(fields: map<string, Value>)

  /** The top-level JSON object of the config file. */
  type Config = map<string, Value>

  const ApiKeyField: string := "api_key"
  const ProviderField: string := "provider"
  const MaxRecordingTimeField: string := "max_recording_time"
  const DefaultProvider: string := "groq"

  /** `config.get(key, default)`. */
  function Get(config: Config, key: string, default: Value): (v: Value)
    ensures key in config ==> v == config[key]
    ensures key !in config ==> v == default
  {
    if key in config then config[key] else default
  }

  /** `config.update(changes)`: the keys of `changes` take their new values,
      every other key keeps its old one. */
  function Update(config: Config, changes: Config): (updated: Config)
    ensures updated.Keys == config.Keys + changes.Keys
    ensures forall k :: k in changes ==> updated[k] == changes[k]
    ensures forall k :: k in config && k !in changes ==> updated[k] == config[k]
  {
    config + changes
  }

  /** `_load_config`: the stored object, or an empty one when the file is missing. */
  function LoadConfig(file: Option<Config>): (config: Config)
    ensures file.None? ==> config == map[]
    ensures file.Some? ==> config == file.value
  {
    match file
    case None => map[]
    case Some(config) => config
  }

  /** What `load_api_key` reads from a loaded config: the key (`Null` when
      absent) and the provider (`"groq"` when absent). */
  function ApiKeyOf(config: Config): (r: (Value, Value))
    ensures r.0 == (if ApiKeyField in config then config[ApiKeyField] else Null)
    ensures r.1 == (if ProviderField in config then config[ProviderField] else Str(DefaultProvider))
  {
    (Get(config, ApiKeyField, Null), Get(config, ProviderField, Str(DefaultProvider)))
  }

  /** What `load_max_recording_time` reads from a loaded config. */
  function MaxRecordingTimeOf(config: Config): (limit: Value)
    ensures MaxRecordingTimeField in config ==> limit == config[MaxRecordingTimeField]
    ensures MaxRecordingTimeField !in config ==> limit == Null
  {
    Get(config, MaxRecordingTimeField, Null)
  }

  /** The JSON form of an optional number of seconds. */
  function OptionalInt(t: Option<int>): Value
  {
    match t
    case None => Null
    case Some(n) => Int(n)
  }

  /** The config after `config.update({'api_key': k, 'provider': p})`. */
  function WithApiKey(config: Config, apiKey: string, provider: string): (updated: Config)
    ensures ApiKeyOf(updated) == (Str(apiKey), Str(provider))
    ensures updated.Keys == config.Keys + {ApiKeyField, ProviderField}
    ensures forall k :: k in config && k != ApiKeyField && k != ProviderField ==> updated[k] == config[k]
  {
    Update(config, map[ApiKeyField := Str(apiKey), ProviderField := Str(provider)])
  }

  /** The config after `config['max_recording_time'] = t`. */
  function WithMaxRecordingTime(config: Config, maxTime: Option<int>): (updated: Config)
    ensures MaxRecordingTimeOf(updated) == OptionalInt(maxTime)
    ensures updated.Keys == config.Keys + {MaxRecordingTimeField}
    ensures forall k :: k in config && k != MaxRecordingTimeField ==> updated[k] == config[k]
  {
    config[MaxRecordingTimeField := OptionalInt(maxTime)]
  }

  /** A missing file reads as no key, the default provider and no time limit. */
  lemma MissingFileDefaults()
    ensures LoadConfig(None) == map[]
    ensures ApiKeyOf(LoadConfig(None)) == (Null, Str(DefaultProvider))
    ensures MaxRecordingTimeOf(LoadConfig(None)) == Null
  {
  }

  /** Saving the API key leaves the recording time as it was, and saving the
      recording time leaves the key and the provider as they were. */
  lemma SavesAreIndependent(config: Config, apiKey: string, provider: string, maxTime: Option<int>)
    ensures MaxRecordingTimeOf(WithApiKey(config, apiKey, provider)) == MaxRecordingTimeOf(config)
    ensures ApiKeyOf(WithMaxRecordingTime(config, maxTime)) == ApiKeyOf(config)
  {
  }

  /** Saving the same values twice is the same as saving them once. */
  lemma SavesAreIdempotent(config: Config, apiKey: string, provider: string, maxTime: Option<int>)
    ensures WithApiKey(WithApiKey(config, apiKey, provider), apiKey, provider)
         == WithApiKey(config, apiKey, provider)
    ensures WithMaxRecordingTime(WithMaxRecordingTime(config, maxTime), maxTime)
         == WithMaxRecordingTime(config, maxTime)
  {
  }

  class SettingsManager {
    /** The contents of the config file; `None` while it does not exist. */
    var file: Option<Config>

    constructor (file: Option<Config>)
      ensures this.file == file
    {
      this.file := file;
    }

    /** `_save_config`: overwrites the file with `config`. */
    method SaveConfig(config: Config)
      modifies this
      ensures file == Some(config)
    {
      file := Some(config);
    }

    method SaveApiKey(apiKey: string, provider: string := DefaultProvider)
      modifies this
      ensures file == Some(WithApiKey(LoadConfig(old(file)), apiKey, provider))
      ensures LoadApiKey() == (Str(apiKey), Str(provider))
      ensures LoadMaxRecordingTime() == old(LoadMaxRecordingTime())
      ensures forall k :: k in LoadConfig(old(file)) && k != ApiKeyField && k != ProviderField ==>
                k in LoadConfig(file) && LoadConfig(file)[k] == LoadConfig(old(file))[k]
    {
      var config := LoadConfig(file);
      config := WithApiKey(config, apiKey, provider);
      SaveConfig(config);
    }

    /** The stored key and provider; the defaults when they were never saved. */
    function LoadApiKey(): (r: (Value, Value))
      reads this
      ensures file == None ==> r == (Null, Str(DefaultProvider))
      ensures ApiKeyField !in LoadConfig(file) ==> r.0 == Null
      ensures ProviderField !in LoadConfig(file) ==> r.1 == Str(DefaultProvider)
    {
      ApiKeyOf(LoadConfig(file))
    }

    method SaveMaxRecordingTime(maxTime: Option<int>)
      modifies this
      ensures file == Some(WithMaxRecordingTime(LoadConfig(old(file)), maxTime))
      ensures LoadMaxRecordingTime() == OptionalInt(maxTime)
      ensures LoadApiKey() == old(LoadApiKey())
      ensures forall k :: k in LoadConfig(old(file)) && k != MaxRecordingTimeField ==>
                k in LoadConfig(file) && LoadConfig(file)[k] == LoadConfig(old(file))[k]
    {
      var config := LoadConfig(file);
      config := WithMaxRecordingTime(config, maxTime);
      SaveConfig(config);
    }

    /** The stored recording limit; `Null` when it was never saved. */
    function LoadMaxRecordingTime(): (r: Value)
      reads this
      ensures MaxRecordingTimeField !in LoadConfig(file) ==> r == Null
    {
      MaxRecordingTimeOf(LoadConfig(file))
    }
  }
}

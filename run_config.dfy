/** evoselfcode/config.py: the run configuration record and its dotted-key
    lookup. Its `_deep_merge_dict` is the same function as
    `CoreConfig.Merged`, computed by `CoreConfig.DeepMerge`. */
module RunConfigs {
  import opened Text
  import opened Json
  import opened CoreConfig

  /** `load_config(config_path)`: no path gives `{}`; reading and parsing a
      YAML file is the given `load`. */
  function LoadConfig(configPath: Option<string>, load: string -> map<string, Value>): (r: map<string, Value>)
    ensures configPath.None? ==> r == map[]
    ensures configPath.Some? ==> r == load(configPath.value)
  {
    if configPath.None? then map[] else load(configPath.value)
  }

  datatype RunConfig = RunConfig(config: map<string, Value>, configPath: Option<string>)
  {
    /** `RunConfig.get(dotted_key, default)` */
    method Get(dottedKey: string, default: Value) returns (r: Value)
      ensures r == Lookup(Dict(config), Split(dottedKey, '.'), default)
    {
      r := WalkPath(config, dottedKey, default);
    }
  }

  /** `RunConfig.from_file(config_path)`: a missing or empty path means no
      file, and then the configuration is empty. */
  function FromFile(configPath: Option<string>, load: string -> map<string, Value>): (rc: RunConfig)
    ensures (configPath.None? || configPath.value == []) ==> rc == RunConfig(map[], None)
    ensures configPath.Some? && configPath.value != [] ==> rc.configPath == configPath && rc.config == load(configPath.value)
  {
    var pathObj := if configPath.Some? && configPath.value != [] then configPath else None;
    RunConfig(LoadConfig(pathObj, load), pathObj)
  }

  /** A single-segment lookup of a missing key gives the default. */
  lemma GetMissingTopLevel(rc: RunConfig, key: string, default: Value)
    requires '.' !in key && key !in rc.config
    ensures Lookup(Dict(rc.config), Split(key, '.'), default) == default
  {
    assert IndexOf(key, '.').None?;
    assert Split(key, '.') == [key];
  }
}

/** evoselfcode/model_config.py: layering the model configuration under the
    run configuration, and reading the client settings out of the result. */
module ModelConfig {
  import opened Text
  import opened Json
  import opened CoreConfig

  /** `merge_model_config` once `model.yaml` has been read into `modelCfg`:
      the model configuration is the base and `baseConfig` overrides it. Its
      loop is `_deep_merge`'s loop with the model configuration as `base`, and
      its nested merges call `_deep_merge`, so the whole is one deep merge. */
  method MergeModelConfig(baseConfig: map<string, Value>, modelCfg: map<string, Value>) returns (result: map<string, Value>)
    ensures result == Merged(modelCfg, baseConfig)
  {
    result := DeepMerge(modelCfg, baseConfig);
  }

  /** The ten keys `get_client_config` always returns. */
  const ClientKeys: set<string> := {"base_url", "api_key", "model", "timeout_s", "max_retries",
    "use_chat_for_fim", "prefix_key", "suffix_key", "max_concurrent", "rate_limit_per_second"}

  /** The client settings of a configuration with nothing configured. */
  const DefaultClientConfig: map<string, Value> := map[
    "base_url" := Str("http://localhost:8000"),
    "api_key" := Str("EMPTY"),
    "model" := Str("Qwen2.5-Coder-32B"),
    "timeout_s" := Int(60),
    "max_retries" := Int(3),
    "use_chat_for_fim" := Bool(false),
    "prefix_key" := Str("prefix"),
    "suffix_key" := Str("suffix"),
    "max_concurrent" := Int(10),
    "rate_limit_per_second" := Null]

  /** `key` is missing from `d` or holds a dict, so `d.get(key, {}).get(...)` works. */
  predicate DictOrAbsent(d: map<string, Value>, key: string) {
    key !in d || d[key].Dict?
  }

  /** The sections `get_client_config` calls `.get` on are all usable. */
  predicate ClientSectionsUsable(config: map<string, Value>) {
    DictOrAbsent(config, "api") && DictOrAbsent(config, "models") &&
    (("api" in config) ==> DictOrAbsent(config["api"].fields, "concurrency") && DictOrAbsent(config["api"].fields, "fim"))
  }

  /** `get_client_config(config)`; `None` stands for the `AttributeError`
      Python raises when one of the sections it reads is not a dict. */
  function GetClientConfig(config: map<string, Value>): (r: Option<map<string, Value>>)
    ensures r.Some? <==> ClientSectionsUsable(config)
    ensures r.Some? ==> r.value.Keys == ClientKeys
  {
    var api := SubDict(config, "api");
    var models := SubDict(config, "models");
    if api.None? || models.None? then None
    else
      var concurrency := SubDict(api.value, "concurrency");
      var fim := SubDict(api.value, "fim");
      if concurrency.None? || fim.None? then None
      else Some(map[
        "base_url" := GetOr(api.value, "base_url", Str("http://localhost:8000")),
        "api_key" := GetOr(api.value, "api_key", Str("EMPTY")),
        "model" := GetOr(models.value, "default", Str("Qwen2.5-Coder-32B")),
        "timeout_s" := GetOr(api.value, "timeout_s", Int(60)),
        "max_retries" := GetOr(api.value, "max_retries", Int(3)),
        "use_chat_for_fim" := GetOr(fim.value, "use_chat_for_fim", Bool(false)),
        "prefix_key" := GetOr(fim.value, "prefix_key", Str("prefix")),
        "suffix_key" := GetOr(fim.value, "suffix_key", Str("suffix")),
        "max_concurrent" := GetOr(concurrency.value, "max_concurrent_requests", Int(10)),
        "rate_limit_per_second" := GetOr(concurrency.value, "rate_limit_per_second", Null)])
  }

  /** With no `api` and no `models` section every client setting takes its default. */
  lemma ClientConfigDefaults(config: map<string, Value>)
    requires "api" !in config && "models" !in config
    ensures GetClientConfig(config) == Some(DefaultClientConfig)
  {
    assert GetClientConfig(config).value.Keys == DefaultClientConfig.Keys;
  }

  /** A configured `api.base_url` is passed through unchanged. */
  lemma ConfiguredBaseUrl(config: map<string, Value>)
    requires GetClientConfig(config).Some?
    requires "api" in config && "base_url" in config["api"].fields
    ensures GetClientConfig(config).value["base_url"] == config["api"].fields["base_url"]
  {
  }

  /** `rate_limit_per_second` is `None` unless the concurrency section sets it. */
  lemma RateLimitUnsetIsNone(config: map<string, Value>)
    requires GetClientConfig(config).Some?
    requires "api" !in config || "concurrency" !in config["api"].fields
      || "rate_limit_per_second" !in config["api"].fields["concurrency"].fields
    ensures GetClientConfig(config).value["rate_limit_per_second"] == Null
  {
  }
}

/**
 * Provider endpoint resolution (utils/provider_resolver.py): an environment
 * variable named after the provider wins, then the configured URL, then a
 * built-in default; and checks that every required provider resolves.
 */
module ProviderResolver {
  import opened Wrappers
  import opened Text
  import opened OrderedDict

  /** Environment variables by name. */
  type Environment = map<string, string>

  /** `config.providers.<p>.url` by provider, for the providers whose entry has a `url` attribute. */
  type ProviderUrls = map<string, string>

  function Defaults(provider: string): Option<string> {
    if provider == "ollama" then Some("http://localhost:11434/api/generate")
    else if provider == "openai" then Some("https://api.openai.com/v1/completions")
    else None
  }

  /** `<PROVIDER>_URL`. */
  function EnvKey(provider: string): string {
    Upper(provider) + "_URL"
  }

  /** A non-empty value stored under `key`, if any (`os.getenv(key)` that is truthy). */
  function NonEmpty(m: map<string, string>, key: string): Option<string> {
    if key in m && m[key] != "" then Some(m[key]) else None
  }

  /**
   * `resolve_provider_url`: the environment first, then the configuration
   * (a missing entry is skipped silently), then the default, which is None
   * for an unknown provider.
   */
  function ResolveProviderUrl(provider: string, env: Environment, config: Option<ProviderUrls>): (r: Option<string>)
    ensures provider == "ollama" || provider == "openai" ==> r.Some?
    ensures r.Some? ==> r.value != ""
    ensures r.Some? ==> r.value in env.Values || (config.Some? && r.value in config.value.Values) || r == Defaults(provider)
  {
    if NonEmpty(env, EnvKey(provider)).Some? then NonEmpty(env, EnvKey(provider))
    else if config.Some? && NonEmpty(config.value, provider).Some? then NonEmpty(config.value, provider)
    else Defaults(provider)
  }

  /** Each source is used exactly when every source before it has nothing to offer. */
  lemma ResolvePrecedence(provider: string, env: Environment, config: Option<ProviderUrls>)
    ensures var r := ResolveProviderUrl(provider, env, config);
      var fromEnv := EnvKey(provider) in env && env[EnvKey(provider)] != "";
      var fromConfig := config.Some? && provider in config.value && config.value[provider] != "";
      && (fromEnv ==> r == Some(env[EnvKey(provider)]))
      && (!fromEnv && fromConfig ==> r == Some(config.value[provider]))
      && (!fromEnv && !fromConfig ==> r == Defaults(provider))
      && (r.None? <==> NonEmpty(env, EnvKey(provider)).None?
                       && !(config.Some? && NonEmpty(config.value, provider).Some?)
                       && provider != "ollama" && provider != "openai")
  {
  }

  /** The flag `validate_providers` stores: whether a URL resolved. */
  function Resolved(provider: string, env: Environment, config: Option<ProviderUrls>): bool {
    ResolveProviderUrl(provider, env, config).Some?
  }

  /** `validate_providers` over the first `k` required names: each name mapped to whether it resolves. */
  function ValidateFrom(required: seq<string>, env: Environment, config: Option<ProviderUrls>, k: nat): (r: Dict<bool>)
    requires k <= |required|
    ensures r.Valid()
    ensures forall p :: p in r.entries <==> p in required[..k]
    ensures forall p :: p in r.entries ==> r.entries[p] == Resolved(p, env, config)
    decreases k
  {
    if k == 0 then Empty()
    else
      var d := ValidateFrom(required, env, config, k - 1);
      assert required[..k] == required[..k - 1] + [required[k - 1]];
      d.Put(required[k - 1], Resolved(required[k - 1], env, config))
  }

  /** `validate_providers`: `{}` for no required providers, else each name mapped to whether it resolves. */
  function ValidateProviders(required: seq<string>, env: Environment, config: Option<ProviderUrls>): Dict<bool> {
    ValidateFrom(required, env, config, |required|)
  }

  /** The names of a result whose flag is false, in the result's order. */
  function Missing(keys: seq<string>, flags: map<string, bool>): (r: seq<string>)
    requires forall p :: p in keys ==> p in flags
    ensures forall p :: p in r <==> p in keys && !flags[p]
    decreases |keys|
  {
    if |keys| == 0 then []
    else (if flags[keys[0]] then [] else [keys[0]]) + Missing(keys[1..], flags)
  }

  datatype ValueError = ValueError(message: string)

  /** `ensure_providers`: raises naming the unresolved providers, in order, when there are any. */
  function EnsureProviders(required: seq<string>, env: Environment, config: Option<ProviderUrls>): (r: Result<(), ValueError>)
    ensures r.Ok? <==> forall p :: p in required ==> Resolved(p, env, config)
    ensures r.Err? ==> "Missing provider URL for: " <= r.error.message
  {
    var d := ValidateProviders(required, env, config);
    var missing := Missing(d.keys, d.entries);
    MissingExactly(required, env, config);
    if missing == [] then Ok(()) else Err(ValueError("Missing provider URL for: " + Join(missing, ", ")))
  }

  /** The names `ensure_providers` lists are exactly the required providers that do not resolve. */
  lemma MissingExactly(required: seq<string>, env: Environment, config: Option<ProviderUrls>)
    ensures var d := ValidateProviders(required, env, config);
      && (forall p :: p in Missing(d.keys, d.entries) <==> p in required && !Resolved(p, env, config))
      && (Missing(d.keys, d.entries) == [] <==> forall p :: p in required ==> Resolved(p, env, config))
  {
    assert required[..|required|] == required;
    var d := ValidateProviders(required, env, config);
    var missing := Missing(d.keys, d.entries);
    if missing != [] {
      assert missing[0] in missing;
    }
  }
}

/**
 * The language-model configuration read from the environment: defaults
 * for every setting, a default model per provider, and the validation that
 * rejects a configuration before it is used.
 *
 * The environment is given already parsed (`Env`); a value that `int` or
 * `float` cannot parse is not modelled.
 */
module Config {
  import opened Common

  const SupportedProviders: set<string> := {"openai", "ollama"}

  /** The environment variables, each present or not. */
  datatype Env = Env(
    provider: Option<string>,
    apiKey: Option<string>,
    apiBase: Option<string>,
    model: Option<string>,
    timeout: Option<int>,
    temperature: Option<real>,
    maxRetries: Option<int>)

  const EmptyEnv: Env := Env(None, None, None, None, None, None, None)

  datatype LlmConfig = LlmConfig(
    enabled: bool,
    provider: string,
    apiKey: Option<string>,
    apiBase: Option<string>,
    model: string,
    timeout: int,
    temperature: real,
    maxRetries: int)

  /** The default model of a provider: the same for both providers and for any other. */
  function DefaultModel(provider: string): (m: string)
    ensures m == "gpt-4o-mini"
  {
    var defaults := map["openai" := "gpt-4o-mini", "ollama" := "gpt-4o-mini"];
    if provider in defaults then defaults[provider] else "gpt-4o-mini"
  }

  /** `os.getenv(name, default)`: a variable that is set wins, even when empty. */
  function GetEnv<T>(v: Option<T>, default: T): T
  {
    if v.Some? then v.value else default
  }

  /** The configuration before validation. */
  function FromEnv(env: Env): (c: LlmConfig)
    ensures c.enabled
    ensures env.provider.None? ==> c.provider == "ollama"
    ensures env.model.None? ==> c.model == "gpt-4o-mini"
    ensures env.timeout.None? ==> c.timeout == 10
    ensures env.temperature.None? ==> c.temperature == 0.3
    ensures env.maxRetries.None? ==> c.maxRetries == 2
    ensures env.apiKey == c.apiKey && env.apiBase == c.apiBase
  {
    var provider := GetEnv(env.provider, "ollama");
    LlmConfig(
      true,
      provider,
      env.apiKey,
      env.apiBase,
      GetEnv(env.model, DefaultModel(provider)),
      GetEnv(env.timeout, 10),
      GetEnv(env.temperature, 0.3),
      GetEnv(env.maxRetries, 2))
  }

  /** `_validate`: the first failing check's message, in the order provider, timeout, temperature. */
  function Validate(c: LlmConfig): (err: Option<string>)
    ensures err.None? <==> c.provider in SupportedProviders && c.timeout > 0 && 0.0 <= c.temperature <= 2.0
    ensures c.provider !in SupportedProviders ==> err == Some("Unsupported LLM provider: " + c.provider)
    ensures c.provider in SupportedProviders && c.timeout <= 0 ==> err == Some("LLM_TIMEOUT must be positive")
    ensures c.provider in SupportedProviders && c.timeout > 0 && !(0.0 <= c.temperature <= 2.0) ==>
      err == Some("LLM_TEMPERATURE must be between 0 and 2")
  {
    if c.provider !in ["openai", "ollama"] then Some("Unsupported LLM provider: " + c.provider)
    else if c.timeout <= 0 then Some("LLM_TIMEOUT must be positive")
    else if !(0.0 <= c.temperature <= 2.0) then Some("LLM_TEMPERATURE must be between 0 and 2")
    else None
  }

  /** `Config()`: the configuration, or the ValueError the constructor raises. */
  function Load(env: Env): (r: Result<LlmConfig, string>)
    ensures r.Ok? ==> r.value == FromEnv(env) && Validate(r.value).None?
    ensures r.Err? ==> Validate(FromEnv(env)) == Some(r.error)
  {
    var c := FromEnv(env);
    match Validate(c)
    case Some(e) => Err(e)
    case None => Ok(c)
  }

  /** With nothing set, the defaults pass validation. */
  lemma DefaultsAreValid()
    ensures Load(EmptyEnv) == Ok(LlmConfig(true, "ollama", None, None, "gpt-4o-mini", 10, 0.3, 2))
  {
  }

  /** Validation accepts exactly the supported providers with a positive timeout and a temperature in [0, 2]. */
  lemma LoadAcceptsExactly(env: Env)
    ensures Load(env).Ok? <==>
      GetEnv(env.provider, "ollama") in SupportedProviders
      && GetEnv(env.timeout, 10) > 0
      && 0.0 <= GetEnv(env.temperature, 0.3) <= 2.0
  {
  }

  /** The retry count is never checked: any value, zero or negative, is accepted. */
  lemma RetriesAreUnchecked(env: Env, n: int)
    ensures Load(env).Ok? <==> Load(env.(maxRetries := Some(n))).Ok?
  {
  }
}

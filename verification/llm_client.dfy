/**
 * What the corrector and the translator share: how their constructor
 * arguments fall back to defaults, which chat client a provider gets, and
 * the request each of them sends.
 *
 * The chat-completion endpoint is the function `complete` of each class;
 * environment variables are not read, so a missing argument takes the
 * default the environment lookup would fall back to.
 */
module Llm {
  import opened Common
  import opened Text
  import Config

  const OllamaBaseUrl: string := "http://localhost:11434/v1"
  const OllamaApiKey: string := "ollama"
  const MaxTokens: nat := 500
  const DefaultTimeout: int := 10
  const DefaultTemperature: real := 0.3
  /** What `str(e)` gives when the reply's content is None and `.strip()` is called on it. */
  const NoneContentError: string := "'NoneType' object has no attribute 'strip'"

  /** The constructor's settings after the fallbacks. */
  datatype Settings = Settings(
    provider: string,
    apiKey: Option<string>,
    apiBase: Option<string>,
    model: string,
    timeout: int,
    temperature: real)

  /** Python truthiness of an optional argument: absent, "" , 0 and 0.0 are all false. */
  predicate GivenStr(v: Option<string>) { v.Some? && v.value != "" }
  predicate GivenInt(v: Option<int>) { v.Some? && v.value != 0 }
  predicate GivenReal(v: Option<real>) { v.Some? && v.value != 0.0 }

  /** `arg or default` for every constructor argument. */
  function SettingsFrom(provider: Option<string>, apiKey: Option<string>, apiBase: Option<string>,
                        model: Option<string>, timeout: Option<int>, temperature: Option<real>): (s: Settings)
    ensures GivenStr(provider) ==> s.provider == provider.value
    ensures !GivenStr(provider) ==> s.provider == "ollama"
    ensures s.apiKey == (if GivenStr(apiKey) then apiKey else None)
    ensures s.apiBase == (if GivenStr(apiBase) then apiBase else None)
    ensures s.model == (if GivenStr(model) then model.value else "gpt-4o-mini")
    ensures s.timeout == (if GivenInt(timeout) then timeout.value else DefaultTimeout)
    ensures s.temperature == (if GivenReal(temperature) then temperature.value else DefaultTemperature)
  {
    var p := if GivenStr(provider) then provider.value else "ollama";
    Settings(
      p,
      if GivenStr(apiKey) then apiKey else None,
      if GivenStr(apiBase) then apiBase else None,
      if GivenStr(model) then model.value else Config.DefaultModel(p),
      if GivenInt(timeout) then timeout.value else DefaultTimeout,
      if GivenReal(temperature) then temperature.value else DefaultTemperature)
  }

  /**
   * Because the fallbacks test truthiness, a timeout of 0 and a temperature
   * of 0.0 are not kept: they become 10 and 0.3, as if they were absent.
   */
  lemma FalsyArgumentsBecomeDefaults(provider: Option<string>, apiKey: Option<string>, apiBase: Option<string>,
                                     model: Option<string>)
    ensures SettingsFrom(provider, apiKey, apiBase, model, Some(0), Some(0.0))
         == SettingsFrom(provider, apiKey, apiBase, model, None, None)
    ensures SettingsFrom(provider, apiKey, apiBase, model, Some(0), Some(0.0)).temperature == 0.3
  {
  }

  /** The chat client's settings. */
  datatype Client = Client(baseUrl: Option<string>, apiKey: Option<string>, timeout: int)

  /** The client a provider gets; None for a provider other than "openai" and "ollama". */
  function ClientFor(s: Settings): (c: Option<Client>)
    ensures c.Some? <==> s.provider in Config.SupportedProviders
    ensures c.Some? ==> c.value.timeout == s.timeout
    ensures s.provider == "ollama" ==>
      c == Some(Client(Some(if s.apiBase.Some? then s.apiBase.value else OllamaBaseUrl), Some(OllamaApiKey), s.timeout))
    ensures s.provider == "openai" ==> c == Some(Client(None, s.apiKey, s.timeout))
  {
    if s.provider == "openai" then Some(Client(None, s.apiKey, s.timeout))
    else if s.provider == "ollama" then
      Some(Client(Some(if s.apiBase.Some? then s.apiBase.value else OllamaBaseUrl), Some(OllamaApiKey), s.timeout))
    else None
  }

  /** The prompt's variable parts; the fixed wording around them is not modelled. */
  datatype Prompt =
    | CorrectionPrompt(text: string, languageName: string)
    | TranslationPrompt(text: string, targetLanguage: string)

  /** One chat-completion call: a single user message with the prompt. */
  datatype Request = Request(model: string, prompt: Prompt, temperature: real, maxTokens: nat)

  function RequestFor(s: Settings, p: Prompt): (r: Request)
    ensures r.model == s.model && r.prompt == p && r.temperature == s.temperature && r.maxTokens == MaxTokens
  {
    Request(s.model, p, s.temperature, MaxTokens)
  }

  /** What the endpoint gives: the first choice's content (possibly None), or an exception's message. */
  datatype Completion = Reply(content: Option<string>) | Raised(error: string)

  /** `response.choices[0].message.content.strip()`: the stripped text, or the message of the exception. */
  function ReplyText(c: Completion): (r: Result<string, string>)
    ensures c.Raised? ==> r == Err(c.error)
    ensures c.Reply? && c.content.None? ==> r == Err(NoneContentError)
    ensures c.Reply? && c.content.Some? ==> r.Ok? && r.value == Strip(c.content.value)
  {
    match c
    case Raised(e) => Err(e)
    case Reply(content) =>
      if content.None? then Err(NoneContentError) else Ok(Strip(content.value))
  }
}

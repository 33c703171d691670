/**
 * The transcription corrector: sends a non-blank transcription to the
 * language model and reports the model's stripped reply as the correction,
 * or the original text with an error code when that is not possible.
 */
module Corrector {
  import opened Common
  import opened Text
  import opened Llm

  /** The dictionary `correct` returns; `error` is absent on success and on a passthrough. */
  datatype CorrectionResult = CorrectionResult(
    correctedText: string, originalText: string, isCorrected: bool, error: Option<string>)

  /** Python's `not text or not text.strip()`. */
  predicate Blank(text: string)
  {
    text == "" || AllSpace(text)
  }

  /** The language named in the prompt: Chinese for "zh" and "chinese", English otherwise. */
  function LanguageName(language: string): (n: string)
    ensures n == "中文" <==> language in {"zh", "chinese"}
    ensures n == "中文" || n == "English"
  {
    if language in ["zh", "chinese"] then "中文" else "English"
  }

  /** The text handed back unchanged, with an optional error code. */
  function Unchanged(text: string, error: Option<string>): (r: CorrectionResult)
    ensures r.correctedText == text == r.originalText && !r.isCorrected && r.error == error
  {
    CorrectionResult(text, text, false, error)
  }

  /**
   * The result built from the model's reply: the stripped reply when it is
   * non-empty, "empty_response" when it strips to nothing, the exception's
   * message when the call or the strip raised.
   */
  function Answer(text: string, c: Completion): (r: CorrectionResult)
    ensures r.originalText == text
    ensures r.isCorrected <==> r.correctedText != text
    ensures r.error.Some? ==> r.correctedText == text
    ensures r.error.None? <==> ReplyText(c).Ok? && ReplyText(c).value != ""
    ensures r.error.None? ==> r.correctedText == ReplyText(c).value
    ensures ReplyText(c) == Ok("") ==> r.error == Some("empty_response")
    ensures ReplyText(c).Err? ==> r.error == Some(ReplyText(c).error)
  {
    match ReplyText(c)
    case Err(e) => Unchanged(text, Some(e))
    case Ok(corrected) =>
      if corrected == "" then Unchanged(text, Some("empty_response"))
      else CorrectionResult(corrected, text, corrected != text, None)
  }

  /** A non-blank text never gets an empty or all-whitespace correction. */
  lemma AnswerNeverEmpty(text: string, c: Completion)
    requires !Blank(text)
    ensures Answer(text, c).correctedText != "" && !AllSpace(Answer(text, c).correctedText)
  {
  }

  class LlmCorrector {
    const settings: Settings
    var enabled: bool
    var isInitialized: bool
    var client: Option<Client>
    /** The chat-completion endpoint. */
    const complete: Request -> Completion

    ghost predicate Valid()
      reads this
    {
      isInitialized ==> enabled && client.Some? && client == ClientFor(settings)
    }

    constructor (provider: Option<string>, apiKey: Option<string>, apiBase: Option<string>,
                 model: Option<string>, timeout: Option<int>, temperature: Option<real>,
                 complete: Request -> Completion)
      ensures Valid()
      ensures settings == SettingsFrom(provider, apiKey, apiBase, model, timeout, temperature)
      ensures enabled && !isInitialized && client.None? && this.complete == complete
    {
      settings := SettingsFrom(provider, apiKey, apiBase, model, timeout, temperature);
      enabled := true;
      isInitialized := false;
      client := None;
      this.complete := complete;
    }

    /**
     * `initialize`: nothing when disabled or already initialized; otherwise
     * the client is created, or, when the package is missing, the provider
     * is unsupported or the client's constructor raises, correction is
     * switched off for good.
     */
    method Initialize(packageInstalled: bool, clientError: Option<string>)
      requires Valid()
      modifies this
      ensures Valid()
      ensures !old(enabled) || old(isInitialized) ==>
        (enabled == old(enabled) && isInitialized == old(isInitialized) && client == old(client))
      ensures old(enabled) && !old(isInitialized) ==>
        var ok := packageInstalled && ClientFor(settings).Some? && clientError.None?;
        isInitialized == ok && enabled == ok && client == (if ok then ClientFor(settings) else old(client))
    {
      if !enabled {
        return;
      }
      if isInitialized {
        return;
      }
      if !packageInstalled {
        enabled := false;
        return;
      }
      var c := ClientFor(settings);
      if c.None? || clientError.Some? {
        enabled := false;
        return;
      }
      client := c;
      isInitialized := true;
    }

    /**
     * `correct`: a blank text, or a corrector switched off, hands the text
     * back without an error and without initializing; otherwise the
     * corrector is initialized on first use, "not_initialized" is reported
     * when that failed, and the model's reply decides the rest.
     */
    method Correct(text: string, language: string, packageInstalled: bool, clientError: Option<string>)
      returns (r: CorrectionResult)
      requires Valid()
      modifies this
      ensures Valid()
      ensures !old(enabled) || Blank(text) ==>
        (r == Unchanged(text, None)
         && enabled == old(enabled) && isInitialized == old(isInitialized) && client == old(client))
      ensures old(enabled) && !Blank(text) ==>
        (old(isInitialized) ==> enabled && isInitialized && client == old(client))
        && (!old(isInitialized) ==>
              isInitialized == enabled == (packageInstalled && ClientFor(settings).Some? && clientError.None?))
        && r == (if !isInitialized then Unchanged(text, Some("not_initialized"))
                 else Answer(text, complete(RequestFor(settings, CorrectionPrompt(text, LanguageName(language))))))
    {
      if !enabled || text == "" || AllSpace(text) {
        return Unchanged(text, None);
      }
      if !isInitialized {
        Initialize(packageInstalled, clientError);
      }
      if !isInitialized || client.None? {
        return Unchanged(text, Some("not_initialized"));
      }
      var prompt := CorrectionPrompt(text, LanguageName(language));
      var response := complete(RequestFor(settings, prompt));
      r := Answer(text, response);
    }
  }
}

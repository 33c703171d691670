/**
 * The translator: asks the language model for a translation wrapped in a
 * <translated> tag and reports the tag's stripped content, or the original
 * text with an error code when that is not possible.
 */
module Translator {
  import opened Common
  import opened Text
  import opened Llm

  const OpenTag: string := "<translated>"
  const CloseTag: string := "</translated>"

  /** The dictionary `translate` returns; `error` is absent on success and on a passthrough. */
  datatype TranslationResult = TranslationResult(
    translatedText: string, originalText: string, isTranslated: bool, error: Option<string>)

  function Unchanged(text: string, error: Option<string>): (r: TranslationResult)
    ensures r.translatedText == text == r.originalText && !r.isTranslated && r.error == error
  {
    TranslationResult(text, text, false, error)
  }

  /**
   * `_extract_translated_text`: the stripped text between the first opening
   * tag and the first closing tag after it (the lazy, dot-matches-newline
   * pattern), or the fallback when there is no such pair.
   */
  function ExtractTranslated(response: string, fallback: string): (r: string)
    ensures var open := FindFrom(response, OpenTag, 0);
      open.None? || FindFrom(response, CloseTag, open.value + |OpenTag|).None? ==> r == fallback
    ensures var open := FindFrom(response, OpenTag, 0);
      open.Some? && FindFrom(response, CloseTag, open.value + |OpenTag|).Some? ==>
        r == Strip(response[open.value + |OpenTag|..FindFrom(response, CloseTag, open.value + |OpenTag|).value])
  {
    match FindFrom(response, OpenTag, 0)
    case None => fallback
    case Some(i) =>
      match FindFrom(response, CloseTag, i + |OpenTag|)
      case None => fallback
      case Some(j) => Strip(response[i + |OpenTag|..j])
  }

  /** `pat` occurs nowhere in `s` from `from` up to (not including) `k`. */
  predicate AbsentBetween(s: string, pat: string, from: nat, k: nat)
  {
    forall m: nat :: from <= m < k ==> !OccursAt(s, pat, m)
  }

  /** `FindFrom` gives the first occurrence: pinning it down from an occurrence and its absence before. */
  lemma FindFromIs(s: string, pat: string, from: nat, k: nat)
    requires from <= k && OccursAt(s, pat, k)
    requires AbsentBetween(s, pat, from, k)
    ensures FindFrom(s, pat, from) == Some(k)
  {
  }

  /** Inside a wrapped text the closing tag occurs only at its real position. */
  lemma NoEarlyCloseTag(t: string, m: nat)
    requires !Contains(t, CloseTag)
    requires |OpenTag| <= m < |OpenTag| + |t|
    ensures !OccursAt(OpenTag + t + CloseTag, CloseTag, m)
  {
    var s := OpenTag + t + CloseTag;
    var n := |OpenTag|;
    var k := n + |t|;
    if m + |CloseTag| <= k {
      assert t[m - n..m - n + |CloseTag|] == s[m..m + |CloseTag|];
      assert !OccursAt(t, CloseTag, m - n);
    } else {
      // The real closing tag's '<' would sit inside this occurrence, past
      // its first character, where the tag has no '<'.
      assert s[k] == '<';
      assert s[m..m + |CloseTag|][k - m] == s[k];
      assert CloseTag[k - m] != '<';
    }
  }

  lemma OccursAtStart(pat: string, rest: string)
    ensures OccursAt(pat + rest, pat, 0)
  {
    assert (pat + rest)[..|pat|] == pat;
  }

  lemma OccursAtEnd(front: string, pat: string)
    ensures OccursAt(front + pat, pat, |front|)
  {
    assert (front + pat)[|front|..] == pat;
  }

  lemma OpenTagFirst(t: string)
    ensures FindFrom(OpenTag + t + CloseTag, OpenTag, 0) == Some(0)
  {
    var s := OpenTag + t + CloseTag;
    OccursAtStart(OpenTag, t + CloseTag);
    assert s == OpenTag + (t + CloseTag);
    assert AbsentBetween(s, OpenTag, 0, 0);
    FindFromIs(s, OpenTag, 0, 0);
  }

  lemma NoCloseTagBefore(t: string)
    requires !Contains(t, CloseTag)
    ensures AbsentBetween(OpenTag + t + CloseTag, CloseTag, |OpenTag|, |OpenTag| + |t|)
  {
    forall m: nat | |OpenTag| <= m < |OpenTag| + |t|
      ensures !OccursAt(OpenTag + t + CloseTag, CloseTag, m)
    {
      NoEarlyCloseTag(t, m);
    }
  }

  lemma CloseTagAfterText(t: string)
    requires !Contains(t, CloseTag)
    ensures FindFrom(OpenTag + t + CloseTag, CloseTag, |OpenTag|) == Some(|OpenTag| + |t|)
  {
    var s := OpenTag + t + CloseTag;
    var k := |OpenTag| + |t|;
    assert OccursAt(s, CloseTag, k) by {
      OccursAtEnd(OpenTag + t, CloseTag);
    }
    assert AbsentBetween(s, CloseTag, |OpenTag|, k) by {
      NoCloseTagBefore(t);
    }
    FindFromIs(s, CloseTag, |OpenTag|, k);
  }

  /**
   * The tag round trip: wrapping a text that holds no closing tag and
   * extracting it again gives the stripped text back, whatever the fallback.
   */
  lemma {:induction false} WrapThenExtract(t: string, fallback: string)
    requires !Contains(t, CloseTag)
    ensures ExtractTranslated(OpenTag + t + CloseTag, fallback) == Strip(t)
  {
    var s := OpenTag + t + CloseTag;
    OpenTagFirst(t);
    CloseTagAfterText(t);
    assert s[|OpenTag|..|OpenTag| + |t|] == t;
  }

  /**
   * The result built from the model's reply. A reply with the tag gives its
   * stripped content, reported as translated; a reply without the tag falls
   * back to the original text and is still reported as translated; an empty
   * tag gives "empty_response".
   */
  function Answer(text: string, c: Completion): (r: TranslationResult)
    requires !(text == "" || AllSpace(text))
    ensures r.originalText == text
    ensures r.error.Some? <==> !r.isTranslated
    ensures r.error.Some? ==> r.translatedText == text
    ensures ReplyText(c).Err? ==> r.error == Some(ReplyText(c).error)
    ensures ReplyText(c).Ok? ==>
      var t := ExtractTranslated(ReplyText(c).value, text);
      (t == "" ==> r == Unchanged(text, Some("empty_response")))
      && (t != "" ==> r == TranslationResult(t, text, true, None))
  {
    match ReplyText(c)
    case Err(e) => Unchanged(text, Some(e))
    case Ok(raw) =>
      var translated := ExtractTranslated(raw, text);
      if translated == "" then Unchanged(text, Some("empty_response"))
      else TranslationResult(translated, text, true, None)
  }

  /** A reply without the tag is reported as translated, with the original text as the translation. */
  lemma UntaggedReplyCountsAsTranslated(text: string, reply: string)
    requires !(text == "" || AllSpace(text))
    requires !Contains(Strip(reply), OpenTag)
    ensures Answer(text, Reply(Some(reply))) == TranslationResult(text, text, true, None)
  {
  }

  class LlmTranslator {
    const settings: Settings
    var isInitialized: bool
    var client: Option<Client>
    /** The chat-completion endpoint. */
    const complete: Request -> Completion

    ghost predicate Valid()
      reads this
    {
      isInitialized ==> client.Some? && client == ClientFor(settings)
    }

    constructor (provider: Option<string>, apiKey: Option<string>, apiBase: Option<string>,
                 model: Option<string>, timeout: Option<int>, temperature: Option<real>,
                 complete: Request -> Completion)
      ensures Valid()
      ensures settings == SettingsFrom(provider, apiKey, apiBase, model, timeout, temperature)
      ensures !isInitialized && client.None? && this.complete == complete
    {
      settings := SettingsFrom(provider, apiKey, apiBase, model, timeout, temperature);
      isInitialized := false;
      client := None;
      this.complete := complete;
    }

    /**
     * `initialize`: nothing when already initialized; otherwise the client
     * is created, and an unsupported provider or a raising client
     * constructor leaves the translator uninitialized (to be tried again on
     * the next call).
     */
    method Initialize(clientError: Option<string>)
      requires Valid()
      modifies this
      ensures Valid()
      ensures old(isInitialized) ==> isInitialized && client == old(client)
      ensures !old(isInitialized) ==>
        var ok := ClientFor(settings).Some? && clientError.None?;
        isInitialized == ok && client == (if ok then ClientFor(settings) else old(client))
    {
      if isInitialized {
        return;
      }
      var c := ClientFor(settings);
      if c.None? || clientError.Some? {
        return;
      }
      client := c;
      isInitialized := true;
    }

    /**
     * `translate`: a blank text or an empty target language hands the text
     * back without an error; otherwise the translator is initialized on
     * first use, "not_initialized" is reported when that failed, and the
     * model's reply decides the rest.
     */
    method Translate(text: string, targetLanguage: string, clientError: Option<string>)
      returns (r: TranslationResult)
      requires Valid()
      modifies this
      ensures Valid()
      ensures text == "" || AllSpace(text) || targetLanguage == "" ==>
        (r == Unchanged(text, None) && isInitialized == old(isInitialized) && client == old(client))
      ensures !(text == "" || AllSpace(text) || targetLanguage == "") ==>
        (old(isInitialized) ==> isInitialized && client == old(client))
        && (!old(isInitialized) ==> isInitialized == (ClientFor(settings).Some? && clientError.None?))
        && r == (if !isInitialized then Unchanged(text, Some("not_initialized"))
                 else Answer(text, complete(RequestFor(settings, TranslationPrompt(text, targetLanguage)))))
    {
      if text == "" || AllSpace(text) || targetLanguage == "" {
        return Unchanged(text, None);
      }
      if !isInitialized {
        Initialize(clientError);
      }
      if !isInitialized || client.None? {
        return Unchanged(text, Some("not_initialized"));
      }
      var prompt := TranslationPrompt(text, targetLanguage);
      var response := complete(RequestFor(settings, prompt));
      r := Answer(text, response);
    }
  }
}

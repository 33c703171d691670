/**
 * The speech-recognition adapter: choosing the model family from the model
 * id, locating a cached copy of the model, shaping the recogniser's output
 * into an optional stripped text, and the streaming variant that reports a
 * growing partial text.
 *
 * The recogniser itself is given as functions of the loaded model's path,
 * the audio and the language (`generate`, `generateStream`).
 */
module Asr {
  import opened Common
  import opened Text

  const DefaultModelId: string := "mlx-community/Fun-ASR-MLT-Nano-2512-4bit"
  const DefaultLanguage: string := "zh"

  datatype ModelType = FunAsr | Whisper

  /** `_detect_model_type`. */
  function DetectModelType(id: string): (t: ModelType)
    ensures id == "" ==> t == FunAsr
    ensures t == Whisper <==> Contains(AsciiLower(id), "whisper")
  {
    if id == "" then FunAsr
    else if Contains(AsciiLower(id), "whisper") then Whisper
    else FunAsr
  }

  /** `model_id.replace("/", "--")`. */
  function ReplaceSlashes(id: string): (r: string)
    ensures '/' !in r
    ensures |r| >= |id|
    decreases |id|
  {
    if id == "" then ""
    else (if id[0] == '/' then "--" else [id[0]]) + ReplaceSlashes(id[1..])
  }

  /** The Hugging Face cache directory name of a model. */
  function CacheName(id: string): (r: string)
    ensures |r| >= 8 && r[..8] == "models--" && '/' !in r[8..]
  {
    "models--" + ReplaceSlashes(id)
  }

  /** Reads a cache directory name back: every "--" becomes "/". */
  function RestoreSlashes(s: string): string
    decreases |s|
  {
    if s == "" then ""
    else if |s| >= 2 && s[..2] == "--" then "/" + RestoreSlashes(s[2..])
    else [s[0]] + RestoreSlashes(s[1..])
  }

  /** `replace` works character by character: it distributes over concatenation. */
  lemma {:induction false} ReplaceSlashesConcat(a: string, b: string)
    ensures ReplaceSlashes(a + b) == ReplaceSlashes(a) + ReplaceSlashes(b)
    decreases |a|
  {
    if a == "" {
      assert a + b == b;
    } else {
      assert (a + b)[0] == a[0] && (a + b)[1..] == a[1..] + b;
      ReplaceSlashesConcat(a[1..], b);
    }
  }

  /** Each '/' becomes "--"; any other character is kept. */
  lemma ReplaceSlashesChar(c: char)
    ensures ReplaceSlashes([c]) == if c == '/' then "--" else [c]
  {
    assert [c][1..] == "";
  }

  /**
   * Ids for which "--" in the cache name can only come from a '/': no
   * "--" and no '-' right before a '/'.
   */
  predicate SlashSafe(id: string)
  {
    forall i :: 0 <= i < |id| - 1 ==> !(id[i] == '-' && (id[i + 1] == '-' || id[i + 1] == '/'))
  }

  lemma {:induction false} RestoreReplaceSlashes(id: string)
    requires SlashSafe(id)
    ensures RestoreSlashes(ReplaceSlashes(id)) == id
    decreases |id|
  {
    if id != "" {
      var tail := id[1..];
      assert SlashSafe(tail) by {
        forall i | 0 <= i < |tail| - 1
          ensures !(tail[i] == '-' && (tail[i + 1] == '-' || tail[i + 1] == '/'))
        {
          assert tail[i] == id[i + 1] && tail[i + 1] == id[i + 2];
        }
      }
      RestoreReplaceSlashes(tail);
      var s := ReplaceSlashes(id);
      if id[0] == '/' {
        assert s == "--" + ReplaceSlashes(tail);
        assert s[2..] == ReplaceSlashes(tail);
      } else {
        assert s == [id[0]] + ReplaceSlashes(tail);
        assert s[1..] == ReplaceSlashes(tail);
        if id[0] == '-' && |s| >= 2 {
          assert tail != "";
          assert tail[0] == id[1];
          assert ReplaceSlashes(tail)[0] == tail[0];
          assert s[1] == tail[0];
        }
        assert !(|s| >= 2 && s[..2] == "--");
      }
      assert id == [id[0]] + tail;
    }
  }

  /** For such ids, the cache directory name determines the id. */
  lemma CacheNameRoundTrip(id: string)
    requires SlashSafe(id)
    ensures RestoreSlashes(CacheName(id)[8..]) == id
  {
    assert CacheName(id)[8..] == ReplaceSlashes(id);
    RestoreReplaceSlashes(id);
  }

  /**
   * `_get_local_model_path`: `snapshots` maps each cache directory name
   * whose "snapshots" directory exists to that directory's listing.
   */
  function LocalModelPath(id: string, snapshots: map<string, seq<string>>): (r: Option<string>)
    ensures r.Some? <==> CacheName(id) in snapshots && snapshots[CacheName(id)] != []
    ensures r.Some? ==> r.value == snapshots[CacheName(id)][0]
  {
    var name := CacheName(id);
    if name !in snapshots then None
    else if snapshots[name] == [] then None
    else Some(snapshots[name][0])
  }

  /** `language or self.default_language`: an empty language counts as absent. */
  function ChooseLanguage(language: Option<string>, default: string): (l: string)
    ensures language.Some? && language.value != "" ==> l == language.value
    ensures language.None? || language.value == "" ==> l == default
  {
    if language.Some? && language.value != "" then language.value else default
  }

  /** What a call of the recogniser gives: its text, or an exception. */
  datatype Generated = Text(text: string) | Raised(error: string)

  /** `transcribe`'s result: the stripped text; None for empty text or an exception. */
  function TranscribeResult(g: Generated): (r: Option<string>)
    ensures r.None? <==> g.Raised? || g.text == ""
    ensures r.Some? ==> r.value == Strip(g.text)
    ensures r.Some? && r.value != "" ==> !IsSpace(r.value[0]) && !IsSpace(r.value[|r.value| - 1])
    ensures r == Some("") <==> g.Text? && g.text != "" && AllSpace(g.text)
  {
    match g
    case Raised(_) => None
    case Text(t) =>
      if t == "" then None
      else
        var s := Strip(t);
        assert s == "" <==> AllSpace(t);
        Some(s)
  }

  /** The pieces a streaming recogniser yields, and whether it raised after them. */
  datatype Stream = Stream(chunks: seq<string>, raised: bool)

  function Concat(cs: seq<string>): string
  {
    if cs == [] then "" else Concat(cs[..|cs| - 1]) + cs[|cs| - 1]
  }

  /** The partial texts `on_partial` receives while the pieces arrive. */
  function PartialsOf(cs: seq<string>): seq<string>
  {
    if cs == [] then []
    else
      var acc := Concat(cs);
      PartialsOf(cs[..|cs| - 1]) + (if Strip(acc) != "" then [Strip(acc)] else [])
  }

  /** The streaming result: None after an exception or when nothing accumulated. */
  function StreamResult(s: Stream): Option<string>
  {
    if s.raised then None
    else if Concat(s.chunks) == "" then None
    else Some(Strip(Concat(s.chunks)))
  }

  lemma {:induction false} ConcatPrefix(cs: seq<string>, k: nat)
    requires k <= |cs|
    ensures Concat(cs[..k]) <= Concat(cs)
    decreases |cs|
  {
    if k < |cs| {
      var front := cs[..|cs| - 1];
      assert cs[..k] == front[..k];
      ConcatPrefix(front, k);
    } else {
      assert cs[..k] == cs;
    }
  }

  /** Every element is a prefix of every later one. */
  predicate PrefixChain(ps: seq<string>)
  {
    forall i, j :: 0 <= i < j < |ps| ==> ps[i] <= ps[j]
  }

  lemma ChainExtend(ps: seq<string>, x: string)
    requires PrefixChain(ps)
    requires ps != [] ==> ps[|ps| - 1] <= x
    ensures PrefixChain(ps + [x])
  {
    var all := ps + [x];
    forall i, j | 0 <= i < j < |all| ensures all[i] <= all[j] {
      if j == |all| - 1 && i < |ps| {
        assert ps[i] <= ps[|ps| - 1];
      }
    }
  }

  /**
   * Every partial is a prefix of every later one, and the last one is the
   * stripped accumulated text (which is therefore non-empty).
   */
  lemma {:induction false} PartialsGrow(cs: seq<string>)
    ensures PrefixChain(PartialsOf(cs))
    ensures PartialsOf(cs) != [] ==> PartialsOf(cs)[|PartialsOf(cs)| - 1] == Strip(Concat(cs)) != ""
    decreases |cs|
  {
    if cs != [] {
      var front := cs[..|cs| - 1];
      var ps := PartialsOf(front);
      PartialsGrow(front);
      var acc := Concat(cs);
      assert acc == Concat(front) + cs[|cs| - 1];
      if ps != [] {
        StripGrows(Concat(front), cs[|cs| - 1]);
      }
      if Strip(acc) != "" {
        ChainExtend(ps, Strip(acc));
      }
    }
  }

  /**
   * When the stream ended normally and some partial was reported, the
   * result equals the last partial; when no partial was reported the result
   * is None or the empty text.
   */
  lemma StreamResultIsLastPartial(s: Stream)
    requires !s.raised
    ensures PartialsOf(s.chunks) != [] ==> StreamResult(s) == Some(PartialsOf(s.chunks)[|PartialsOf(s.chunks)| - 1])
    ensures PartialsOf(s.chunks) == [] ==> StreamResult(s) == None || StreamResult(s) == Some("")
  {
    PartialsGrow(s.chunks);
    if PartialsOf(s.chunks) == [] && s.chunks != [] {
      var front := s.chunks[..|s.chunks| - 1];
      assert PartialsOf(front) == [];
    }
  }

  /** The accumulation loop of `transcribe_stream`, with the partials it reports. */
  method Accumulate(cs: seq<string>) returns (partials: seq<string>, accumulated: string)
    ensures accumulated == Concat(cs)
    ensures partials == PartialsOf(cs)
  {
    partials := [];
    accumulated := "";
    var i := 0;
    while i < |cs|
      invariant 0 <= i <= |cs|
      invariant accumulated == Concat(cs[..i])
      invariant partials == PartialsOf(cs[..i])
    {
      assert cs[..i + 1][..i] == cs[..i];
      assert Concat(cs[..i + 1]) == Concat(cs[..i]) + cs[i];
      accumulated := accumulated + cs[i];
      if Strip(accumulated) != "" {
        partials := partials + [Strip(accumulated)];
      }
      i := i + 1;
    }
    assert cs[..i] == cs;
  }

  class AsrEngine {
    var modelId: string
    const defaultLanguage: string
    var modelType: Option<ModelType>
    /** `model`: the path the loaded model came from, when loaded. */
    var model: Option<string>
    var isInitialized: bool
    /** The recogniser: loaded model path, audio, language. */
    const generate: (string, seq<int>, string) -> Generated
    const generateStream: (string, seq<int>, string) -> Stream

    ghost predicate Valid()
      reads this
    {
      isInitialized ==> model.Some? && modelType == Some(DetectModelType(modelId))
    }

    constructor (modelId: Option<string>, generate: (string, seq<int>, string) -> Generated,
                 generateStream: (string, seq<int>, string) -> Stream)
      ensures Valid() && !isInitialized && model.None? && modelType.None?
      ensures this.modelId == if modelId.Some? && modelId.value != "" then modelId.value else DefaultModelId
      ensures defaultLanguage == DefaultLanguage
      ensures this.generate == generate && this.generateStream == generateStream
    {
      this.modelId := if modelId.Some? && modelId.value != "" then modelId.value else DefaultModelId;
      defaultLanguage := DefaultLanguage;
      modelType := None;
      model := None;
      isInitialized := false;
      this.generate := generate;
      this.generateStream := generateStream;
    }

    /** `initialize`: once; loads from the local cache when present, else by id. */
    method Initialize(snapshots: map<string, seq<string>>)
      requires Valid()
      modifies this
      ensures Valid() && isInitialized && modelId == old(modelId)
      ensures old(isInitialized) ==> model == old(model) && modelType == old(modelType)
      ensures !old(isInitialized) ==>
        model == Some(var p := LocalModelPath(modelId, snapshots); if p.Some? then p.value else modelId)
    {
      if isInitialized {
        return;
      }
      modelType := Some(DetectModelType(modelId));
      var localPath := LocalModelPath(modelId, snapshots);
      var modelPath := if localPath.Some? then localPath.value else modelId;
      model := Some(modelPath);
      isInitialized := true;
    }

    /** `transcribe`. */
    method Transcribe(audio: seq<int>, language: Option<string>, snapshots: map<string, seq<string>>)
      returns (r: Option<string>)
      requires Valid()
      modifies this
      ensures Valid() && isInitialized && modelId == old(modelId)
      ensures r == TranscribeResult(generate(model.value, audio, ChooseLanguage(language, defaultLanguage)))
    {
      Initialize(snapshots);
      var lang := ChooseLanguage(language, defaultLanguage);
      r := TranscribeResult(generate(model.value, audio, lang));
    }

    /**
     * `transcribe_stream`: whisper models report at most one partial, the
     * result itself when it is non-empty; other models report the stripped
     * running text whenever it is non-empty.
     */
    method TranscribeStream(audio: seq<int>, language: Option<string>, snapshots: map<string, seq<string>>)
      returns (partials: seq<string>, r: Option<string>)
      requires Valid()
      modifies this
      ensures Valid() && isInitialized && modelId == old(modelId)
      ensures var lang := ChooseLanguage(language, defaultLanguage);
        if modelType == Some(Whisper) then
          r == TranscribeResult(generate(model.value, audio, lang))
          && partials == (if r.Some? && r.value != "" then [r.value] else [])
        else
          var s := generateStream(model.value, audio, lang);
          partials == PartialsOf(s.chunks) && r == StreamResult(s)
    {
      Initialize(snapshots);
      if modelType == Some(Whisper) {
        r := Transcribe(audio, language, snapshots);
        partials := if r.Some? && r.value != "" then [r.value] else [];
        return;
      }
      var lang := ChooseLanguage(language, defaultLanguage);
      var s := generateStream(model.value, audio, lang);
      var accumulated;
      partials, accumulated := Accumulate(s.chunks);
      if s.raised {
        r := None;
      } else {
        r := if accumulated != "" then Some(Strip(accumulated)) else None;
      }
    }

    /** `set_model_id`: a different id drops the loaded model; the same id changes nothing. */
    method SetModelId(id: string)
      requires Valid()
      modifies this
      ensures Valid()
      ensures id == old(modelId) ==>
        (modelId == old(modelId) && model == old(model)
         && modelType == old(modelType) && isInitialized == old(isInitialized))
      ensures id != old(modelId) ==> modelId == id && model.None? && modelType.None? && !isInitialized
    {
      if id != modelId {
        modelId := id;
        modelType := None;
        isInitialized := false;
        model := None;
      }
    }
  }
}

/**
 * The audio pipeline: every chunk goes through the VAD; chunks marked as
 * speech are buffered; when the VAD reports the end of speech and the
 * buffer is not empty, the buffer is transcribed, emptied, and the VAD is
 * reset. Statuses are emitted, in order, while the chunk is processed;
 * the result dict is returned afterwards.
 *
 * The recogniser (`asr.transcribe` on the decoded buffer) is the function
 * `transcribe`; its result shaping is modelled in module Asr.
 */
module Pipeline {
  import opened Common
  import opened Messages
  import Vad

  /** What one `process_chunk` produces, and the buffer it leaves. */
  datatype StepOutcome = StepOutcome(statuses: seq<Message>, result: Message, buffer: seq<byte>, transcribed: bool)

  /**
   * Specification of `process_chunk` for a pipeline holding `buffer`, given
   * the VAD's verdict `v` on the chunk.
   */
  function StepSpec(transcribe: seq<int> -> Option<string>, buffer: seq<byte>, chunk: seq<byte>, v: Vad.VadOutput): StepOutcome
    requires |buffer| % 2 == 0 && |chunk| % 2 == 0
  {
    var buf := if v.isSpeech then buffer + chunk else buffer;
    var speaking := if v.isSpeech then [StatusMessage(Speaking(|buf|))] else [];
    var report := VadReport(v.isSpeech, v.confidence, |buf|);
    if v.speechEnded && |buf| > 0 then
      var t := transcribe(DecodePcm16(buf));
      var result := if t.Some? && t.value != "" then Transcription(t.value, true) else report;
      StepOutcome(speaking + [StatusMessage(Transcribing(|buf|)), StatusMessage(Recording)], result, [], true)
    else
      StepOutcome(speaking, report, buf, false)
  }

  /**
   * One step: only speech chunks are buffered; each speech chunk emits one
   * "speaking" status with the buffer size after appending; a transcription
   * happens exactly when speech ended with audio buffered, and then
   * "transcribing" precedes "recording", the buffer is emptied, and the
   * result is a final transcription exactly when the recogniser returned
   * non-empty text.
   */
  lemma StepFacts(transcribe: seq<int> -> Option<string>, buffer: seq<byte>, chunk: seq<byte>, v: Vad.VadOutput)
    requires |buffer| % 2 == 0 && |chunk| % 2 == 0
    ensures var o := StepSpec(transcribe, buffer, chunk, v);
      var buf := if v.isSpeech then buffer + chunk else buffer;
      && (o.transcribed <==> v.speechEnded && |buf| > 0)
      && (!o.transcribed ==> o.buffer == buf && o.result == VadReport(v.isSpeech, v.confidence, |buf|))
      && (o.transcribed ==> o.buffer == [])
      && (v.isSpeech ==> |o.statuses| >= 1 && o.statuses[0] == StatusMessage(Speaking(|buffer| + |chunk|)))
      && (!v.isSpeech ==> forall i :: 0 <= i < |o.statuses| ==> !o.statuses[i].status.Speaking?)
      && (o.transcribed ==> o.statuses[|o.statuses| - 2..] == [StatusMessage(Transcribing(|buf|)), StatusMessage(Recording)])
      && (!o.transcribed ==> |o.statuses| <= 1)
      && (o.result.Transcription? ==>
            (o.transcribed && o.result.isFinal && o.result.text != ""
             && transcribe(DecodePcm16(buf)) == Some(o.result.text)))
      && (o.transcribed && !o.result.Transcription? ==>
            (o.result == VadReport(v.isSpeech, v.confidence, |buf|)
             && (transcribe(DecodePcm16(buf)).None? || transcribe(DecodePcm16(buf)) == Some(""))))
      && |o.buffer| % 2 == 0
  {
  }

  /** One chunk together with the VAD's verdict on it. */
  datatype ChunkEvent = ChunkEvent(chunk: seq<byte>, vad: Vad.VadOutput)

  predicate EvenChunks(evs: seq<ChunkEvent>)
  {
    forall i :: 0 <= i < |evs| ==> |evs[i].chunk| % 2 == 0
  }

  /** The buffer after a sequence of chunks, and the messages emitted for them. */
  function Run(transcribe: seq<int> -> Option<string>, buffer: seq<byte>, evs: seq<ChunkEvent>): (r: (seq<byte>, seq<Message>))
    requires |buffer| % 2 == 0 && EvenChunks(evs)
    ensures |r.0| % 2 == 0
    decreases |evs|
  {
    if evs == [] then (buffer, [])
    else
      var o := StepSpec(transcribe, buffer, evs[0].chunk, evs[0].vad);
      var rest := Run(transcribe, o.buffer, evs[1..]);
      (rest.0, o.statuses + [o.result] + rest.1)
  }

  /** The bytes of the chunks the VAD marked as speech, in arrival order. */
  function SpeechBytes(evs: seq<ChunkEvent>): seq<byte>
    decreases |evs|
  {
    if evs == [] then []
    else (if evs[0].vad.isSpeech then evs[0].chunk else []) + SpeechBytes(evs[1..])
  }

  /** None of the messages is a transcription. */
  predicate NoTranscription(ms: seq<Message>)
  {
    forall i :: 0 <= i < |ms| ==> !ms[i].Transcription?
  }

  lemma NoTranscriptionConcat(a: seq<Message>, b: seq<Message>)
    requires NoTranscription(a) && NoTranscription(b)
    ensures NoTranscription(a + b)
  {
    forall i | 0 <= i < |a + b| ensures !(a + b)[i].Transcription? {
      if i >= |a| {
        assert (a + b)[i] == b[i - |a|];
      }
    }
  }

  /** A step that does not end speech only buffers the chunk if it is speech, and transcribes nothing. */
  lemma StepWithoutEnd(transcribe: seq<int> -> Option<string>, buffer: seq<byte>, chunk: seq<byte>, v: Vad.VadOutput)
    requires |buffer| % 2 == 0 && |chunk| % 2 == 0 && !v.speechEnded
    ensures var o := StepSpec(transcribe, buffer, chunk, v);
      o.buffer == buffer + (if v.isSpeech then chunk else [])
      && NoTranscription(o.statuses + [o.result])
  {
  }

  /**
   * Until the VAD reports the end of speech, the pipeline's buffer is what it
   * held plus exactly the speech chunks, in arrival order (silent chunks are
   * never buffered), and no transcription is produced.
   */
  lemma {:induction false} BufferHoldsSpeechChunks(transcribe: seq<int> -> Option<string>, buffer: seq<byte>, evs: seq<ChunkEvent>)
    requires |buffer| % 2 == 0 && EvenChunks(evs)
    requires forall i :: 0 <= i < |evs| ==> !evs[i].vad.speechEnded
    ensures Run(transcribe, buffer, evs).0 == buffer + SpeechBytes(evs)
    ensures NoTranscription(Run(transcribe, buffer, evs).1)
    decreases |evs|
  {
    if evs != [] {
      var e := evs[0];
      var tail := evs[1..];
      assert !e.vad.speechEnded && |e.chunk| % 2 == 0;
      assert EvenChunks(tail) && forall i :: 0 <= i < |tail| ==> !tail[i].vad.speechEnded by {
        forall i | 0 <= i < |tail| ensures |tail[i].chunk| % 2 == 0 && !tail[i].vad.speechEnded {
          assert tail[i] == evs[i + 1];
        }
      }
      var o := StepSpec(transcribe, buffer, e.chunk, e.vad);
      var head := if e.vad.isSpeech then e.chunk else [];
      assert o.buffer == buffer + head && NoTranscription(o.statuses + [o.result]) by {
        StepWithoutEnd(transcribe, buffer, e.chunk, e.vad);
      }
      BufferHoldsSpeechChunks(transcribe, o.buffer, tail);
      var rest := Run(transcribe, o.buffer, tail);
      assert Run(transcribe, buffer, evs) == (rest.0, o.statuses + [o.result] + rest.1);
      assert rest.0 == buffer + SpeechBytes(evs) by {
        assert buffer + head + SpeechBytes(tail) == buffer + (head + SpeechBytes(tail));
      }
      NoTranscriptionConcat(o.statuses + [o.result], rest.1);
    }
  }

  class AudioPipeline {
    const vad: Vad.VadEngine
    /** `asr.transcribe` on the decoded buffer. */
    const transcribe: seq<int> -> Option<string>
    var audioBuffer: seq<byte>

    ghost predicate Valid()
      reads this, vad
    {
      vad.Valid() && |audioBuffer| % 2 == 0
    }

    constructor (score: seq<int> -> real, transcribe: seq<int> -> Option<string>)
      ensures Valid() && fresh(vad)
      ensures vad.threshold == Vad.DefaultThreshold && vad.score == score
      ensures vad.State() == Vad.VadState([], Vad.Flags(false, 0))
      ensures this.transcribe == transcribe && audioBuffer == []
    {
      vad := new Vad.VadEngine(Vad.DefaultThreshold, score);
      this.transcribe := transcribe;
      audioBuffer := [];
    }

    /**
     * `process_chunk`: returns the statuses emitted during the call, in
     * order, and the result dict; the VAD is stepped on the decoded chunk and
     * reset after a transcription.
     */
    method ProcessChunk(chunk: seq<byte>) returns (statuses: seq<Message>, result: Message)
      requires Valid() && |chunk| % 2 == 0
      modifies this, vad
      ensures Valid()
      ensures var (vst, v) := Vad.Step(vad.score, vad.threshold, old(vad.State()), DecodePcm16(chunk));
        var o := StepSpec(transcribe, old(audioBuffer), chunk, v);
        && statuses == o.statuses && result == o.result && audioBuffer == o.buffer
        && vad.State() == (if o.transcribed then Vad.VadState([], Vad.Flags(false, 0)) else vst)
    {
      var v := vad.ProcessChunk(DecodePcm16(chunk));
      statuses := [];
      if v.isSpeech {
        audioBuffer := audioBuffer + chunk;
        statuses := statuses + [StatusMessage(Speaking(|audioBuffer|))];
      }
      result := VadReport(v.isSpeech, v.confidence, |audioBuffer|);
      if v.speechEnded && |audioBuffer| > 0 {
        statuses := statuses + [StatusMessage(Transcribing(|audioBuffer|))];
        var transcription := transcribe(DecodePcm16(audioBuffer));
        audioBuffer := [];
        vad.Reset();
        if transcription.Some? && transcription.value != "" {
          result := Transcription(transcription.value, true);
        }
        statuses := statuses + [StatusMessage(Recording)];
      }
    }

    /** `reset`: empty the buffer and reset the VAD. */
    method Reset()
      requires Valid()
      modifies this, vad
      ensures Valid()
      ensures audioBuffer == [] && vad.State() == Vad.VadState([], Vad.Flags(false, 0))
    {
      audioBuffer := [];
      vad.Reset();
    }
  }
}

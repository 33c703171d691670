/**
 * The voice-activity detector: arriving int16 samples are cut into frames
 * of 512, each frame is scored by the speech model, and a speech flag plus
 * a silence counter decide when an utterance has ended (a hangover of 15
 * calls without speech).
 *
 * The speech model is the function `score` (the probability it assigns to
 * one frame); the conversion of samples to float32 is not modelled, so the
 * model sees the int16 sample values.
 */
module Vad {

  const FrameSize: nat := 512
  const MaxSilenceFrames: nat := 15
  const DefaultThreshold: real := 0.5

  /** What one `process_chunk` call returns. */
  datatype VadOutput = VadOutput(isSpeech: bool, confidence: real, speechStarted: bool, speechEnded: bool)

  /** The speech flag and the silence counter. */
  datatype Flags = Flags(started: bool, silence: nat)

  /** The engine's state between calls: buffered samples and flags. */
  datatype VadState = VadState(buffer: seq<int>, flags: Flags)

  function Max(a: real, b: real): real
  {
    if a >= b then a else b
  }

  /** The whole frames that can be cut from the front of `s`, in order. */
  function Frames(s: seq<int>): (fs: seq<seq<int>>)
    ensures forall i :: 0 <= i < |fs| ==> |fs[i]| == FrameSize
    decreases |s|
  {
    if |s| < FrameSize then [] else [s[..FrameSize]] + Frames(s[FrameSize..])
  }

  /** What is left of `s` once the whole frames are cut off. */
  function Remainder(s: seq<int>): (r: seq<int>)
    ensures |r| < FrameSize
    decreases |s|
  {
    if |s| < FrameSize then s else Remainder(s[FrameSize..])
  }

  function Flatten(fs: seq<seq<int>>): seq<int>
  {
    if fs == [] then [] else fs[0] + Flatten(fs[1..])
  }

  /** Frames and remainder together are exactly the input, in arrival order. */
  lemma {:induction false} FramesInOrder(s: seq<int>)
    ensures Flatten(Frames(s)) + Remainder(s) == s
    decreases |s|
  {
    if |s| >= FrameSize {
      FramesInOrder(s[FrameSize..]);
      var fs := Frames(s);
      assert fs[1..] == Frames(s[FrameSize..]);
      calc {
        Flatten(fs) + Remainder(s);
        s[..FrameSize] + Flatten(Frames(s[FrameSize..])) + Remainder(s[FrameSize..]);
        s[..FrameSize] + s[FrameSize..];
        s;
      }
    }
  }

  /** `confidence` after the loop: the running maximum, starting from 0.0. */
  function PeakScore(score: seq<int> -> real, fs: seq<seq<int>>): real
  {
    if fs == [] then 0.0 else Max(PeakScore(score, fs[..|fs| - 1]), score(fs[|fs| - 1]))
  }

  /** Some frame scores at or above the threshold. */
  predicate AnySpeech(score: seq<int> -> real, threshold: real, fs: seq<seq<int>>)
  {
    exists i :: 0 <= i < |fs| && score(fs[i]) >= threshold
  }

  /** The reported confidence is the maximum frame score (or 0.0 when there is none above it). */
  lemma {:induction false} PeakIsMaximum(score: seq<int> -> real, fs: seq<seq<int>>)
    ensures PeakScore(score, fs) >= 0.0
    ensures forall i :: 0 <= i < |fs| ==> score(fs[i]) <= PeakScore(score, fs)
    ensures PeakScore(score, fs) == 0.0 || exists i :: 0 <= i < |fs| && PeakScore(score, fs) == score(fs[i])
  {
    if fs != [] {
      var front := fs[..|fs| - 1];
      PeakIsMaximum(score, front);
      forall i | 0 <= i < |fs| ensures score(fs[i]) <= PeakScore(score, fs) {
        if i < |fs| - 1 { assert fs[i] == front[i]; }
      }
      if PeakScore(score, fs) != 0.0 {
        if PeakScore(score, fs) == PeakScore(score, front) {
          var i :| 0 <= i < |front| && PeakScore(score, front) == score(front[i]);
          assert fs[i] == front[i];
        }
      }
    }
  }

  /** Scoring one more frame extends both the speech verdict and the peak. */
  lemma ExtendDone(score: seq<int> -> real, threshold: real, done: seq<seq<int>>, frame: seq<int>)
    ensures AnySpeech(score, threshold, done + [frame]) <==> AnySpeech(score, threshold, done) || score(frame) >= threshold
    ensures PeakScore(score, done + [frame]) == Max(PeakScore(score, done), score(frame))
  {
    var done' := done + [frame];
    assert done'[..|done'| - 1] == done;
    if AnySpeech(score, threshold, done) {
      var i :| 0 <= i < |done| && score(done[i]) >= threshold;
      assert done'[i] == done[i];
    }
    if score(frame) >= threshold {
      assert done'[|done|] == frame;
    }
    if AnySpeech(score, threshold, done') {
      var i :| 0 <= i < |done'| && score(done'[i]) >= threshold;
      if i < |done| { assert done'[i] == done[i]; }
    }
  }

  /** How one call moves the flags, given whether it saw speech. */
  function NextFlags(f: Flags, isSpeech: bool): Flags
  {
    if isSpeech then Flags(true, 0)
    else if f.started then Flags(true, f.silence + 1)
    else f
  }

  /** `speech_ended`: speech has started and the hangover has run out. */
  predicate Ended(f: Flags)
  {
    f.started && f.silence >= MaxSilenceFrames
  }

  /** The flags invariant: the silence counter stays 0 until speech starts. */
  predicate FlagsOk(f: Flags)
  {
    !f.started ==> f.silence == 0
  }

  /** Specification of one `process_chunk` call: new state and result. */
  function Step(score: seq<int> -> real, threshold: real, st: VadState, samples: seq<int>): (VadState, VadOutput)
  {
    var all := st.buffer + samples;
    var fs := Frames(all);
    var speech := AnySpeech(score, threshold, fs);
    var f := NextFlags(st.flags, speech);
    (VadState(Remainder(all), f), VadOutput(speech, PeakScore(score, fs), f.started, Ended(f)))
  }

  /**
   * One call: fewer than a frame stays buffered, speech is reported exactly
   * when some completed frame reached the threshold, a call that completes
   * no frame reports no speech with confidence 0.0, and the flags move as
   * `NextFlags` says, keeping their invariant.
   */
  lemma StepFacts(score: seq<int> -> real, threshold: real, st: VadState, samples: seq<int>)
    requires FlagsOk(st.flags)
    ensures var (st', out) := Step(score, threshold, st, samples);
      && |st'.buffer| < FrameSize
      && FlagsOk(st'.flags)
      && (out.isSpeech <==> exists i :: 0 <= i < |Frames(st.buffer + samples)| && score(Frames(st.buffer + samples)[i]) >= threshold)
      && (|st.buffer + samples| < FrameSize ==> !out.isSpeech && out.confidence == 0.0)
      && (out.isSpeech ==> st'.flags == Flags(true, 0))
      && (!out.isSpeech && st.flags.started ==> st'.flags == Flags(true, st.flags.silence + 1))
      && (!out.isSpeech && !st.flags.started ==> st'.flags == Flags(false, 0))
      && (out.speechEnded <==> st'.flags.started && st'.flags.silence >= MaxSilenceFrames)
      && (out.speechEnded ==> out.speechStarted)
      && (st.flags.started ==> st'.flags.started)
  {
  }

  /** The flags after a run of calls whose speech verdicts are `calls`. */
  function RunFlags(f: Flags, calls: seq<bool>): Flags
    decreases |calls|
  {
    if calls == [] then f else RunFlags(NextFlags(f, calls[0]), calls[1..])
  }

  function Repeat(b: bool, n: nat): (r: seq<bool>)
    ensures |r| == n && forall i :: 0 <= i < n ==> r[i] == b
  {
    if n == 0 then [] else [b] + Repeat(b, n - 1)
  }

  /** No call clears the speech flag; only `reset` does. */
  lemma {:induction false} RunNeverClearsStarted(f: Flags, calls: seq<bool>)
    ensures RunFlags(f, calls).started <==> f.started || true in calls
    decreases |calls|
  {
    if calls != [] {
      RunNeverClearsStarted(NextFlags(f, calls[0]), calls[1..]);
      assert calls == [calls[0]] + calls[1..];
    }
  }

  /** The counter grows by one per silent call once speech has started, and stays 0 before. */
  lemma {:induction false} SilenceCountsCalls(f: Flags, n: nat)
    requires FlagsOk(f)
    ensures RunFlags(f, Repeat(false, n)) == if f.started then Flags(true, f.silence + n) else Flags(false, 0)
    decreases n
  {
    if n > 0 {
      assert Repeat(false, n)[1..] == Repeat(false, n - 1);
      SilenceCountsCalls(NextFlags(f, false), n - 1);
    }
  }

  /**
   * The hangover: after a speech call, the end of speech is reported exactly
   * when at least 15 silent calls have followed.
   */
  lemma {:induction false} HangoverIsFifteenCalls(f: Flags, n: nat)
    ensures Ended(RunFlags(f, [true] + Repeat(false, n))) <==> n >= MaxSilenceFrames
  {
    assert ([true] + Repeat(false, n))[1..] == Repeat(false, n);
    SilenceCountsCalls(Flags(true, 0), n);
  }

  class VadEngine {
    const threshold: real
    /** The speech model: the probability that one frame is speech. */
    const score: seq<int> -> real
    var buffer: seq<int>
    var speechStarted: bool
    var silenceFrames: nat

    ghost predicate Valid()
      reads this
    {
      |buffer| < FrameSize && FlagsOk(Flags(speechStarted, silenceFrames))
    }

    ghost function State(): VadState
      reads this
    {
      VadState(buffer, Flags(speechStarted, silenceFrames))
    }

    constructor (threshold: real, score: seq<int> -> real)
      ensures Valid()
      ensures this.threshold == threshold && this.score == score
      ensures State() == VadState([], Flags(false, 0))
    {
      this.threshold := threshold;
      this.score := score;
      buffer := [];
      speechStarted := false;
      silenceFrames := 0;
    }

    /** `process_chunk`: consume whole frames in arrival order and update the flags. */
    method ProcessChunk(samples: seq<int>) returns (out: VadOutput)
      requires Valid()
      modifies this
      ensures Valid()
      ensures (State(), out) == Step(score, threshold, old(State()), samples)
    {
      buffer := buffer + samples;
      ghost var all := buffer;
      ghost var done: seq<seq<int>> := [];
      var isSpeech := false;
      var confidence := 0.0;
      while |buffer| >= FrameSize
        invariant Frames(all) == done + Frames(buffer)
        invariant Remainder(all) == Remainder(buffer)
        invariant isSpeech == AnySpeech(score, threshold, done)
        invariant confidence == PeakScore(score, done)
        invariant speechStarted == old(speechStarted) && silenceFrames == old(silenceFrames)
        decreases |buffer|
      {
        var frame := buffer[..FrameSize];
        assert Frames(buffer) == [frame] + Frames(buffer[FrameSize..]);
        assert done + Frames(buffer) == (done + [frame]) + Frames(buffer[FrameSize..]);
        buffer := buffer[FrameSize..];
        var conf := score(frame);
        confidence := Max(confidence, conf);
        if conf >= threshold {
          isSpeech := true;
        }
        ExtendDone(score, threshold, done, frame);
        done := done + [frame];
      }
      assert Frames(all) == done && Remainder(all) == buffer;
      ghost var flags := NextFlags(Flags(speechStarted, silenceFrames), isSpeech);
      if isSpeech {
        speechStarted := true;
        silenceFrames := 0;
      } else if speechStarted {
        silenceFrames := silenceFrames + 1;
      }
      var ended := speechStarted && silenceFrames >= MaxSilenceFrames;
      out := VadOutput(isSpeech, confidence, speechStarted, ended);
      assert Flags(speechStarted, silenceFrames) == flags;
      assert Step(score, threshold, old(State()), samples)
          == (VadState(buffer, flags), VadOutput(isSpeech, confidence, flags.started, Ended(flags)));
    }

    /** `reset`: empty the buffer and clear both flags. */
    method Reset()
      modifies this
      ensures Valid()
      ensures State() == VadState([], Flags(false, 0))
    {
      buffer := [];
      speechStarted := false;
      silenceFrames := 0;
    }
  }
}

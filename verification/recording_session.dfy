/**
 * A recording session: an `is_running` flag guards start and stop, audio
 * chunks from the capture device go through the pipeline only while the
 * session runs, and everything the session and its pipeline report goes to
 * one result callback.
 *
 * The callback is the `Outbox` object (the websocket sender of the
 * connection); the capture device is the `capturing` flag.
 */
module Session {
  import opened Common
  import opened Messages
  import Pipeline
  import Vad

  /** The `on_result` callback: the messages handed to it, in order. */
  class Outbox {
    var sent: seq<Message>

    constructor ()
      ensures sent == []
    {
      sent := [];
    }

    method Send(m: Message)
      modifies this
      ensures sent == old(sent) + [m]
    {
      sent := sent + [m];
    }
  }

  class RecordingSession {
    const outbox: Outbox
    const pipeline: Pipeline.AudioPipeline
    var isRunning: bool
    /** Whether the audio capture stream is running. */
    var capturing: bool

    ghost function Footprint(): set<object>
      reads this
    {
      {this, pipeline, pipeline.vad}
    }

    ghost predicate Valid()
      reads this, pipeline, pipeline.vad
    {
      pipeline.Valid() && capturing == isRunning
    }

    constructor (outbox: Outbox, score: seq<int> -> real, transcribe: seq<int> -> Option<string>)
      ensures Valid() && fresh(pipeline) && fresh(pipeline.vad)
      ensures this.outbox == outbox && !isRunning
      ensures pipeline.audioBuffer == [] && pipeline.vad.State() == Vad.VadState([], Vad.Flags(false, 0))
      ensures pipeline.vad.score == score && pipeline.transcribe == transcribe
    {
      this.outbox := outbox;
      pipeline := new Pipeline.AudioPipeline(score, transcribe);
      isRunning := false;
      capturing := false;
    }

    /**
     * `start`: a no-op when already running; otherwise the session runs,
     * capture starts, and exactly one "recording" status is sent.
     */
    method Start()
      requires Valid()
      modifies this, outbox
      ensures Valid() && isRunning
      ensures old(isRunning) ==> capturing == old(capturing) && outbox.sent == old(outbox.sent)
      ensures !old(isRunning) ==> outbox.sent == old(outbox.sent) + [StatusMessage(Recording)]
    {
      if isRunning {
        return;
      }
      isRunning := true;
      capturing := true;
      outbox.Send(StatusMessage(Recording));
    }

    /**
     * `_on_audio_chunk`: ignored unless running; otherwise the pipeline's
     * statuses and then exactly its result are sent.
     */
    method OnAudioChunk(chunk: seq<byte>)
      requires Valid() && |chunk| % 2 == 0
      modifies pipeline, pipeline.vad, outbox
      ensures Valid()
      ensures !isRunning ==> unchanged(pipeline, pipeline.vad, outbox)
      ensures isRunning ==>
        var (vst, v) := Vad.Step(pipeline.vad.score, pipeline.vad.threshold, old(pipeline.vad.State()), DecodePcm16(chunk));
        var o := Pipeline.StepSpec(pipeline.transcribe, old(pipeline.audioBuffer), chunk, v);
        && outbox.sent == old(outbox.sent) + o.statuses + [o.result]
        && pipeline.audioBuffer == o.buffer
        && pipeline.vad.State() == (if o.transcribed then Vad.VadState([], Vad.Flags(false, 0)) else vst)
    {
      if !isRunning {
        return;
      }
      var statuses, result := pipeline.ProcessChunk(chunk);
      outbox.sent := outbox.sent + statuses + [result];
    }

    /**
     * `stop`: unguarded; always clears the flag, stops capture, resets the
     * pipeline and sends "stopped", so a second stop sends "stopped" again.
     */
    method Stop()
      requires Valid()
      modifies this, pipeline, pipeline.vad, outbox
      ensures Valid() && !isRunning
      ensures pipeline.audioBuffer == [] && pipeline.vad.State() == Vad.VadState([], Vad.Flags(false, 0))
      ensures outbox.sent == old(outbox.sent) + [StatusMessage(Stopped)]
    {
      isRunning := false;
      capturing := false;
      pipeline.Reset();
      outbox.Send(StatusMessage(Stopped));
    }
  }
}

/**
 * The websocket endpoint's control loop: each received JSON message is
 * dispatched by its "type" and "action" keys to the single session
 * reference the connection holds; on disconnect a running session is
 * stopped. Also the progress endpoint's answer for an unknown model.
 */
module Server {
  import opened Common
  import opened Messages
  import Session
  import Models

  /**
   * A received message: a JSON object, given by its "type" and "action"
   * keys when present and strings, or something else (a JSON array,
   * string or number, or text that is not JSON), which has no keys to look
   * up.
   */
  datatype Inbound = Inbound(kind: Option<string>, action: Option<string>) | NotObject

  /** What the loop does with a message. */
  datatype Decision =
    | StartNew          // create a new session and start it
    | StopCurrent       // stop the session and drop the reference
    | ForwardConfig     // hand "config" to the session's update_config
    | ForwardLlmConfig  // hand "config" to the session's update_llm_config
    | Ignore            // leave everything as it is

  predicate IsControl(m: Inbound, action: string)
  {
    m.Inbound? && m.kind == Some("control") && m.action == Some(action)
  }

  /** The dispatch decision, given whether a session exists and whether it runs. */
  function Decide(hasSession: bool, running: bool, m: Inbound): (d: Decision)
    requires running ==> hasSession
    ensures d == StartNew <==> IsControl(m, "start") && !running
    ensures d == StopCurrent <==> IsControl(m, "stop") && running
    ensures d == ForwardConfig <==> IsControl(m, "update_config") && running
    ensures d == ForwardLlmConfig <==> IsControl(m, "update_llm_config") && hasSession
    ensures m.NotObject? || m.kind != Some("control") ==> d == Ignore
  {
    if m.NotObject? || m.kind != Some("control") then Ignore
    else if m.action == Some("start") then (if !hasSession || !running then StartNew else Ignore)
    else if m.action == Some("stop") then (if hasSession && running then StopCurrent else Ignore)
    else if m.action == Some("update_config") then (if hasSession && running then ForwardConfig else Ignore)
    else if m.action == Some("update_llm_config") then (if hasSession then ForwardLlmConfig else Ignore)
    else Ignore
  }

  /** What the connection receives: a JSON message, or an audio chunk from the capture thread. */
  datatype Event = Receive(message: Inbound) | Audio(chunk: seq<byte>)

  /**
   * One received message. A new session is created and started only when
   * there is none or it is not running; "stop" acts only on a running
   * session and drops the reference; the update decisions (whose
   * configuration content is not modelled) and all other messages leave the
   * session reference and the sent messages unchanged.
   */
  method HandleMessage(session: Session.RecordingSession?, m: Inbound, outbox: Session.Outbox,
                       score: seq<int> -> real, transcribe: seq<int> -> Option<string>)
    returns (next: Session.RecordingSession?, d: Decision)
    requires session != null ==> session.Valid() && session.outbox == outbox
    modifies (if session == null then {} else session.Footprint()), outbox
    ensures d == Decide(session != null, session != null && old(session.isRunning), m)
    ensures next != null ==> next.Valid() && next.outbox == outbox
    ensures d == StartNew ==>
      (next != null && fresh(next.Footprint()) && next.isRunning
       && outbox.sent == old(outbox.sent) + [StatusMessage(Recording)])
    ensures d == StopCurrent ==>
      (next == null && !session.isRunning
       && outbox.sent == old(outbox.sent) + [StatusMessage(Stopped)])
    ensures d != StartNew && d != StopCurrent ==>
      (next == session && outbox.sent == old(outbox.sent)
       && (session != null ==> session.isRunning == old(session.isRunning)))
  {
    d := Decide(session != null, session != null && session.isRunning, m);
    match d
    case StartNew =>
      next := new Session.RecordingSession(outbox, score, transcribe);
      next.Start();
    case StopCurrent =>
      session.Stop();
      next := null;
    case _ =>
      next := session;
  }

  /** The messages among the events, in order. */
  function Received(events: seq<Event>): (ms: seq<Inbound>)
    ensures |ms| <= |events|
    ensures forall m :: m in ms <==> Receive(m) in events
  {
    if events == [] then []
    else
      var e := events[|events| - 1];
      Received(events[..|events| - 1]) + (if e.Receive? then [e.message] else [])
  }

  /**
   * Whether the connection holds a session after the messages `ms`, when
   * the update messages reach the session without failing: a start makes it
   * hold one, a stop drops it, everything else keeps what it has.
   */
  function Held(ms: seq<Inbound>): bool
  {
    if ms == [] then false
    else
      var h := Held(ms[..|ms| - 1]);
      var d := Decide(h, h, ms[|ms| - 1]);
      d == StartNew || (h && d != StopCurrent)
  }

  lemma ReceivedStep(events: seq<Event>, i: nat)
    requires i < |events|
    ensures Received(events[..i + 1])
         == Received(events[..i]) + (if events[i].Receive? then [events[i].message] else [])
  {
    assert events[..i + 1][..i] == events[..i];
  }

  lemma HeldStep(ms: seq<Inbound>, m: Inbound)
    ensures Held(ms + [m]) == (Decide(Held(ms), Held(ms), m) == StartNew
                               || (Held(ms) && Decide(Held(ms), Held(ms), m) != StopCurrent))
  {
    assert (ms + [m])[..|ms|] == ms;
  }

  /** The receive loop as written: its session reference, and whether it ended by an exception. */
  datatype LoopState = LoopState(held: bool, aborted: bool)

  /**
   * The receive loop as written. The session class has neither
   * `update_config` nor `update_llm_config`, so forwarding either message
   * raises an AttributeError, and looking up "type" in a message that is
   * not an object raises too (as does decoding text that is not JSON);
   * only a disconnect is caught, so the exception ends the loop and the
   * handler skips the stop on disconnect.
   */
  function LoopAsWritten(ms: seq<Inbound>): LoopState
  {
    if ms == [] then LoopState(false, false)
    else
      var st := LoopAsWritten(ms[..|ms| - 1]);
      if st.aborted then st
      else
        var d := Decide(st.held, st.held, ms[|ms| - 1]);
        if ms[|ms| - 1].NotObject? || d == ForwardConfig || d == ForwardLlmConfig then LoopState(st.held, true)
        else LoopState(d == StartNew || (st.held && d != StopCurrent), false)
  }

  /** A session left running once the connection is gone: only an aborted loop leaves one. */
  predicate LeftRunningAsWritten(ms: seq<Inbound>)
  {
    LoopAsWritten(ms).aborted && LoopAsWritten(ms).held
  }

  /**
   * An update message aborts the loop only while a running session is
   * held, so an abort that leaves no session running was caused by a
   * message that is not an object.
   */
  lemma {:induction false} AbortWithoutSessionNeedsNonObject(ms: seq<Inbound>)
    ensures LoopAsWritten(ms).aborted && !LeftRunningAsWritten(ms) ==> NotObject in ms
  {
    if ms != [] {
      var front := ms[..|ms| - 1];
      AbortWithoutSessionNeedsNonObject(front);
      assert forall m :: m in front ==> m in ms;
      assert ms[|ms| - 1] in ms;
    }
  }

  predicate IsUpdate(m: Inbound)
  {
    IsControl(m, "update_config") || IsControl(m, "update_llm_config")
  }

  /**
   * Without update messages and messages that are not objects, the loop
   * as written behaves as intended.
   */
  lemma {:induction false} AsWrittenAgreesWithoutUpdates(ms: seq<Inbound>)
    requires forall i :: 0 <= i < |ms| ==> !IsUpdate(ms[i]) && ms[i].Inbound?
    ensures LoopAsWritten(ms) == LoopState(Held(ms), false)
  {
    if ms != [] {
      AsWrittenAgreesWithoutUpdates(ms[..|ms| - 1]);
    }
  }

  const StartMessage: Inbound := Inbound(Some("control"), Some("start"))
  const UpdateConfigMessage: Inbound := Inbound(Some("control"), Some("update_config"))
  const UpdateLlmConfigMessage: Inbound := Inbound(Some("control"), Some("update_llm_config"))

  /** "start" then "update_config": the session is still running after the client has gone. */
  lemma UpdateConfigLeavesSessionRunning()
    ensures LeftRunningAsWritten([StartMessage, UpdateConfigMessage])
    ensures !Held([StartMessage, UpdateConfigMessage] + [Inbound(Some("control"), Some("stop"))])
  {
    assert [StartMessage, UpdateConfigMessage][..1] == [StartMessage];
    assert [StartMessage][..0] == [];
    assert LoopAsWritten([StartMessage]) == LoopState(true, false);
    assert ([StartMessage, UpdateConfigMessage] + [Inbound(Some("control"), Some("stop"))])[..2]
      == [StartMessage, UpdateConfigMessage];
  }

  /** The same with "update_llm_config". */
  lemma UpdateLlmConfigLeavesSessionRunning()
    ensures LeftRunningAsWritten([StartMessage, UpdateLlmConfigMessage])
  {
    assert [StartMessage, UpdateLlmConfigMessage][..1] == [StartMessage];
    assert [StartMessage][..0] == [];
    assert LoopAsWritten([StartMessage]) == LoopState(true, false);
  }

  /**
   * "start" then a JSON array: the session is still running after the
   * client has gone; a message that is not an object before any "start"
   * ends the loop, and the later "start" is never read.
   */
  lemma NonObjectLeavesSessionRunning()
    ensures LeftRunningAsWritten([StartMessage, NotObject])
    ensures LoopAsWritten([NotObject, StartMessage]) == LoopState(false, true)
    ensures !Held([StartMessage, NotObject] + [Inbound(Some("control"), Some("stop"))])
  {
    assert [StartMessage, NotObject][..1] == [StartMessage];
    assert [StartMessage][..0] == [];
    assert LoopAsWritten([StartMessage]) == LoopState(true, false);
    assert [NotObject, StartMessage][..1] == [NotObject];
    assert [NotObject][..0] == [];
    assert LoopAsWritten([NotObject]) == LoopState(false, true);
    assert ([StartMessage, NotObject] + [Inbound(Some("control"), Some("stop"))])[..2]
      == [StartMessage, NotObject];
  }

  /**
   * The receive loop over a sequence of events followed by the client's
   * disconnect, with the update messages reaching the session without
   * failing and messages that are not objects ignored. The session the connection holds is always running (a stopped
   * one is dropped), it is held exactly as `Held` says, and when the loop
   * ends no session is left running.
   */
  method Serve(events: seq<Event>, outbox: Session.Outbox,
               score: seq<int> -> real, transcribe: seq<int> -> Option<string>)
    returns (last: Session.RecordingSession?)
    requires forall i :: 0 <= i < |events| ==> events[i].Audio? ==> |events[i].chunk| % 2 == 0
    modifies outbox
    ensures (last != null) == Held(Received(events))
    ensures last == null || (last.Valid() && !last.isRunning)
    ensures |outbox.sent| >= |old(outbox.sent)|
  {
    var session: Session.RecordingSession? := null;
    var i := 0;
    while i < |events|
      invariant 0 <= i <= |events|
      invariant session != null ==> session.Valid() && session.isRunning && session.outbox == outbox
      invariant session != null ==> fresh(session.Footprint())
      invariant (session != null) == Held(Received(events[..i]))
      invariant |outbox.sent| >= |old(outbox.sent)|
    {
      ReceivedStep(events, i);
      match events[i] {
        case Receive(m) =>
          var d;
          assert Received(events[..i + 1]) == Received(events[..i]) + [m];
          HeldStep(Received(events[..i]), m);
          session, d := HandleMessage(session, m, outbox, score, transcribe);
        case Audio(chunk) =>
          assert Received(events[..i + 1]) == Received(events[..i]);
          if session != null {
            session.OnAudioChunk(chunk);
          }
      }
      i := i + 1;
    }
    assert events[..i] == events;
    if session != null && session.isRunning {
      session.Stop();
    }
    last := session;
  }

  /** The progress endpoint's reply: the stored progress, or `{"status": "not_found"}`. */
  datatype ProgressReply = Found(progress: Models.Progress) | NotFound

  function ProgressReplyFor(stored: Option<Models.Progress>): (r: ProgressReply)
    ensures r == NotFound <==> stored.None?
    ensures stored.Some? ==> r == Found(stored.value)
  {
    match stored
    case Some(p) => Found(p)
    case None => NotFound
  }
}

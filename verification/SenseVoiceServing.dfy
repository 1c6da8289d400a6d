/**
  What one frame, and one finish, come to when nothing disturbs the worker: the whole passage from
  the queue back to the idle worker, told as a table of outcomes.
 */
module SenseVoiceServing {
  import opened Wrappers
  import opened SenseVoiceState
  import opened SpeechEvents
  import opened SenseVoiceRuns
  import opened SenseVoiceProofs

  /** The idle worker of an open turn with nothing but frames before it. */
  predicate Open(s: System) {
    && s.pc.Idle? && s.p.armed && !s.p.stopping && !s.p.stopRequested
    && !s.p.overflow.pending && !s.p.overflow.quarantined && !s.p.finish.duplicate
  }

  /** A fresh turn has begun. */
  predicate Rearmed(s: System) {
    s.pc.Idle? && s.p.armed && s.p.pcm == [] && s.p.turn == NEW_TURN && s.p.finish == NO_FINISH && s.p.queue == []
  }

  lemma {:induction false} UndisturbedOnward(s: System, o: Oracle, a: nat, b: nat)
    ensures Undisturbed(Undisturbed(s, o, a), o, b) == Undisturbed(s, o, a + b)
  {
    hide WorkerStep;
    if b != 0 { UndisturbedOnward(s, o, a, b - 1); }
  }

  /** Giving the turn up: one terminal event naming the frame, and a fresh turn. */
  lemma {:induction false} GivingUp(s: System, o: Oracle)
    requires s.pc.Retiring? && !s.p.stopping && s.p.hasSink
    ensures var t := Undisturbed(s, o, 4);
            && Rearmed(t) && t.events == s.events + [FrameEvent(s.pc.kind, s.pc.f, s.scope)] && t.calls == s.calls
            && t.scope == s.scope
  {
    var s1 := s.(p := s.p.Retire(), next := |s.submitted|, pc := Reporting(s.pc.kind, s.pc.f));
    assert Undisturbed(s, o, 1) == s1;
    var s2 := s1.(pc := Ending(FrameEvent(s.pc.kind, s.pc.f, s.scope)));
    assert Undisturbed(s, o, 2) == s2;
    assert Undisturbed(s, o, 3) == Emit(s2, s2.pc.e).(pc := Resetting);
  }

  /** Recognition: one call on what is in the buffer, and its terminal event. */
  lemma {:induction false} Recognizing(s: System, o: Oracle)
    requires s.pc.Inferring? && !s.p.stopping && s.p.hasSink && s.p.queue == []
    ensures var t := Undisturbed(s, o, 3);
            var kind := if o.recognized && s.scope != 0 then EndpointFinal else Failure;
            && Rearmed(t) && t.events == s.events + [FrameEvent(kind, s.pc.f, s.scope)]
            && t.calls == s.calls + [AsrCall(s.lo, s.hi, s.named, s.p.pcm, s.pc.f, s.scope, o.recognized)]
  {
    var s1 := Infer(s, s.pc.f, o.recognized);
    assert Undisturbed(s, o, 1) == s1;
    assert Undisturbed(s, o, 2) == Emit(s1, s1.pc.e).(pc := Resetting);
  }

  /** One queued frame waits for the worker of an open turn. */
  predicate Waiting(s: System, f: Frame) {
    Open(s) && s.p.queue == [f] && s.p.hasSink && !s.p.finish.requested && |f.samples| == FRAME_SAMPLES
  }

  /** The buffer takes the frame. */
  predicate Taken(s: System, f: Frame) {
    0 < f.valid <= FRAME_SAMPLES && |s.p.pcm| + f.valid <= s.p.capacity * FRAME_SAMPLES
  }

  /** The samples buffered once the frame is. */
  function Buffered(s: System, f: Frame): seq<Sample>
    requires Taken(s, f) && |f.samples| == FRAME_SAMPLES
  {
    s.p.pcm + f.samples[..f.valid]
  }

  /** The frame is the one that exhausts the turn. */
  predicate Exhausts(s: System) {
    s.p.capacity <= s.p.turn.admitted + 1
  }

  /** Detection's answer names an endpoint exactly when it may. */
  predicate Coherent(r: VadResult) {
    r.decision.Endpoint? || r.endpoint == 0
  }

  /** The endpoint lies in the buffer and behind the one before. */
  predicate Usable(s: System, f: Frame, endpoint: nat)
    requires Taken(s, f) && |f.samples| == FRAME_SAMPLES
  {
    s.p.turn.lastEndpoint < endpoint <= |Buffered(s, f)|
  }

  /** The first speech of a turn announces itself. */
  function Announced(s: System, f: Frame): seq<Event> {
    if s.p.turn.wakeSent then [] else [FrameEvent(EventKind.Wake, f, 0)]
  }

  /** The frame has been buffered and detection has answered. */
  ghost predicate Detected(s: System, f: Frame, r: VadResult, t: System)
    requires Taken(s, f) && |f.samples| == FRAME_SAMPLES
  {
    && t.pc == Deciding(f, r) && t.scope == s.scope && t.events == s.events && t.calls == s.calls
    && t.p == s.p.(queue := [], pcm := Buffered(s, f),
                   turn := s.p.turn.(admitted := s.p.turn.admitted + 1, lastFrame := Some(f)))
  }

  lemma {:induction false} Detecting(s: System, o: Oracle, f: Frame)
    requires Waiting(s, f)
    ensures var t := Undisturbed(s, o, 2);
            !Taken(s, f) ==> t.pc == Retiring(Failure, f) && t.scope == s.scope && t.events == s.events && t.calls == s.calls
                             && !t.p.stopping && t.p.hasSink
    ensures Taken(s, f) ==> Detected(s, f, o.vad, Undisturbed(s, o, 3))
  {
    var s1 := s.(p := s.p.(queue := []), pc := Admitting(f), next := s.next + 1);
    assert Undisturbed(s, o, 1) == s1 by { assert s.p.queue[1..] == []; }
    assert Undisturbed(s, o, 2) == Consume(s1, f);
  }

  /** The turn survives the frame: its samples are kept, the turn counts it, and nothing is recognised. */
  predicate Continues(s: System, f: Frame, t: System)
    requires Taken(s, f) && |f.samples| == FRAME_SAMPLES
  {
    && Open(t) && t.p.queue == [] && t.p.pcm == Buffered(s, f) && t.calls == s.calls
    && t.p.turn.admitted == s.p.turn.admitted + 1 && t.p.turn.lastEndpoint == s.p.turn.lastEndpoint
  }

  lemma {:induction false} Announcing(s: System, o: Oracle, f: Frame, u: System) returns (n: nat)
    requires Waiting(s, f) && Taken(s, f) && Detected(s, f, o.vad, u)
    requires !Exhausts(s) && Coherent(o.vad) && !o.vad.decision.Silence?
    ensures 2 <= n <= 3
    ensures var t := Undisturbed(u, o, n);
            && t == u.(pc := Scoping(f, o.vad), events := s.events + Announced(s, f), phase := t.phase,
                       p := u.p.(turn := u.p.turn.(wakeSent := true)))
  {
    var r := o.vad;
    if s.p.turn.wakeSent {
      n := 2;
      assert u.p.turn.(wakeSent := true) == u.p.turn;
      assert s.events + Announced(s, f) == u.events;
      assert Undisturbed(u, o, 1) == u.(pc := Speaking(f, r));
    } else {
      n := 3;
      var u1 := u.(pc := Waking(f, r));
      assert Undisturbed(u, o, 1) == u1;
      assert Undisturbed(u, o, 2)
          == Emit(u1, FrameEvent(EventKind.Wake, f, 0)).(p := u.p.(turn := u.p.turn.(wakeSent := true)),
                                                         pc := Speaking(f, r));
    }
  }

  lemma {:induction false} Hearing(s: System, o: Oracle, f: Frame, u: System) returns (n: nat)
    requires Waiting(s, f) && Taken(s, f) && u.pc == Scoping(f, o.vad) && u.scope == s.scope && u.calls == s.calls
    requires u.p == s.p.(queue := [], pcm := Buffered(s, f),
                         turn := s.p.turn.(admitted := s.p.turn.admitted + 1, lastFrame := Some(f), wakeSent := true))
    requires o.vad.decision.Speech?
    ensures var t := Undisturbed(u, o, n);
            && Continues(s, f, t)
            && t.events == u.events + if s.scope == 0 then [] else [FrameEvent(Activity, f, s.scope)]
  {
    if s.scope == 0 {
      n := 1;
      assert Undisturbed(u, o, 1) == u.(pc := Idle);
    } else {
      n := 2;
      assert Undisturbed(u, o, 1) == u.(pc := Telling(f, s.scope));
    }
  }

  /** The worker has read a scope and is about to judge the endpoint. */
  ghost predicate Judging(s: System, o: Oracle, f: Frame, u: System)
    requires Taken(s, f) && |f.samples| == FRAME_SAMPLES
  {
    && u.pc == Scoping(f, o.vad) && u.scope == s.scope && u.calls == s.calls
    && u.p == s.p.(queue := [], pcm := Buffered(s, f),
                   turn := s.p.turn.(admitted := s.p.turn.admitted + 1, lastFrame := Some(f), wakeSent := true))
  }

  lemma {:induction false} Closed(s: System, o: Oracle, f: Frame, u: System)
    requires Waiting(s, f) && Taken(s, f) && Judging(s, o, f, u)
    requires o.vad.decision.Endpoint? && Usable(s, f, o.vad.endpoint)
    ensures var t := Undisturbed(u, o, 2); var e := o.vad.endpoint;
            && t.pc == Inferring(f) && t.p.pcm == Buffered(s, f)[..e] && t.named == e && t.lo == u.lo && t.hi == u.hi
            && t.calls == s.calls && t.events == u.events && t.scope == s.scope
            && !t.p.stopping && t.p.hasSink && t.p.queue == []
  {
    hide Buffered;
    var u1 := u.(pc := Closing(f, o.vad));
    assert Undisturbed(u, o, 1) == u1;
    assert Undisturbed(u, o, 2) == WorkerStep(u1, o);
  }

  lemma {:induction false} ClosingWell(s: System, o: Oracle, f: Frame, u: System)
    requires Waiting(s, f) && Taken(s, f) && Judging(s, o, f, u)
    requires o.vad.decision.Endpoint? && Usable(s, f, o.vad.endpoint)
    ensures var t := Undisturbed(u, o, 5); var e := o.vad.endpoint;
            && Rearmed(t)
            && t.calls == s.calls + [AsrCall(u.lo, u.hi, e, Buffered(s, f)[..e], f, s.scope, o.recognized)]
            && t.events == u.events + [FrameEvent(if o.recognized && s.scope != 0 then EndpointFinal else Failure,
                                                  f, s.scope)]
  {
    hide WorkerStep, Undisturbed, Buffered;
    Closed(s, o, f, u);
    Recognizing(Undisturbed(u, o, 2), o);
    UndisturbedOnward(u, o, 2, 3);
  }

  lemma {:induction false} ClosingBadly(s: System, o: Oracle, f: Frame, u: System)
    requires Waiting(s, f) && Taken(s, f) && Judging(s, o, f, u)
    requires o.vad.decision.Endpoint? && !Usable(s, f, o.vad.endpoint)
    ensures var t := Undisturbed(u, o, 5);
            Rearmed(t) && t.events == u.events + [FrameEvent(Failure, f, s.scope)] && t.calls == s.calls
  {
    hide Buffered;
    var u1 := u.(pc := Retiring(Failure, f));
    assert Undisturbed(u, o, 1) == u1;
    hide WorkerStep, Undisturbed;
    GivingUp(u1, o);
    UndisturbedOnward(u, o, 1, 4);
  }

  /** What the frame comes to, as a table over the state before it and the adapters' answers. */
  ghost predicate Outcome(s: System, o: Oracle, f: Frame, t: System)
    requires |f.samples| == FRAME_SAMPLES
  {
    var r := o.vad;
    if !Taken(s, f) || (!Exhausts(s) && !Coherent(r)) then
      Rearmed(t) && t.events == s.events + [FrameEvent(Failure, f, s.scope)] && t.calls == s.calls
    else if Exhausts(s) then
      Rearmed(t) && t.events == s.events + [FrameEvent(Timeout, f, s.scope)] && t.calls == s.calls
    else match r.decision
      case Silence => Continues(s, f, t) && t.events == s.events
      case Speech =>
        && Continues(s, f, t)
        && t.events == s.events + Announced(s, f) + if s.scope == 0 then [] else [FrameEvent(Activity, f, s.scope)]
      case Endpoint =>
        && Rearmed(t)
        && t.events == s.events + Announced(s, f)
                       + [FrameEvent(if Usable(s, f, r.endpoint) && o.recognized && s.scope != 0
                                     then EndpointFinal else Failure, f, s.scope)]
        && (!Usable(s, f, r.endpoint) ==> t.calls == s.calls)
        && (Usable(s, f, r.endpoint) ==>
              && |t.calls| == |s.calls| + 1 && t.calls[..|s.calls|] == s.calls
              && t.calls[|s.calls|].pcm == Buffered(s, f)[..r.endpoint]
              && t.calls[|s.calls|].frame == f && t.calls[|s.calls|].scope == s.scope)
  }

  lemma DecidingToEnd(u: System, o: Oracle, f: Frame, r: VadResult)
    requires u.pc == Deciding(f, r) && !u.p.overflow.quarantined
    requires u.p.capacity <= u.p.turn.admitted || !Coherent(r)
    ensures WorkerStep(u, o) == u.(pc := Retiring(if u.p.capacity <= u.p.turn.admitted then Timeout else Failure, f))
  {
  }

  lemma {:induction false} EndingEarly(s: System, o: Oracle, f: Frame, u: System)
    requires Waiting(s, f) && Taken(s, f) && Detected(s, f, o.vad, u)
    requires Exhausts(s) || !Coherent(o.vad)
    ensures var t := Undisturbed(u, o, 5);
            && Rearmed(t) && t.calls == s.calls
            && t.events == s.events + [FrameEvent(if Exhausts(s) then Timeout else Failure, f, s.scope)]
  {
    hide Buffered, WorkerStep, Coherent;
    DecidingToEnd(u, o, f, o.vad);
    var u1 := u.(pc := Retiring(if Exhausts(s) then Timeout else Failure, f));
    assert Undisturbed(u, o, 1) == u1 by { assert Undisturbed(u, o, 0) == u; }
    hide Undisturbed;
    GivingUp(u1, o);
    UndisturbedOnward(u, o, 1, 4);
  }

  lemma {:induction false} StayingSilent(s: System, o: Oracle, f: Frame, u: System)
    requires Waiting(s, f) && Taken(s, f) && Detected(s, f, o.vad, u)
    requires !Exhausts(s) && Coherent(o.vad) && o.vad.decision.Silence?
    ensures Continues(s, f, Undisturbed(u, o, 1)) && Undisturbed(u, o, 1).events == s.events
  {
    assert Undisturbed(u, o, 1) == u.(pc := Idle);
  }

  /**
    An undisturbed worker brings a queued frame to exactly the outcome of the table and is idle
    again, whatever the turn so far, the frame and the adapters' answers.
   */
  lemma {:induction false} FrameServedAlone(s: System, o: Oracle, f: Frame) returns (n: nat)
    requires Waiting(s, f)
    ensures Outcome(s, o, f, Undisturbed(s, o, n))
  {
    hide Undisturbed, WorkerStep;
    Detecting(s, o, f);
    if !Taken(s, f) {
      GivingUp(Undisturbed(s, o, 2), o);
      UndisturbedOnward(s, o, 2, 4);
      n := 6;
    } else {
      var u := Undisturbed(s, o, 3);
      if Exhausts(s) || !Coherent(o.vad) || o.vad.decision.Silence? {
        n := if Exhausts(s) || !Coherent(o.vad) then 8 else 4;
        UndisturbedOnward(s, o, 3, n - 3);
        if n == 8 { EndingEarly(s, o, f, u); } else { StayingSilent(s, o, f, u); }
      } else {
        var m := Announcing(s, o, f, u);
        var v := Undisturbed(u, o, m);
        var l: nat;
        if o.vad.decision.Speech? {
          l := Hearing(s, o, f, v);
        } else {
          l := 5;
          if Usable(s, f, o.vad.endpoint) { ClosingWell(s, o, f, v); } else { ClosingBadly(s, o, f, v); }
        }
        UndisturbedOnward(s, o, 3, m);
        UndisturbedOnward(s, o, 3 + m, l);
        n := 3 + m + l;
      }
    }
  }

  // ---- finishing

  /** A finish waits for the worker of an open turn. */
  predicate FinishWaiting(s: System) {
    Open(s) && s.p.queue == [] && s.p.hasSink && s.p.finish.requested && !s.p.finish.handled
  }

  /** The finish names an endpoint in the buffer behind the one before, and the turn has heard a frame. */
  predicate Flushable(s: System, o: Oracle) {
    s.p.turn.lastFrame.Some? && o.flush.Some? && s.p.turn.lastEndpoint < o.flush.value <= |s.p.pcm|
  }

  lemma {:induction false} Refusing(s: System, o: Oracle) returns (n: nat)
    requires FinishWaiting(s) && !Flushable(s, o)
    ensures var t := Undisturbed(s, o, n);
            && t.pc == Retiring(Failure, if s.p.turn.lastFrame.None? then DEFAULT_FRAME else s.p.turn.lastFrame.value)
            && !t.p.stopping && t.p.hasSink && t.events == s.events && t.calls == s.calls && t.scope == s.scope
  {
    var s1 := s.(p := s.p.(finish := s.p.finish.(handled := true)), pc := Finishing);
    assert Undisturbed(s, o, 1) == s1;
    assert Undisturbed(s, o, 2) == s1.(pc := FinishReading);
    n := 3;
    if s.p.turn.lastFrame.Some? {
      assert Undisturbed(s, o, 3).pc == Flushing(s.p.turn.lastFrame.value);
      n := 4;
    }
  }

  lemma {:induction false} AskingForTheFlush(s: System, o: Oracle)
    requires FinishWaiting(s) && Flushable(s, o)
    ensures var f := s.p.turn.lastFrame.value; var t := Undisturbed(s, o, 4);
            && t.pc == FinishClosing(f, o.flush.value) && t.events == s.events && t.calls == s.calls && t.scope == s.scope
            && t.p == s.p.(finish := s.p.finish.(handled := true))
  {
    var f := s.p.turn.lastFrame.value;
    var s1 := s.(p := s.p.(finish := s.p.finish.(handled := true)), pc := Finishing);
    assert Undisturbed(s, o, 1) == s1;
    assert Undisturbed(s, o, 2) == s1.(pc := FinishReading);
    assert Undisturbed(s, o, 3) == s1.(pc := Flushing(f));
  }

  lemma {:induction false} FlushedSpeech(s: System, o: Oracle, f: Frame, u: System) returns (n: nat)
    requires FinishWaiting(s) && Flushable(s, o) && f == s.p.turn.lastFrame.value
    requires u.pc == FinishClosing(f, o.flush.value) && u.events == s.events && u.calls == s.calls && u.scope == s.scope
    requires u.p == s.p.(finish := s.p.finish.(handled := true))
    ensures var t := Undisturbed(u, o, n);
            && t.pc == Inferring(f) && t.events == s.events + Announced(s, f) && t.calls == s.calls && t.scope == s.scope
            && t.p.pcm == s.p.pcm[..o.flush.value] && t.p.queue == [] && !t.p.stopping && t.p.hasSink
  {
    var u1 := Undisturbed(u, o, 1);
    assert u1 == WorkerStep(Undisturbed(u, o, 0), o);
    if s.p.turn.wakeSent {
      n := 2;
      assert s.events + Announced(s, f) == u.events;
      assert u1.pc == FinishSpeaking(f);
    } else {
      n := 3;
      assert u1.pc == FinishWaking(f);
      assert Undisturbed(u, o, 2).pc == FinishSpeaking(f);
    }
  }

  /**
    An undisturbed worker answers a finish with exactly one terminal event and a fresh turn: with
    the recognition of everything up to the flushed endpoint if the turn has heard a frame and the
    flush names a usable endpoint, and with a failure otherwise.
   */
  lemma {:induction false} FinishServedAlone(s: System, o: Oracle) returns (n: nat)
    requires FinishWaiting(s)
    ensures var t := Undisturbed(s, o, n);
            var f := if s.p.turn.lastFrame.None? then DEFAULT_FRAME else s.p.turn.lastFrame.value;
            && Rearmed(t)
            && (!Flushable(s, o) ==> t.events == s.events + [FrameEvent(Failure, f, s.scope)] && t.calls == s.calls)
            && (Flushable(s, o) ==>
                  && t.events == s.events + Announced(s, f)
                                 + [FrameEvent(if o.recognized && s.scope != 0 then EndpointFinal else Failure, f, s.scope)]
                  && |t.calls| == |s.calls| + 1 && t.calls[..|s.calls|] == s.calls
                  && t.calls[|s.calls|].pcm == s.p.pcm[..o.flush.value]
                  && t.calls[|s.calls|].frame == f && t.calls[|s.calls|].scope == s.scope)
  {
    hide Undisturbed, WorkerStep;
    if Flushable(s, o) {
      var f := s.p.turn.lastFrame.value;
      AskingForTheFlush(s, o);
      var u := Undisturbed(s, o, 4);
      var m := FlushedSpeech(s, o, f, u);
      Recognizing(Undisturbed(u, o, m), o);
      UndisturbedOnward(s, o, 4, m);
      UndisturbedOnward(s, o, 4 + m, 3);
      n := 4 + m + 3;
    } else {
      var m := Refusing(s, o);
      GivingUp(Undisturbed(s, o, m), o);
      UndisturbedOnward(s, o, m, 4);
      n := m + 4;
    }
  }
}

/** One callback as a whole, when no other thread runs during it. */
module AudioCallback {
  import opened Wrappers
  import opened Pcm16
  import opened AudioFade
  import opened AudioEngineState
  import opened AudioEngineRuns

  function CommitBreaks(e: Engine): Engine
    requires e.breaks.observed <= e.breaks.requested
  {
    var n := e.breaks.requested - e.breaks.observed;
    if n == 0 then e else e.AdvanceGeneration(n).AdvancePlayback(n).ObserveBreaks(e.breaks.requested)
  }

  function CommitFences(e: Engine): Engine
    requires e.fences.observed <= e.fences.requested
  {
    var n := e.fences.requested - e.fences.observed;
    if n == 0 then e else e.AdvancePlayback(n).ObserveFences(e.fences.requested)
  }

  predicate Consistent(e: Engine) {
    e.breaks.observed <= e.breaks.requested && e.fences.observed <= e.fences.requested
  }

  /** mark_discontinuity from within the callback, and its commit. */
  function Fail(e: Engine, r: Reason): Engine
    requires Consistent(e)
  {
    CommitBreaks(e.(tally := e.tally + multiset{r}).PublishBreak())
  }

  /** The first queued packet of generation `g`, and the queue behind it; stale packets before it are dropped. */
  function PopCurrent(queue: seq<Packet>, g: nat, attempts: nat): (seq<Packet>, Option<Packet>) {
    if attempts == 0 || queue == [] then (queue, None)
    else if queue[0].generation == g then (queue[1..], Some(queue[0]))
    else PopCurrent(queue[1..], g, attempts - 1)
  }

  function Silence(e: Engine, n: nat, call: Call): (Engine, Final) {
    (e, Final(Zeros(n), None, call.hasOutput))
  }

  /** The packet that a callback plays, and the engine without it. */
  function TakePacket(e: Engine): (Engine, Option<Packet>) {
    var (queue, packet) := PopCurrent(e.playback, e.playbackGeneration, PLAYBACK_RING_CAPACITY);
    (e.(playback := queue), packet)
  }

  function RenderedPacket(f: Fade, gain: nat, packet: Option<Packet>): (Fade, seq<Sample>) {
    var input := if packet.Some? && |packet.value.samples| <= FRAME_SAMPLES then packet.value.samples else [];
    RenderFrame(f, gain, Padded(input))
  }

  /** Rendering and emission: nothing has been requested since the commits, so the publication checks pass. */
  function Play(e: Engine, call: Call, gain: nat, fade: Option<nat>): (Engine, Final) {
    var (e', packet) := TakePacket(e);
    var (f, samples) := RenderedPacket(match fade case None => e.fade case Some(total) => Fade(total, total), gain, packet);
    match packet
    case None => (e'.(fade := f), Final(Zeros(FRAME_SAMPLES), None, call.hasOutput))
    case Some(p) =>
      (Account(e'.(fade := f, active := true), call, p, samples),
       Final(samples, Some(Source(p, e.breaks.requested, e.fences.requested)), call.hasOutput))
  }

  /** Accounting for playback of a scope that is heard; a lost account requests a fence. */
  function Account(e: Engine, call: Call, p: Packet, samples: seq<Sample>): Engine {
    if !call.hasOutput || p.scope == 0 || !NonSilent(samples, |p.samples|) then e
    else if |e.writes| < RING_CAPACITY - 1
    then e.(writes := e.writes + [Write(p.scope, e.playbackGeneration, |p.samples|)])
    else e.PublishFence()
  }

  /** The reference and then the capture, or a capture discontinuity if there is no room. */
  function Capture(e: Engine, call: Call, n: nat, final: Final): Engine {
    if !e.CanPushReference() then e.BreakCapture(ReferenceOverflow)
    else e.(references := e.references + [Frame(e.generation, final.samples, n)])
          .PushCapture(Frame(e.generation, call.capture, n))
  }

  /** A callback whose status is good: it fails at its boundary, or plays and, when capturing, publishes. */
  function Carried(c: Engine, n: nat, call: Call, capturing: bool, gain: nat, fade: Option<nat>): (Engine, Final)
    requires Consistent(c)
  {
    if call.throws then Silence(Fail(c, CallbackException), call.frameCount, call)
    else
      var (p, final) := Play(c, call, gain, fade);
      (if capturing then Capture(p, call, n, final) else p, final)
  }

  /** The callback once pending requests are committed. */
  function Served(c: Engine, n: nat, call: Call, gain: nat, fade: Option<nat>): (Engine, Final)
    requires Consistent(c)
  {
    match Judge(call, call.outputUnderflow && c.active, c.capturing, c.capturing && !c.CanPushReference())
    case Marking(reason) => Silence(Fail(c, reason), call.frameCount, call)
    case BreakingCapture => Silence(c.BreakCapture(CaptureInputOverflow), call.frameCount, call)
    case ReadingGeneration(capturing) => Carried(c, n, call, capturing, gain, fade)
    case _ => Silence(c, call.frameCount, call)
  }

  /** The whole callback, the `n`-th. */
  function WholeCallback(e: Engine, n: nat, call: Call, gain: nat, fade: Option<nat>): (Engine, Final)
    requires Consistent(e)
  {
    Served(CommitFences(CommitBreaks(e)), n, call, gain, fade)
  }

  // ---- the consumer's two pops as a whole

  /** A capture of the current generation is delivered; a stale one is dropped together with its reference. */
  function TakeCapture(e: Engine): (Engine, Option<Frame>) {
    match e.PopCapture()
    case (p, None) => (p, None)
    case (p, Some(c)) =>
      if c.generation == e.generation then (p.(delivered := p.delivered + 1), Some(c))
      else (p.PopReference().0.(reportedDrops := p.reportedDrops + 1), None)
  }

  /** The first reference of generation `g` within so many pops; older ones before it are dropped. */
  function FirstOf(queue: seq<Frame>, g: nat, attempts: nat): (seq<Frame>, Option<Frame>) {
    if attempts == 0 || queue == [] then (queue, None)
    else if queue[0].generation == g then (queue[1..], Some(queue[0]))
    else FirstOf(queue[1..], g, attempts - 1)
  }

  // ---- the interleaving semantics, with nobody else running

  /** `k` steps of the callback thread. */
  function Alone(s: System, call: Call, gain: nat, fade: Option<nat>, k: nat): System {
    if k == 0 then s else CallbackStep(Alone(s, call, gain, fade, k - 1), call, gain, fade)
  }

  lemma {:induction false} AloneInTwo(s: System, call: Call, gain: nat, fade: Option<nat>, j: nat, k: nat)
    ensures Alone(Alone(s, call, gain, fade, j), call, gain, fade, k) == Alone(s, call, gain, fade, j + k)
  {
    hide CallbackStep;
    if 0 < k {
      AloneInTwo(s, call, gain, fade, j, k - 1);
      assert j + k - 1 == j + (k - 1);
    }
  }

  /** What one callback is called with, and what its loads of gain and fade request return. */
  datatype Io = Io(call: Call, gain: nat, fade: Option<nat>)

  ghost predicate Reaches(s: System, t: System, io: Io) {
    exists k: nat :: Alone(s, io.call, io.gain, io.fade, k) == t
  }

  lemma StepReaches(s: System, io: Io)
    ensures Reaches(s, CallbackStep(s, io.call, io.gain, io.fade), io)
  {
    hide CallbackStep;
    assert Alone(s, io.call, io.gain, io.fade, 0) == s;
    assert Alone(s, io.call, io.gain, io.fade, 1) == CallbackStep(s, io.call, io.gain, io.fade);
  }

  lemma Onwards(s: System, t: System, u: System, io: Io)
    requires Reaches(s, t, io) && Reaches(t, u, io)
    ensures Reaches(s, u, io)
  {
    hide Alone;
    var j: nat :| Alone(s, io.call, io.gain, io.fade, j) == t;
    var k: nat :| Alone(t, io.call, io.gain, io.fade, k) == u;
    AloneInTwo(s, io.call, io.gain, io.fade, j, k);
  }

  /** The next step of the callback thread, after which `s` has reached one state more. */
  lemma Go(s: System, t: System, io: Io) returns (u: System)
    requires Reaches(s, t, io)
    ensures u == CallbackStep(t, io.call, io.gain, io.fade) && Reaches(s, u, io)
  {
    hide CallbackStep, Reaches;
    u := CallbackStep(t, io.call, io.gain, io.fade);
    StepReaches(t, io);
    Onwards(s, t, u, io);
  }

  /** Between `s` and `t` the callback has stayed the same one and recorded no final frame. */
  ghost predicate Working(s: System, t: System, io: Io) {
    Reaches(s, t, io) && t.calls == s.calls && t.h.finals == s.h.finals
  }

  /** A whole commit of discontinuities, from its first load on. */
  lemma BreaksCommitted(s: System, t: System, call: Call, entering: bool, io: Io) returns (u: System)
    requires Working(s, t, io) && t.pc == Breaking(call, entering, Loading) && Consistent(t.e)
    ensures Working(s, u, io) && u.e == CommitBreaks(t.e)
    ensures u.pc == if entering then Fencing(call, Loading) else Judging(call, Silencing)
  {
    hide Reaches;
    u := Go(s, t, io);
    if t.e.breaks.requested != t.e.breaks.observed {
      u := Go(s, u, io);
      u := Go(s, u, io);
      u := Go(s, u, io);
    }
  }

  lemma FencesCommitted(s: System, t: System, call: Call, io: Io) returns (u: System)
    requires Working(s, t, io) && t.pc == Fencing(call, Loading) && Consistent(t.e)
    ensures Working(s, u, io) && u.e == CommitFences(t.e) && u.pc == Judging(call, ReadingActive)
  {
    hide Reaches;
    u := Go(s, t, io);
    if t.e.fences.requested != t.e.fences.observed {
      u := Go(s, u, io);
      u := Go(s, u, io);
    }
  }

  /** The end of a failed callback: silence, recorded as its final frame. */
  lemma Silenced(s: System, t: System, call: Call, io: Io) returns (u: System)
    requires Working(s, t, io) && t.pc == Judging(call, Silencing)
    ensures Reaches(s, u, io) && u.pc == Outside && u.e == t.e && u.calls == s.calls
    ensures u.h.finals == s.h.finals[s.calls := Final(Zeros(call.frameCount), None, call.hasOutput)]
  {
    hide Reaches;
    u := Go(s, t, io);
  }

  lemma Failed(s: System, t: System, call: Call, reason: Reason, io: Io) returns (u: System)
    requires Working(s, t, io) && t.pc == Judging(call, Marking(reason)) && Consistent(t.e)
    ensures Reaches(s, u, io) && u.pc == Outside && u.e == Fail(t.e, reason) && u.calls == s.calls
    ensures u.h.finals == s.h.finals[s.calls := Final(Zeros(call.frameCount), None, call.hasOutput)]
  {
    hide Reaches, CommitBreaks;
    u := Go(s, t, io);
    u := Go(s, u, io);
    u := BreaksCommitted(s, u, call, false, io);
    u := Silenced(s, u, call, io);
  }

  /** The search for a packet. */
  lemma {:induction false} Searched(s: System, t: System, k: Context, attempt: nat, io: Io) returns (u: System)
    requires Working(s, t, io) && t.pc == Running(k, Popping(attempt)) && attempt <= PLAYBACK_RING_CAPACITY
    ensures var (queue, packet) := PopCurrent(t.e.playback, k.playbackGeneration, PLAYBACK_RING_CAPACITY - attempt);
            Working(s, u, io) && u.pc == Running(k, Rendering(packet)) && u.e == t.e.(playback := queue)
    decreases PLAYBACK_RING_CAPACITY - attempt
  {
    hide Reaches;
    u := Go(s, t, io);
    if attempt < PLAYBACK_RING_CAPACITY && t.e.playback != [] && t.e.playback[0].generation != k.playbackGeneration {
      u := Searched(s, u, k, attempt + 1, io);
    }
  }

  /** Where a callback goes once its final frame is out and accounted for. */
  function AfterFinal(k: Context, final: Final): Pc {
    if k.capturing then Finishing(k, final, Referencing) else Outside
  }

  /** Emission and accounting of a frame that plays a packet. */
  lemma Emitted(s: System, t: System, k: Context, p: Packet, samples: seq<Sample>, final: Final, io: Io) returns (u: System)
    requires Working(s, t, io) && t.pc == Finishing(k, final, Emitting) && final.samples == samples
    requires final.source.Some? && final.source.value.packet == p && final.toDevice == k.call.hasOutput
    requires k.playbackGeneration == t.e.playbackGeneration
    requires t.e.breaks.requested == t.e.breaks.observed && t.e.fences.requested == t.e.fences.observed
    ensures Reaches(s, u, io) && u.calls == s.calls && u.h.finals == s.h.finals[s.calls := final]
    ensures u.pc == AfterFinal(k, final) && u.e == Account(t.e.(active := true), k.call, p, samples)
  {
    hide Reaches, NonSilent;
    u := Go(s, t, io);
    if k.call.hasOutput && p.scope != 0 && NonSilent(samples, |p.samples|) {
      u := Go(s, u, io);
      u := Go(s, u, io);
      u := Go(s, u, io);
      if |t.e.writes| >= RING_CAPACITY - 1 {
        u := Go(s, u, io);
      }
    }
  }

  /** Rendering and emission, from the search for a packet on. */
  lemma Played(s: System, t: System, k: Context, io: Io) returns (u: System)
    requires Working(s, t, io) && t.pc == Running(k, Popping(0)) && k.playbackGeneration == t.e.playbackGeneration
    requires t.e.breaks.requested == t.e.breaks.observed && t.e.fences.requested == t.e.fences.observed
    ensures var (e, final) := Play(t.e, k.call, io.gain, io.fade);
            && Reaches(s, u, io) && u.calls == s.calls && u.h.finals == s.h.finals[s.calls := final]
            && u.pc == AfterFinal(k, final) && u.e == e
  {
    hide Reaches, RenderFrame, Padded, PopCurrent, Account, NonSilent;
    u := Searched(s, t, k, 0, io);
    var (e, packet) := TakePacket(t.e);
    assert u.e == e && u.pc == Running(k, Rendering(packet));
    u := Go(s, u, io);
    var (f, samples) := RenderedPacket(match io.fade case None => e.fade case Some(total) => Fade(total, total), io.gain, packet);
    assert u.e == e.(fade := f);
    if packet.None? {
      u := Go(s, u, io);
    } else {
      u := Go(s, u, io);
      u := Go(s, u, io);
      u := Emitted(s, u, k, packet.value, samples, Play(t.e, k.call, io.gain, io.fade).1, io);
    }
  }

  /** The reference and the capture. */
  lemma Captured(s: System, t: System, k: Context, final: Final, io: Io) returns (u: System)
    requires Reaches(s, t, io) && t.pc == Finishing(k, final, Referencing) && k.generation == t.e.generation
    ensures Reaches(s, u, io) && u.pc == Outside && u.calls == t.calls && u.h.finals == t.h.finals
    ensures u.e == Capture(t.e, k.call, t.calls, final)
  {
    hide Reaches;
    u := Go(s, t, io);
    u := Go(s, u, io);
  }

  lemma CommitsAreConsistent(e: Engine)
    requires Consistent(e)
    ensures var c := CommitFences(CommitBreaks(e));
            c.breaks.requested == c.breaks.observed && c.fences.requested == c.fences.observed
  {
  }

  /** What follows the status checks of a callback that neither failed nor fell silent. */
  lemma Ran(s: System, t: System, call: Call, capturing: bool, io: Io) returns (u: System)
    requires Working(s, t, io) && t.pc == Judging(call, ReadingGeneration(capturing))
    requires t.e.breaks.requested == t.e.breaks.observed && t.e.fences.requested == t.e.fences.observed
    ensures Reaches(s, u, io) && u.pc == Outside && u.calls == s.calls
    ensures var (e, final) := Carried(t.e, s.calls, call, capturing, io.gain, io.fade);
            u.e == e && u.h.finals == s.h.finals[s.calls := final]
  {
    hide Reaches, Play, Capture, Fail;
    u := Go(s, t, io);
    u := Go(s, u, io);
    if call.throws {
      u := Failed(s, u, call, CallbackException, io);
    } else {
      var k := Context(call, capturing, t.e.generation, t.e.playbackGeneration);
      u := Played(s, u, k, io);
      PlayKeepsGeneration(t.e, call, io);
      if capturing {
        u := Captured(s, u, k, Play(t.e, call, io.gain, io.fade).1, io);
      }
    }
  }

  lemma PlayKeepsGeneration(e: Engine, call: Call, io: Io)
    ensures Play(e, call, io.gain, io.fade).0.generation == e.generation
  {
    hide RenderFrame, Padded, PopCurrent, NonSilent;
  }

  /**
    With no other thread running, the steps of one callback end in exactly the state, and record
    exactly the final frame, that the callback as a whole computes.
   */
  lemma UndisturbedCallback(s: System, io: Io) returns (t: System)
    requires s.pc == Outside && Consistent(s.e)
    ensures var n := s.calls + 1;
            && Reaches(s, t, io) && t.pc == Outside && t.calls == n
            && t.e == WholeCallback(s.e, n, io.call, io.gain, io.fade).0
            && t.h.finals == s.h.finals[n := WholeCallback(s.e, n, io.call, io.gain, io.fade).1]
  {
    hide Reaches, Play, Capture, Fail, CommitBreaks, CommitFences, Judge;
    var begun := CallbackStep(s, io.call, io.gain, io.fade);
    StepReaches(s, io);
    BreaksKeepFences(s.e);
    var c := CommitFences(CommitBreaks(s.e));
    CommitsAreConsistent(s.e);
    t := Rest(begun, io, c);
    Onwards(s, begun, t, io);
  }

  lemma BreaksKeepFences(e: Engine)
    requires Consistent(e)
    ensures Consistent(CommitBreaks(e))
  {
  }

  /** Everything after the entry of the callback. */
  lemma Rest(s: System, io: Io, c: Engine) returns (t: System)
    requires s.pc == Breaking(io.call, true, Loading) && Consistent(s.e) && Consistent(CommitBreaks(s.e))
    requires c == CommitFences(CommitBreaks(s.e))
    requires c.breaks.requested == c.breaks.observed && c.fences.requested == c.fences.observed
    ensures Reaches(s, t, io) && t.pc == Outside && t.calls == s.calls
    ensures t.e == WholeCallback(s.e, s.calls, io.call, io.gain, io.fade).0
    ensures t.h.finals == s.h.finals[s.calls := WholeCallback(s.e, s.calls, io.call, io.gain, io.fade).1]
  {
    hide Served, CommitBreaks, CommitFences, Judge;
    var call := io.call;
    assert Reaches(s, s, io) by { assert Alone(s, call, io.gain, io.fade, 0) == s; }
    hide Reaches;
    t := BreaksCommitted(s, s, call, true, io);
    t := FencesCommitted(s, t, call, io);
    t := Go(s, t, io);
    t := Go(s, t, io);
    t := Go(s, t, io);
    var verdict := Judge(call, call.outputUnderflow && c.active, c.capturing, c.capturing && !c.CanPushReference());
    assert t.pc == Judging(call, verdict) && t.e == c;
    t := Decided(s, t, io, verdict);
  }

  /** Everything after the status has been judged. */
  lemma Decided(s: System, t: System, io: Io, verdict: JudgeAt) returns (u: System)
    requires Working(s, t, io) && t.pc == Judging(io.call, verdict)
    requires verdict == Judge(io.call, io.call.outputUnderflow && t.e.active, t.e.capturing,
                              t.e.capturing && !t.e.CanPushReference())
    requires t.e.breaks.requested == t.e.breaks.observed && t.e.fences.requested == t.e.fences.observed
    ensures Reaches(s, u, io) && u.pc == Outside && u.calls == s.calls
    ensures u.e == Served(t.e, s.calls, io.call, io.gain, io.fade).0
    ensures u.h.finals == s.h.finals[s.calls := Served(t.e, s.calls, io.call, io.gain, io.fade).1]
  {
    hide Carried, Fail, CommitBreaks, CommitFences, Judge, Zeros, Reaches;
    JudgeChooses(io.call, io.call.outputUnderflow && t.e.active, t.e.capturing, t.e.capturing && !t.e.CanPushReference());
    match verdict
    case Marking(reason) => u := Failed(s, t, io.call, reason, io);
    case BreakingCapture =>
      u := Go(s, t, io);
      u := Silenced(s, u, io.call, io);
    case Silencing => u := Silenced(s, t, io.call, io);
    case ReadingGeneration(capturing) => u := Ran(s, t, io.call, capturing, io);
  }

  lemma JudgeChooses(call: Call, activeXrun: bool, capturing: bool, full: bool)
    ensures var at := Judge(call, activeXrun, capturing, full);
            at.Marking? || at.BreakingCapture? || at.Silencing? || at == ReadingGeneration(capturing)
  {
  }
}

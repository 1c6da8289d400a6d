/**
  Fence safety: a packet whose generation was read before a fence or discontinuity request is
  never in a final frame whose publication check came after that request.
 */
module AudioFence {
  import opened Wrappers
  import opened Pcm16
  import opened AudioFade
  import opened AudioEngineState
  import opened AudioEngineRuns

  // ---- the clocks

  predicate Committing(at: CommitAt, r: Requests) {
    at.Loading? || r.observed < at.requested <= r.requested
  }

  /** The playback generation counts the requests acted on; nothing is acted on that was not requested. */
  predicate Clock(s: System) {
    && s.e.breaks.observed <= s.e.breaks.requested
    && s.e.fences.observed <= s.e.fences.requested
    && (s.pc.Breaking? ==> Committing(s.pc.commitAt, s.e.breaks))
    && (s.pc.Fencing? ==> Committing(s.pc.commitAt, s.e.fences))
    && s.e.playbackGeneration == 1 + Acted(s).discontinuities + Acted(s).fences
  }

  predicate NotAfter(a: Stamp, b: Stamp) {
    a.discontinuities <= b.discontinuities && a.fences <= b.fences
  }

  /** The callback has read the playback generation. */
  predicate HasContext(pc: Pc) {
    pc.Running? || pc.Finishing? || pc.Capturing?
  }

  // ---- packets

  /** The packet carries the playback generation of some earlier moment, and at most a frame of samples. */
  predicate Stamped(p: Packet, now: Stamp, acted: Stamp) {
    && p.generation == 1 + p.acted.discontinuities + p.acted.fences
    && 0 < |p.samples| <= FRAME_SAMPLES
    && NotAfter(p.acted, p.asked) && NotAfter(p.asked, now) && NotAfter(p.acted, acted)
  }

  predicate AllStamped(ps: seq<Packet>, now: Stamp, acted: Stamp) {
    forall i :: 0 <= i < |ps| ==> Stamped(ps[i], now, acted)
  }

  predicate Playable(p: Packet, k: Context, s: System) {
    Stamped(p, s.e.Now(), Acted(s)) && p.generation == k.playbackGeneration
  }

  predicate PacketAt(at: RenderAt, k: Context, s: System) {
    match at
    case Popping(_) => true
    case Rendering(found) => found.Some? ==> Playable(found.value, k, s)
    case CheckingBreaks(_, packet) => Playable(packet, k, s)
    case CheckingFences(_, packet, breaksSeen) =>
      Playable(packet, k, s) && breaksSeen == packet.asked.discontinuities
  }

  predicate Packets(s: System) {
    && AllStamped(s.e.playback, s.e.Now(), Acted(s))
    && (s.producer.Pushing? ==> Stamped(s.producer.packet, s.e.Now(), Acted(s)))
    && (HasContext(s.pc) ==> s.pc.k.playbackGeneration == s.e.playbackGeneration)
    && (s.pc.Running? ==> PacketAt(s.pc.renderAt, s.pc.k, s))
  }

  // ---- what is heard

  /** No request of either kind was published between the packet's generation read and its check. */
  predicate Safe(source: Source) {
    source.packet.asked == Stamp(source.breaksSeen, source.fencesSeen)
  }

  /** A final frame is either silent or plays a packet that no request had overtaken. */
  predicate Sound(f: Final) {
    match f.source
    case None => forall i :: 0 <= i < |f.samples| ==> f.samples[i] == 0
    case Some(source) => Safe(source)
  }

  predicate Finals(s: System) {
    && (forall c :: c in s.h.finals ==> Sound(s.h.finals[c]))
    && (s.pc.Finishing? ==> Sound(s.pc.final))
  }


  // ---- every step keeps them

  predicate Inv(s: System) {
    Clock(s) && Packets(s) && Finals(s)
  }

  /** From `s` to `t` no clock has gone back. */
  predicate Forward(s: System, t: System) {
    && Clock(t)
    && NotAfter(s.e.Now(), t.e.Now()) && NotAfter(Acted(s), Acted(t))
    && (HasContext(s.pc) ==> t.e.playbackGeneration == s.e.playbackGeneration)
  }

  lemma BreakForward(s: System)
    requires Clock(s) && s.pc.Breaking?
    ensures Forward(s, BreakStep(s, s.pc.call, s.pc.entering, s.pc.commitAt))
  {
  }

  lemma BreakKeeps(s: System)
    requires Inv(s) && s.pc.Breaking?
    ensures Inv(BreakStep(s, s.pc.call, s.pc.entering, s.pc.commitAt))
  {
    BreakForward(s);
    var t := BreakStep(s, s.pc.call, s.pc.entering, s.pc.commitAt);
    assert AllStamped(s.e.playback, t.e.Now(), Acted(t));
  }

  lemma FenceForward(s: System)
    requires Clock(s) && s.pc.Fencing?
    ensures Forward(s, FenceStep(s, s.pc.call, s.pc.commitAt))
  {
  }

  lemma FenceKeeps(s: System)
    requires Inv(s) && s.pc.Fencing?
    ensures Inv(FenceStep(s, s.pc.call, s.pc.commitAt))
  {
    FenceForward(s);
    var t := FenceStep(s, s.pc.call, s.pc.commitAt);
    assert AllStamped(s.e.playback, t.e.Now(), Acted(t));
  }

  lemma JudgeForward(s: System)
    requires Clock(s) && s.pc.Judging?
    ensures Forward(s, JudgeStep(s, s.pc.call, s.pc.judgeAt))
  {
  }

  lemma JudgeKeepsPackets(s: System)
    requires Inv(s) && s.pc.Judging?
    ensures Packets(JudgeStep(s, s.pc.call, s.pc.judgeAt))
  {
    hide Finals, Judge;
    JudgeForward(s);
    var t := JudgeStep(s, s.pc.call, s.pc.judgeAt);
    assert AllStamped(s.e.playback, t.e.Now(), Acted(t));
  }

  lemma JudgeKeepsFinals(s: System)
    requires Inv(s) && s.pc.Judging?
    ensures Finals(JudgeStep(s, s.pc.call, s.pc.judgeAt))
  {
    hide AllStamped, Judge;
  }

  lemma JudgeKeeps(s: System)
    requires Inv(s) && s.pc.Judging?
    ensures Inv(JudgeStep(s, s.pc.call, s.pc.judgeAt))
  {
    JudgeForward(s);
    JudgeKeepsPackets(s);
    JudgeKeepsFinals(s);
  }

  lemma RenderForward(s: System, gain: nat, fade: Option<nat>)
    requires Clock(s) && s.pc.Running?
    ensures Forward(s, RenderStep(s, s.pc.k, s.pc.renderAt, gain, fade))
  {
    hide RenderFrame, Padded;
  }

  lemma RenderKeepsPackets(s: System, gain: nat, fade: Option<nat>)
    requires Inv(s) && s.pc.Running?
    ensures Packets(RenderStep(s, s.pc.k, s.pc.renderAt, gain, fade))
  {
    hide Finals, RenderFrame, Padded;
    RenderForward(s, gain, fade);
    var t := RenderStep(s, s.pc.k, s.pc.renderAt, gain, fade);
    assert AllStamped(s.e.playback, t.e.Now(), Acted(t));
  }

  lemma RenderKeepsFinals(s: System, gain: nat, fade: Option<nat>)
    requires Inv(s) && s.pc.Running?
    ensures Finals(RenderStep(s, s.pc.k, s.pc.renderAt, gain, fade))
  {
    hide AllStamped, RenderFrame, Padded;
  }

  lemma RenderKeeps(s: System, gain: nat, fade: Option<nat>)
    requires Inv(s) && s.pc.Running?
    ensures Inv(RenderStep(s, s.pc.k, s.pc.renderAt, gain, fade))
  {
    RenderForward(s, gain, fade);
    RenderKeepsPackets(s, gain, fade);
    RenderKeepsFinals(s, gain, fade);
  }

  lemma FinishForward(s: System)
    requires Clock(s) && s.pc.Finishing?
    ensures Forward(s, FinishStep(s, s.pc.k, s.pc.final, s.pc.finishAt))
  {
  }

  lemma FinishLeavesPackets(s: System)
    requires s.pc.Finishing?
    ensures var t := FinishStep(s, s.pc.k, s.pc.final, s.pc.finishAt);
            t.e.playback == s.e.playback && t.producer == s.producer && !t.pc.Running?
            && (HasContext(t.pc) ==> t.pc.k == s.pc.k)
  {
    hide NonSilent;
  }

  lemma FinishKeepsPackets(s: System)
    requires Inv(s) && s.pc.Finishing?
    ensures Packets(FinishStep(s, s.pc.k, s.pc.final, s.pc.finishAt))
  {
    hide FinishStep, Finals;
    FinishForward(s);
    FinishLeavesPackets(s);
    var t := FinishStep(s, s.pc.k, s.pc.final, s.pc.finishAt);
    assert AllStamped(s.e.playback, t.e.Now(), Acted(t));
  }

  lemma FinishKeepsFinals(s: System)
    requires Inv(s) && s.pc.Finishing?
    ensures Finals(FinishStep(s, s.pc.k, s.pc.final, s.pc.finishAt))
  {
    hide AllStamped;
  }

  lemma FinishKeeps(s: System)
    requires Inv(s) && s.pc.Finishing?
    ensures Inv(FinishStep(s, s.pc.k, s.pc.final, s.pc.finishAt))
  {
    FinishForward(s);
    FinishKeepsPackets(s);
    FinishKeepsFinals(s);
  }

  lemma ProducerForward(s: System, samples: seq<Sample>, scope: nat)
    requires Clock(s)
    ensures Forward(s, ProducerStep(s, samples, scope))
  {
  }

  lemma ProducerKeepsPackets(s: System, samples: seq<Sample>, scope: nat)
    requires Inv(s)
    ensures Packets(ProducerStep(s, samples, scope))
  {
    hide Finals;
    ProducerForward(s, samples, scope);
    var t := ProducerStep(s, samples, scope);
    assert AllStamped(s.e.playback, t.e.Now(), Acted(t));
  }

  lemma ProducerKeepsFinals(s: System, samples: seq<Sample>, scope: nat)
    requires Inv(s)
    ensures Finals(ProducerStep(s, samples, scope))
  {
    hide AllStamped;
  }

  lemma ProducerKeeps(s: System, samples: seq<Sample>, scope: nat)
    requires Inv(s)
    ensures Inv(ProducerStep(s, samples, scope))
  {
    ProducerForward(s, samples, scope);
    ProducerKeepsPackets(s, samples, scope);
    ProducerKeepsFinals(s, samples, scope);
  }

  lemma ConsumerForward(s: System)
    requires Clock(s)
    ensures Forward(s, ConsumerStep(s))
  {
  }

  lemma ConsumerLeavesPlayback(s: System)
    ensures var t := ConsumerStep(s);
            && t.e.playback == s.e.playback && t.e.playbackGeneration == s.e.playbackGeneration
            && t.producer == s.producer && t.pc == s.pc && t.h.finals == s.h.finals
  {
  }

  lemma ConsumerKeeps(s: System)
    requires Inv(s)
    ensures Inv(ConsumerStep(s))
  {
    hide ConsumerStep;
    ConsumerForward(s);
    ConsumerLeavesPlayback(s);
    var t := ConsumerStep(s);
    assert AllStamped(s.e.playback, t.e.Now(), Acted(t));
  }

  lemma ControlForward(s: System, step: Step)
    requires Clock(s)
    ensures Forward(s, ControlStep(s, step))
  {
  }

  lemma ControlLeavesPlayback(s: System, step: Step)
    ensures var t := ControlStep(s, step);
            && t.e.playback == s.e.playback && t.e.playbackGeneration == s.e.playbackGeneration
            && t.producer == s.producer && t.pc == s.pc && t.h.finals == s.h.finals
  {
  }

  lemma ControlKeeps(s: System, step: Step)
    requires Inv(s)
    ensures Inv(ControlStep(s, step))
  {
    hide ControlStep;
    ControlForward(s, step);
    ControlLeavesPlayback(s, step);
    var t := ControlStep(s, step);
    assert AllStamped(s.e.playback, t.e.Now(), Acted(t));
  }

  lemma NextKeeps(s: System, step: Step)
    requires Inv(s)
    ensures Inv(Next(s, step)) && NotAfter(s.e.Now(), Next(s, step).e.Now())
  {
    match step
    case Callback(call, gain, fade) => CallbackKeeps(s, call, gain, fade);
    case Produce(samples, scope) => ProducerForward(s, samples, scope); ProducerKeeps(s, samples, scope);
    case Consume => ConsumerForward(s); ConsumerKeeps(s);
    case _ => ControlForward(s, step); ControlKeeps(s, step);
  }

  lemma CallbackKeeps(s: System, call: Call, gain: nat, fade: Option<nat>)
    requires Inv(s)
    ensures Inv(CallbackStep(s, call, gain, fade))
    ensures NotAfter(s.e.Now(), CallbackStep(s, call, gain, fade).e.Now())
  {
    hide BreakStep, FenceStep, JudgeStep, RenderStep, FinishStep;
    match s.pc
    case Breaking(_, _, _) => BreakForward(s); BreakKeeps(s);
    case Fencing(_, _) => FenceForward(s); FenceKeeps(s);
    case Judging(_, _) => JudgeForward(s); JudgeKeeps(s);
    case Running(_, _) => RenderForward(s, gain, fade); RenderKeeps(s, gain, fade);
    case Finishing(_, _, _) => FinishForward(s); FinishKeeps(s);
    case _ =>
  }

  lemma {:induction false} ReachableStatesKeep(steps: seq<Step>, n: nat)
    requires n <= |steps|
    ensures Inv(Run(BEGIN, steps, n))
  {
    if 0 < n {
      ReachableStatesKeep(steps, n - 1);
      NextKeeps(Run(BEGIN, steps, n - 1), steps[n - 1]);
    }
  }

  lemma {:induction false} ClockHolds(steps: seq<Step>, n: nat)
    requires n <= |steps|
    ensures Clock(Run(BEGIN, steps, n))
  {
    ReachableStatesKeep(steps, n);
  }

  // ---- the safety statement, over points of a run

  /** The packet has read its generation and has not been taken by the callback. */
  predicate Queued(s: System, p: Packet) {
    p in s.e.playback || (s.producer.Pushing? && s.producer.packet == p)
  }

  /** Callback `c` has not yet made its publication check for discontinuity requests. */
  predicate BreaksUnchecked(s: System, c: nat) {
    c !in s.h.finals && (s.calls == c ==> !s.pc.Finishing? && !(s.pc.Running? && s.pc.renderAt.CheckingFences?))
  }

  /** Callback `c` has not yet made its publication check for playback fences. */
  predicate FencesUnchecked(s: System, c: nat) {
    c !in s.h.finals && (s.calls == c ==> !s.pc.Finishing?)
  }

  predicate SeenSince(f: Final, since: Stamp) {
    f.source.Some? ==> since.discontinuities <= f.source.value.breaksSeen && since.fences <= f.source.value.fencesSeen
  }

  /** Whatever callback `c` plays, it has checked the requests published by the moment `since`. */
  predicate ChecksAfter(s: System, c: nat, since: Stamp) {
    && NotAfter(since, s.e.Now())
    && (c in s.h.finals ==> SeenSince(s.h.finals[c], since))
    && (s.calls == c && s.pc.Finishing? ==> SeenSince(s.pc.final, since))
    && (s.calls == c && s.pc.Running? && s.pc.renderAt.CheckingFences? ==>
          since.discontinuities <= s.pc.renderAt.breaksSeen)
  }

  lemma OthersLeaveTheCallback(s: System, step: Step)
    requires !step.Callback?
    ensures var t := Next(s, step); t.pc == s.pc && t.calls == s.calls && t.h.finals == s.h.finals
  {
  }

  lemma RenderChecksAfter(s: System, gain: nat, fade: Option<nat>, c: nat, since: Stamp)
    requires ChecksAfter(s, c, since) && s.pc.Running?
    ensures ChecksAfter(RenderStep(s, s.pc.k, s.pc.renderAt, gain, fade), c, since)
  {
  }

  lemma FinishChecksAfter(s: System, c: nat, since: Stamp)
    requires ChecksAfter(s, c, since) && s.pc.Finishing?
    ensures ChecksAfter(FinishStep(s, s.pc.k, s.pc.final, s.pc.finishAt), c, since)
  {
  }

  lemma JudgeChecksAfter(s: System, c: nat, since: Stamp)
    requires ChecksAfter(s, c, since) && s.pc.Judging?
    ensures ChecksAfter(JudgeStep(s, s.pc.call, s.pc.judgeAt), c, since)
  {
  }

  lemma ChecksStayAfter(s: System, step: Step, c: nat, since: Stamp)
    requires Inv(s) && ChecksAfter(s, c, since)
    ensures ChecksAfter(Next(s, step), c, since)
  {
    hide RenderStep, FinishStep, JudgeStep, Inv;
    NextKeeps(s, step);
    if step.Callback? {
      match s.pc
      case Judging(_, _) => JudgeChecksAfter(s, c, since);
      case Running(_, _) => RenderChecksAfter(s, step.gain, step.fade, c, since);
      case Finishing(_, _, _) => FinishChecksAfter(s, c, since);
      case _ =>
    } else {
      OthersLeaveTheCallback(s, step);
    }
  }

  lemma {:induction false} ChecksComeAfter(steps: seq<Step>, r: nat, m: nat, c: nat, since: Stamp)
    requires r <= m <= |steps| && ChecksAfter(Run(BEGIN, steps, r), c, since)
    ensures ChecksAfter(Run(BEGIN, steps, m), c, since)
  {
    hide Next, Inv, ChecksAfter;
    if r < m {
      ChecksComeAfter(steps, r, m - 1, c, since);
      ReachableStatesKeep(steps, m - 1);
      ChecksStayAfter(Run(BEGIN, steps, m - 1), steps[m - 1], c, since);
    }
  }

  lemma QueuedWasAskedBefore(s: System, p: Packet)
    requires Inv(s) && Queued(s, p)
    ensures NotAfter(p.asked, s.e.Now())
  {
    if p in s.e.playback {
      var i :| 0 <= i < |s.e.playback| && s.e.playback[i] == p;
      assert Stamped(s.e.playback[i], s.e.Now(), Acted(s));
    }
  }

  /**
    In every interleaving: a packet waiting at point `n`, overtaken by a request published
    between `n` and `r`, is not what callback `c` plays if at `r` that callback still had its
    check for such requests ahead of it.
   */
  lemma {:induction false} OvertakenPacketIsNeverHeard(steps: seq<Step>, n: nat, r: nat, m: nat, p: Packet, c: nat)
    requires n <= r <= m <= |steps| && Queued(Run(BEGIN, steps, n), p)
    requires
      || (Run(BEGIN, steps, n).e.breaks.requested < Run(BEGIN, steps, r).e.breaks.requested
          && BreaksUnchecked(Run(BEGIN, steps, r), c))
      || (Run(BEGIN, steps, n).e.fences.requested < Run(BEGIN, steps, r).e.fences.requested
          && FencesUnchecked(Run(BEGIN, steps, r), c))
    requires c in Run(BEGIN, steps, m).h.finals
    ensures var f := Run(BEGIN, steps, m).h.finals[c]; f.source.Some? ==> f.source.value.packet != p
  {
    var s, t := Run(BEGIN, steps, n), Run(BEGIN, steps, r);
    ReachableStatesKeep(steps, n);
    ReachableStatesKeep(steps, m);
    QueuedWasAskedBefore(s, p);
    if s.e.breaks.requested < t.e.breaks.requested && BreaksUnchecked(t, c) {
      ChecksComeAfter(steps, r, m, c, Stamp(t.e.breaks.requested, 0));
    } else {
      ChecksComeAfter(steps, r, m, c, Stamp(0, t.e.fences.requested));
    }
  }

  /** In every reachable state a final frame is silent or plays a packet no request has overtaken. */
  lemma {:induction false} FinalFramesAreSound(steps: seq<Step>, c: nat)
    requires c in Run(BEGIN, steps, |steps|).h.finals
    ensures Sound(Run(BEGIN, steps, |steps|).h.finals[c])
  {
    ReachableStatesKeep(steps, |steps|);
  }
}

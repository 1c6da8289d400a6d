/**
  The capture ring and the reference ring: the waiting references always belong to the newest
  captures, so a pump hands over the two halves of one callback exactly when the rings were
  level at the acceptance of its capture and the generation stood still until the hand-over.
 */
module AudioLockstep {
  import opened Wrappers
  import opened AudioFade
  import opened AudioEngineState
  import opened AudioEngineRuns
  import opened AudioFence

  /** Two frames published by the same callback under the same generation. */
  predicate Twins(a: Frame, b: Frame) {
    a.call == b.call && a.generation == b.generation
  }

  predicate InStep(references: seq<Frame>, captures: seq<Frame>) {
    && |references| == |captures|
    && forall i :: 0 <= i < |references| ==> Twins(references[i], captures[i])
  }

  /** The references belong to the last captures of the line. */
  predicate Trailing(references: seq<Frame>, line: seq<Frame>) {
    && |references| <= |line|
    && InStep(references, line[|line| - |references|..])
  }

  /** The captures known to the consumer, the ring and the callback, oldest first. */
  function Known(s: System): seq<Frame> {
    (if s.consumer.Resting? then [] else [s.consumer.capture]) + s.e.captures + Pending(s)
  }

  predicate Rising(line: seq<Frame>, bound: nat) {
    && (forall i :: 0 <= i < |line| ==> line[i].call <= bound)
    && (forall i, j :: 0 <= i < j < |line| ==> line[i].call < line[j].call)
  }

  /** The last callback that can have published a capture. */
  function LastCall(s: System): nat {
    if s.pc.Outside? || s.pc.Capturing? || s.calls == 0 then s.calls else s.calls - 1
  }

  predicate Begun(s: System) {
    s.calls == 0 ==> s.pc.Outside?
  }

  predicate Rings(s: System) {
    && |s.e.references| < RING_CAPACITY
    && |s.e.captures| <= RING_CAPACITY
    && Trailing(s.e.references, Line(s))
    && Rising(Known(s), LastCall(s))
    && Begun(s)
  }

  /** What the consumer knows between accepting a capture and accepting its reference. */
  predicate WindowHolds(s: System) {
    var c := s.consumer;
    && (c.Expecting? ==> c.expected == c.capture.generation)
    && (InWindow(c) ==>
          if c.w.moved then c.capture.generation < s.e.generation else c.capture.generation == s.e.generation)
    && (c.Asking? ==> (c.w.level <==> Level(s)))
    && (c.Fetching? || c.Confirming? ==>
          && c.expected <= s.e.generation
          && (!c.w.moved ==> c.expected == c.capture.generation)
          && (0 < c.attempt && c.w.level ==> c.w.moved))
    && (c.Fetching? ==> (c.w.level && c.attempt == 0 <==> Level(s)))
    && (c.Confirming? ==>
          && c.reference.generation == c.expected
          && (if c.w.level && c.attempt == 0 then Twins(c.reference, c.capture) else c.capture.call < c.reference.call))
  }

  /** A pump yields the two halves of one callback exactly when it began level and the generation stood still. */
  predicate PairHolds(p: Pair) {
    Twins(p.reference, p.capture) <==> p.w.level && !p.w.moved
  }

  /** A stale capture takes its own reference with it exactly when the rings were level. */
  predicate DrainHolds(d: Drained) {
    d.reference.Some? && Twins(d.reference.value, d.capture) <==> d.level
  }

  predicate Deliveries(s: System) {
    && (forall i :: 0 <= i < |s.h.pairs| ==> PairHolds(s.h.pairs[i]))
    && (forall i :: 0 <= i < |s.h.drained| ==> DrainHolds(s.h.drained[i]))
  }

  predicate Lockstep(s: System) {
    Rings(s) && WindowHolds(s) && Deliveries(s)
  }

  /** The invariant looks at nothing else. */
  predicate SameRings(s: System, t: System) {
    && t.e.references == s.e.references && t.e.captures == s.e.captures
    && t.e.generation == s.e.generation && t.consumer == s.consumer
    && t.h.pairs == s.h.pairs && t.h.drained == s.h.drained && Pending(t) == Pending(s)
    && LastCall(s) <= LastCall(t) && Begun(t)
  }

  lemma SameRingsKeep(s: System, t: System)
    requires Lockstep(s) && SameRings(s, t)
    ensures Lockstep(t)
  {
  }

  /** The generation moves forward: the window, if one is open, is disturbed. */
  lemma MovingKeeps(s: System, n: nat)
    requires Lockstep(s) && 0 < n
    ensures Lockstep(Moved(s).(e := s.e.(generation := s.e.generation + n)))
  {
    hide Trailing, Rising, PairHolds, DrainHolds;
  }

  lemma MovedKeeps(s: System, n: nat, t: System)
    requires Lockstep(s) && 0 < n
    requires SameRings(Moved(s).(e := s.e.(generation := s.e.generation + n)), t)
    ensures Lockstep(t)
  {
    hide Lockstep, SameRings, Moved;
    MovingKeeps(s, n);
    SameRingsKeep(Moved(s).(e := s.e.(generation := s.e.generation + n)), t);
  }

  lemma BreakKeepsStep(s: System)
    requires Lockstep(s) && Clock(s) && s.pc.Breaking?
    ensures Lockstep(BreakStep(s, s.pc.call, s.pc.entering, s.pc.commitAt))
  {
    var t := BreakStep(s, s.pc.call, s.pc.entering, s.pc.commitAt);
    if s.pc.commitAt.AddingGeneration? {
      MovedKeeps(s, s.pc.commitAt.requested - s.e.breaks.observed, t);
    } else {
      SameRingsKeep(s, t);
    }
  }

  lemma JudgeKeepsStep(s: System)
    requires Lockstep(s) && s.pc.Judging?
    ensures Lockstep(JudgeStep(s, s.pc.call, s.pc.judgeAt))
  {
    var t := JudgeStep(s, s.pc.call, s.pc.judgeAt);
    if s.pc.judgeAt.BreakingCapture? {
      MovedKeeps(s, 1, t);
    } else {
      SameRingsKeep(s, t);
    }
  }

  lemma FinishKeepsStep(s: System)
    requires Lockstep(s) && s.pc.Finishing?
    ensures Lockstep(FinishStep(s, s.pc.k, s.pc.final, s.pc.finishAt))
  {
    if s.pc.finishAt.Referencing? {
      ReferenceKeeps(s);
    } else if s.pc.finishAt.LosingReference? {
      MovedKeeps(s, 1, FinishStep(s, s.pc.k, s.pc.final, s.pc.finishAt));
    } else {
      SameRingsKeep(s, FinishStep(s, s.pc.k, s.pc.final, s.pc.finishAt));
    }
  }

  lemma ReferenceKeeps(s: System)
    requires Lockstep(s) && s.pc.Finishing? && s.pc.finishAt.Referencing?
    ensures Lockstep(FinishStep(s, s.pc.k, s.pc.final, Referencing))
  {
    var t := FinishStep(s, s.pc.k, s.pc.final, Referencing);
    if s.e.CanPushReference() {
      assert Line(t) == Line(s) + Pending(t) && Known(t) == Known(s) + Pending(t);
      LineGrows(s.e.references, Line(s), t.e.references[|s.e.references|], Pending(t)[0]);
    } else {
      SameRingsKeep(s, t);
    }
  }

  lemma LineGrows(references: seq<Frame>, line: seq<Frame>, r: Frame, c: Frame)
    requires Trailing(references, line) && Twins(r, c)
    ensures Trailing(references + [r], line + [c])
  {
  }

  lemma OneLess(references: seq<Frame>, front: seq<Frame>, c: Frame, back: seq<Frame>)
    requires Trailing(references, front + [c] + back) && |references| <= |back|
    ensures Trailing(references, front + back)
  {
    var line, shorter, n := front + [c] + back, front + back, |references|;
    assert line[|line| - n..] == back[|back| - n..] == shorter[|shorter| - n..];
  }

  lemma OneLessRises(front: seq<Frame>, c: Frame, back: seq<Frame>, bound: nat)
    requires Rising(front + [c] + back, bound)
    ensures Rising(front + back, bound)
  {
    var line, shorter := front + [c] + back, front + back;
    forall i | 0 <= i < |shorter| ensures shorter[i] == line[if i < |front| then i else i + 1] {}
  }

  lemma CaptureKeepsRings(s: System, t: System)
    requires Rings(s) && s.pc.Capturing?
    requires t == s.(e := s.e.PushCapture(Frame(s.pc.k.generation, s.pc.k.call.capture, s.calls)), pc := Outside)
    ensures Rings(t)
  {
    hide Trailing, Rising;
    if |s.e.captures| < RING_CAPACITY {
      assert Line(t) == Line(s) && Known(t) == Known(s);
    } else {
      var c, back := s.e.captures[0], s.e.captures[1..] + Pending(s);
      var taken := if s.consumer.Resting? then [] else [s.consumer.capture];
      assert Line(s) == Held(s.consumer) + [c] + back && Line(t) == Held(s.consumer) + back;
      assert Known(s) == taken + [c] + back && Known(t) == taken + back;
      OneLess(s.e.references, Held(s.consumer), c, back);
      OneLessRises(taken, c, back, LastCall(s));
    }
  }

  /** A capture pushed out of the full ring had no reference any more. */
  lemma CaptureKeepsStep(s: System)
    requires Lockstep(s) && s.pc.Capturing?
    ensures Lockstep(s.(e := s.e.PushCapture(Frame(s.pc.k.generation, s.pc.k.call.capture, s.calls)), pc := Outside))
  {
    hide Trailing, Rising, PairHolds, DrainHolds;
    CaptureKeepsRings(s, s.(e := s.e.PushCapture(Frame(s.pc.k.generation, s.pc.k.call.capture, s.calls)), pc := Outside));
  }

  lemma FenceSameRings(s: System)
    requires s.pc.Fencing? && Clock(s) && Begun(s)
    ensures SameRings(s, FenceStep(s, s.pc.call, s.pc.commitAt))
  {
  }

  lemma RenderSameRings(s: System, gain: nat, fade: Option<nat>)
    requires s.pc.Running? && Begun(s)
    ensures SameRings(s, RenderStep(s, s.pc.k, s.pc.renderAt, gain, fade))
  {
    hide RenderFrame, Padded;
  }

  lemma HasBegun(s: System)
    requires Lockstep(s)
    ensures Begun(s)
  {
  }

  lemma CallbackKeepsStep(s: System, call: Call, gain: nat, fade: Option<nat>)
    requires Lockstep(s) && Clock(s)
    ensures Lockstep(CallbackStep(s, call, gain, fade))
  {
    hide BreakStep, JudgeStep, FinishStep, FenceStep, RenderStep, Lockstep;
    HasBegun(s);
    match s.pc
    case Breaking(_, _, _) => BreakKeepsStep(s);
    case Fencing(_, _) => FenceSameRings(s); SameRingsKeep(s, CallbackStep(s, call, gain, fade));
    case Running(_, _) => RenderSameRings(s, gain, fade); SameRingsKeep(s, CallbackStep(s, call, gain, fade));
    case Judging(_, _) => JudgeKeepsStep(s);
    case Finishing(_, _, _) => FinishKeepsStep(s);
    case Capturing(_) => CaptureKeepsStep(s);
    case _ => SameRingsKeep(s, CallbackStep(s, call, gain, fade));
  }

  lemma TakingKeeps(s: System)
    requires Lockstep(s) && (s.consumer.Resting? || s.consumer.Popped? || s.consumer.Expecting?)
    ensures Lockstep(ConsumerStep(s))
  {
    hide Trailing, Rising, PairHolds, DrainHolds;
    var t := ConsumerStep(s);
    assert Line(t) == Line(s) && Known(t) == Known(s);
  }

  /** Captures behind the one in hand. */
  function Behind(s: System): seq<Frame> {
    s.e.captures + Pending(s)
  }

  lemma FirstReference(references: seq<Frame>, c: Frame, back: seq<Frame>, bound: nat)
    requires Trailing(references, [c] + back) && Rising([c] + back, bound) && references != []
    ensures Trailing(references[1..], back)
    ensures if |references| == 1 + |back| then Twins(references[0], c) else c.call < references[0].call
  {
    var line, n := [c] + back, |references|;
    var first := |line| - n;
    assert Twins(references[0], line[first..][0]) && line[first..][0] == line[first];
    assert line[0] == c && (0 < first ==> line[0].call < line[first].call);
    forall i | 0 <= i < n - 1 ensures Twins(references[1..][i], back[first..][i]) {
      assert Twins(references[i + 1], line[first..][i + 1]);
      assert back[first..][i] == line[first + 1 + i];
    }
  }

  lemma OldestReference(s: System)
    requires Rings(s) && |Held(s.consumer)| == 1 && s.e.references != []
    ensures Trailing(s.e.references[1..], Behind(s))
    ensures
      if Level(s) then Twins(s.e.references[0], s.consumer.capture)
      else s.consumer.capture.call < s.e.references[0].call
  {
    hide Trailing, Rising;
    assert Known(s) == Line(s) == [s.consumer.capture] + Behind(s);
    FirstReference(s.e.references, s.consumer.capture, Behind(s), LastCall(s));
  }

  /** Once the consumer lets go of its capture, what is behind it remains. */
  lemma LettingGo(s: System, t: System)
    requires Rings(s) && !s.consumer.Resting? && t.consumer.Resting?
    requires t.e.captures == s.e.captures && t.pc == s.pc && t.calls == s.calls
    requires t.e.references == s.e.references || (s.e.references != [] && t.e.references == s.e.references[1..])
    requires Trailing(t.e.references, Behind(s))
    ensures Rings(t)
  {
    hide Trailing, Rising;
    assert Known(s) == [] + [s.consumer.capture] + Behind(s);
    assert Line(t) == Known(t) == Behind(s) == [] + Behind(s);
    OneLessRises([], s.consumer.capture, Behind(s), LastCall(s));
  }

  lemma EmptyTrails(line: seq<Frame>)
    ensures Trailing([], line)
  {
  }

  lemma DrainingKeeps(s: System)
    requires Lockstep(s) && s.consumer.Draining?
    ensures Lockstep(ConsumerStep(s))
  {
    hide Trailing, Rising;
    var t := ConsumerStep(s);
    if s.e.references == [] { EmptyTrails(Behind(s)); } else { OldestReference(s); }
    LettingGo(s, t);
    hide Rings;
    assert DrainHolds(t.h.drained[|s.h.drained|]);
  }

  /** The rings after a reference has been popped: the capture in hand may still be followed by later references. */
  lemma FetchingKeepsRings(s: System)
    requires Rings(s) && WindowHolds(s) && s.consumer.Fetching?
    ensures Rings(ConsumerStep(s))
  {
    hide Trailing, Rising;
    var t := ConsumerStep(s);
    var c := s.consumer.capture;
    assert Known(s) == Line(s) == [c] + Behind(s);
    if s.consumer.attempt == RING_CAPACITY {
      NotLongerThan(s.e.references, Line(s));
      assert Line(s) == [] + [c] + Behind(s) && [] + Behind(s) == Behind(s);
      OneLess(s.e.references, [], c, Behind(s));
      LettingGo(s, t);
    } else if s.e.references == [] {
      EmptyTrails(Behind(s));
      LettingGo(s, t);
    } else {
      OldestReference(s);
      assert Known(t) == Known(s);
      if t.consumer.Confirming? { assert Line(t) == Behind(s); }
      else { assert Line(t) == [c] + Behind(s); Prepended(t.e.references, c, Behind(s)); }
    }
  }

  lemma NotLongerThan(references: seq<Frame>, line: seq<Frame>)
    requires Trailing(references, line)
    ensures |references| <= |line|
  {
  }

  lemma Prepended(references: seq<Frame>, c: Frame, back: seq<Frame>)
    requires Trailing(references, back)
    ensures Trailing(references, [c] + back)
  {
    var line, n := [c] + back, |references|;
    assert line[|line| - n..] == back[|back| - n..];
  }

  lemma AskingKeeps(s: System)
    requires Lockstep(s) && s.consumer.Asking?
    ensures Lockstep(ConsumerStep(s))
  {
    hide Trailing, Rising, PairHolds, DrainHolds;
    var t := ConsumerStep(s);
    assert Line(t) == Line(s) && Known(t) == Known(s);
  }

  lemma FetchingKeeps(s: System)
    requires Lockstep(s) && s.consumer.Fetching?
    ensures Lockstep(ConsumerStep(s))
  {
    hide Trailing, Rising, PairHolds, DrainHolds;
    FetchingKeepsRings(s);
    NotLongerThan(s.e.references, Line(s));
    if s.e.references != [] { OldestReference(s); }
    hide Rings;
  }

  lemma ConfirmingKeeps(s: System)
    requires Lockstep(s) && s.consumer.Confirming?
    ensures Lockstep(ConsumerStep(s))
  {
    hide Trailing, Rising;
    var t := ConsumerStep(s);
    assert Line(s) == Behind(s);
    if t.consumer.Resting? {
      LettingGo(s, t);
      assert PairHolds(t.h.pairs[|s.h.pairs|]);
    } else {
      assert Known(t) == Known(s) && Line(t) == [s.consumer.capture] + Behind(s);
      NotLongerThan(s.e.references, Behind(s));
      Prepended(s.e.references, s.consumer.capture, Behind(s));
    }
  }

  lemma LockstepKept(s: System, step: Step)
    requires Lockstep(s) && Clock(s)
    ensures Lockstep(Next(s, step))
  {
    hide CallbackStep;
    match step
    case Callback(call, gain, fade) => CallbackKeepsStep(s, call, gain, fade);
    case Consume =>
      match s.consumer {
        case Draining(_) => DrainingKeeps(s);
        case Asking(_, _) => AskingKeeps(s);
        case Fetching(_, _, _, _) => FetchingKeeps(s);
        case Confirming(_, _, _, _, _) => ConfirmingKeeps(s);
        case _ => TakingKeeps(s);
      }
    case _ => SameRingsKeep(s, Next(s, step));
  }

  lemma BeginsInStep()
    ensures Lockstep(BEGIN)
  {
  }

  lemma {:induction false} ReachableStatesKeep(steps: seq<Step>, n: nat)
    requires n <= |steps|
    ensures Lockstep(Run(BEGIN, steps, n))
  {
    hide Next, Lockstep, Clock, Packets, Finals;
    if n == 0 {
      BeginsInStep();
    } else {
      ReachableStatesKeep(steps, n - 1);
      AudioFence.ReachableStatesKeep(steps, n - 1);
      LockstepKept(Run(BEGIN, steps, n - 1), steps[n - 1]);
    }
  }

  // ---- the statements

  /** The generation never goes back, and the callback leaves the consumer's history alone. */
  predicate Advances(s: System, t: System) {
    && s.e.generation <= t.e.generation && t.h.pairs == s.h.pairs
    && t.consumer == if s.e.generation == t.e.generation then s.consumer else Moved(s).consumer
  }

  lemma BreakAdvances(s: System)
    requires Clock(s) && s.pc.Breaking?
    ensures Advances(s, BreakStep(s, s.pc.call, s.pc.entering, s.pc.commitAt))
  {
  }

  lemma JudgeAdvances(s: System)
    requires s.pc.Judging?
    ensures Advances(s, JudgeStep(s, s.pc.call, s.pc.judgeAt))
  {
  }

  lemma FinishAdvances(s: System)
    requires s.pc.Finishing?
    ensures Advances(s, FinishStep(s, s.pc.k, s.pc.final, s.pc.finishAt))
  {
  }

  lemma CallbackAdvances(s: System, call: Call, gain: nat, fade: Option<nat>)
    requires Clock(s)
    ensures Advances(s, CallbackStep(s, call, gain, fade))
  {
    hide BreakStep, JudgeStep, FinishStep;
    match s.pc
    case Breaking(_, _, _) => BreakAdvances(s);
    case Judging(_, _) => JudgeAdvances(s);
    case Finishing(_, _, _) => FinishAdvances(s);
    case _ =>
  }

  /**
    What the statements below rest on: a pump notes whether the rings were level when it accepted
    its capture, and from then on whether the generation has moved.
   */
  lemma WindowsRecord(s: System, step: Step)
    requires Clock(s)
    ensures var t := Next(s, step);
            && s.e.generation <= t.e.generation
            && (InWindow(t.consumer) ==>
                  t.consumer.w ==
                    if InWindow(s.consumer)
                    then Window(s.consumer.w.level, s.consumer.w.moved || s.e.generation != t.e.generation)
                    else Window(Level(s), false))
  {
    hide CallbackStep;
    if step.Callback? {
      CallbackAdvances(s, step.call, step.gain, step.fade);
    }
  }

  /**
    In every interleaving, each pair handed over comes from one callback if and only if the rings
    were level when its capture was accepted and the generation stood still from then on.
   */
  lemma {:induction false} PairsComeFromOneCallback(steps: seq<Step>, i: nat)
    requires i < |Run(BEGIN, steps, |steps|).h.pairs|
    ensures var p := Run(BEGIN, steps, |steps|).h.pairs[i]; Twins(p.reference, p.capture) <==> p.w.level && !p.w.moved
  {
    ReachableStatesKeep(steps, |steps|);
  }

  /** In every interleaving, a stale capture takes its own reference with it if and only if the rings were level. */
  lemma {:induction false} StaleCapturesLeaveInPairs(steps: seq<Step>, i: nat)
    requires i < |Run(BEGIN, steps, |steps|).h.drained|
    ensures var d := Run(BEGIN, steps, |steps|).h.drained[i];
            d.level <==> d.reference.Some? && Twins(d.reference.value, d.capture)
  {
    ReachableStatesKeep(steps, |steps|);
  }

  /** In every reachable state the waiting references belong to the newest captures that can have one. */
  lemma {:induction false} ReferencesTrailCaptures(steps: seq<Step>)
    ensures var s := Run(BEGIN, steps, |steps|); Trailing(s.e.references, Line(s)) && Rising(Line(s), s.calls)
  {
    hide Lockstep, Run, Trailing, Rising;
    ReachableStatesKeep(steps, |steps|);
    LinesTrail(Run(BEGIN, steps, |steps|));
  }

  lemma LinesTrail(s: System)
    requires Lockstep(s)
    ensures Trailing(s.e.references, Line(s)) && Rising(Line(s), s.calls)
  {
    hide Trailing, WindowHolds, Deliveries, Twins;
    assert if s.consumer.Confirming? then Line(s) == Known(s)[1..] else Line(s) == Known(s);
    assert LastCall(s) <= s.calls;
  }

  // ---- runs in which no pump is disturbed

  /** The rings are level, no capture is lost, and the open window, if there is one, has seen no move. */
  predicate Even(s: System) {
    && Level(s) && s.e.unreported == 0
    && (InWindow(s.consumer) ==> s.consumer.w == Window(true, false))
  }

  predicate Still(s: System, t: System) {
    InWindow(s.consumer) ==> t.e.generation == s.e.generation
  }

  lemma EvenCallback(s: System, call: Call, gain: nat, fade: Option<nat>)
    requires Lockstep(s) && Clock(s) && Even(s) && Still(s, CallbackStep(s, call, gain, fade))
    ensures Even(CallbackStep(s, call, gain, fade))
  {
    hide BreakStep, JudgeStep, FinishStep, Rings, WindowHolds, Deliveries;
    CallbackAdvances(s, call, gain, fade);
    match s.pc
    case Finishing(_, _, _) => FinishTouches(s);
    case Judging(_, _) => JudgeTouches(s);
    case Breaking(_, _, _) => BreakTouches(s);
    case Capturing(_) => assert |s.e.references| < RING_CAPACITY by { RingBounds(s); }
    case _ =>
  }

  lemma RingBounds(s: System)
    requires Lockstep(s)
    ensures |s.e.references| < RING_CAPACITY
  {
  }

  /** Outside its last two steps the callback leaves both rings alone. */
  predicate Touches(s: System, t: System) {
    && t.e.unreported == s.e.unreported && t.e.captures == s.e.captures
    && |t.e.references| == |s.e.references| + |Pending(t)|
  }

  lemma BreakTouches(s: System)
    requires s.pc.Breaking?
    ensures Touches(s, BreakStep(s, s.pc.call, s.pc.entering, s.pc.commitAt))
  {
  }

  lemma JudgeTouches(s: System)
    requires s.pc.Judging?
    ensures Touches(s, JudgeStep(s, s.pc.call, s.pc.judgeAt))
  {
    hide Judge;
  }

  lemma FinishTouches(s: System)
    requires s.pc.Finishing?
    ensures Touches(s, FinishStep(s, s.pc.k, s.pc.final, s.pc.finishAt))
  {
    hide NonSilent;
  }

  lemma EvenConsumer(s: System)
    requires Lockstep(s) && Even(s)
    ensures Even(ConsumerStep(s))
  {
    if |Held(s.consumer)| == 1 && s.e.references != [] {
      LevelTwins(s);
    }
    hide Rings, Deliveries, Twins, Pending;
  }

  lemma LevelTwins(s: System)
    requires Lockstep(s) && Level(s) && |Held(s.consumer)| == 1 && s.e.references != []
    ensures s.e.references[0].generation == s.consumer.capture.generation
  {
    OldestReference(s);
  }

  lemma EvenKept(s: System, step: Step)
    requires Lockstep(s) && Clock(s) && Even(s) && Still(s, Next(s, step))
    ensures Even(Next(s, step))
  {
    hide CallbackStep, ConsumerStep, Lockstep;
    if step.Callback? {
      EvenCallback(s, step.call, step.gain, step.fade);
    } else if step.Consume? {
      EvenConsumer(s);
    }
  }

  /**
    If in a run the generation never moves between a capture's acceptance and the end of its
    pump, the rings stay in step and no capture is ever lost.
   */
  lemma {:induction false} UndisturbedRunsStayInStep(steps: seq<Step>, n: nat)
    requires n <= |steps|
    requires forall k :: 0 <= k < n ==> Still(Run(BEGIN, steps, k), Run(BEGIN, steps, k + 1))
    ensures var s := Run(BEGIN, steps, n); InStep(s.e.references, Line(s)) && Even(s) && |s.e.captures| < RING_CAPACITY
  {
    hide Next, Lockstep, Clock, Packets, Finals, Even, Still, InStep;
    ReachableStatesKeep(steps, n);
    if n == 0 {
      BeginsEven();
    } else {
      UndisturbedRunsStayInStep(steps, n - 1);
      ReachableStatesKeep(steps, n - 1);
      AudioFence.ReachableStatesKeep(steps, n - 1);
      var s := Run(BEGIN, steps, n - 1);
      assert Still(s, Run(BEGIN, steps, n - 1 + 1));
      EvenKept(s, steps[n - 1]);
    }
    EvenIsInStep(Run(BEGIN, steps, n));
  }

  lemma BeginsEven()
    ensures Even(BEGIN)
  {
  }

  lemma EvenIsInStep(s: System)
    requires Lockstep(s) && Even(s)
    ensures InStep(s.e.references, Line(s)) && |s.e.captures| < RING_CAPACITY
  {
    assert Line(s)[0..] == Line(s);
  }

  // ---- captures are handed over in generation order

  /** No pair delivered so far carries a later generation than this. */
  function Horizon(s: System): nat {
    if InWindow(s.consumer) then s.consumer.capture.generation else s.e.generation
  }

  predicate Ordered(s: System) {
    && (forall i :: 0 <= i < |s.h.pairs| ==> s.h.pairs[i].capture.generation <= Horizon(s))
    && (forall i, j :: 0 <= i < j < |s.h.pairs| ==>
          s.h.pairs[i].capture.generation <= s.h.pairs[j].capture.generation)
  }

  lemma OrderKept(s: System, step: Step)
    requires Clock(s) && Lockstep(s) && Ordered(s)
    ensures Ordered(Next(s, step))
  {
    hide CallbackStep, ConsumerStep, Lockstep;
    if step.Callback? {
      CallbackAdvances(s, step.call, step.gain, step.fade);
    } else if step.Consume? {
      ConsumerKeepsOrder(s);
    }
  }

  lemma ConsumerKeepsOrder(s: System)
    requires Lockstep(s) && Ordered(s)
    ensures Ordered(ConsumerStep(s))
  {
    hide Rings, Deliveries;
  }

  lemma {:induction false} GenerationsNeverGoBack(steps: seq<Step>, n: nat)
    requires n <= |steps|
    ensures Ordered(Run(BEGIN, steps, n))
  {
    hide Next, Lockstep, Clock;
    if 0 < n {
      GenerationsNeverGoBack(steps, n - 1);
      ReachableStatesKeep(steps, n - 1);
      AudioFence.ReachableStatesKeep(steps, n - 1);
      OrderKept(Run(BEGIN, steps, n - 1), steps[n - 1]);
    }
  }
}

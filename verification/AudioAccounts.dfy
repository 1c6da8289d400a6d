/**
  What is conserved in every run: generations against requests, reasons against
  discontinuities, captures against deliveries and drops, playback accounts against playback
  emitted, and reference frames against the frames the device was given.
 */
module AudioAccounts {
  import opened Wrappers
  import opened Pcm16
  import opened AudioFade
  import opened AudioEngineState
  import opened AudioEngineRuns
  import opened AudioFence

  // ---- generations, reasons and captures

  /** Discontinuities of a commit in progress that the generation already counts. */
  function Anticipated(s: System): int {
    if s.pc.Breaking? && (s.pc.commitAt.AddingPlayback? || s.pc.commitAt.Observing?)
    then s.pc.commitAt.requested - s.e.breaks.observed else 0
  }

  /** Reasons counted whose requests are not published yet. */
  function Announced(s: System): nat {
    s.marking + if s.pc.Judging? && s.pc.judgeAt.Publishing? then 1 else 0
  }

  /** A capture taken from the ring and not yet delivered or counted as a drop. */
  function InHand(s: System): nat {
    if s.consumer.Popped? || s.consumer.Expecting? || s.consumer.Draining? then 1 else 0
  }

  predicate Books(s: System) {
    && s.e.generation == 1 + s.e.discontinuities + Anticipated(s)
    && |s.e.tally| == s.e.discontinuities + (s.e.breaks.requested - s.e.breaks.observed) + Announced(s)
    && s.e.produced == s.e.delivered + s.e.reportedDrops + |s.e.captures| + s.e.unreported + InHand(s)
  }

  /** The books look at nothing else. */
  predicate SameBooks(s: System, t: System) {
    && t.e.generation == s.e.generation && t.e.discontinuities == s.e.discontinuities
    && t.e.tally == s.e.tally && t.e.breaks == s.e.breaks
    && t.e.produced == s.e.produced && t.e.delivered == s.e.delivered && t.e.reportedDrops == s.e.reportedDrops
    && t.e.captures == s.e.captures && t.e.unreported == s.e.unreported
    && Anticipated(t) == Anticipated(s) && Announced(t) == Announced(s) && InHand(t) == InHand(s)
  }

  lemma BreakBooks(s: System)
    requires Books(s) && Clock(s) && s.pc.Breaking?
    ensures Books(BreakStep(s, s.pc.call, s.pc.entering, s.pc.commitAt))
  {
  }

  predicate Counts(at: JudgeAt) {
    at.Marking? || at.Publishing? || at.BreakingCapture?
  }

  lemma CountingBooks(s: System)
    requires Books(s) && s.pc.Judging? && Counts(s.pc.judgeAt)
    ensures Books(JudgeStep(s, s.pc.call, s.pc.judgeAt))
  {
  }

  lemma JudgeBooks(s: System)
    requires Books(s) && s.pc.Judging? && !Counts(s.pc.judgeAt)
    ensures SameBooks(s, JudgeStep(s, s.pc.call, s.pc.judgeAt))
  {
    hide Judge, Zeros;
    assert s.pc.judgeAt.ReadingRoom? ==> !Judge(s.pc.call, s.pc.judgeAt.activeXrun, s.pc.judgeAt.capturing,
      s.pc.judgeAt.capturing && !s.e.CanPushReference()).Publishing? by {
      if s.pc.judgeAt.ReadingRoom? {
        JudgeNeverPublishes(s.pc.call, s.pc.judgeAt.activeXrun, s.pc.judgeAt.capturing,
          s.pc.judgeAt.capturing && !s.e.CanPushReference());
      }
    }
  }

  lemma JudgeNeverPublishes(call: Call, activeXrun: bool, capturing: bool, full: bool)
    ensures !Judge(call, activeXrun, capturing, full).Publishing?
  {
  }

  lemma LosingBooks(s: System)
    requires Books(s) && s.pc.Finishing? && s.pc.finishAt.LosingReference?
    ensures Books(FinishStep(s, s.pc.k, s.pc.final, LosingReference))
  {
  }

  lemma FinishBooks(s: System)
    requires Books(s) && s.pc.Finishing? && !s.pc.finishAt.LosingReference?
    ensures SameBooks(s, FinishStep(s, s.pc.k, s.pc.final, s.pc.finishAt))
  {
  }

  lemma RenderBooks(s: System, gain: nat, fade: Option<nat>)
    requires Books(s) && s.pc.Running?
    ensures SameBooks(s, RenderStep(s, s.pc.k, s.pc.renderAt, gain, fade))
  {
  }

  lemma FenceBooks(s: System)
    requires Books(s) && s.pc.Fencing?
    ensures SameBooks(s, FenceStep(s, s.pc.call, s.pc.commitAt))
  {
  }

  lemma SameBooksKeep(s: System, t: System)
    requires Books(s) && SameBooks(s, t)
    ensures Books(t)
  {
  }

  lemma CallbackBooks(s: System, call: Call, gain: nat, fade: Option<nat>)
    requires Books(s) && Clock(s)
    ensures Books(CallbackStep(s, call, gain, fade))
  {
    hide BreakStep, FenceStep, JudgeStep, RenderStep, FinishStep;
    var t := CallbackStep(s, call, gain, fade);
    match s.pc
    case Outside => SameBooksKeep(s, t);
    case Breaking(_, _, _) => BreakBooks(s);
    case Fencing(_, _) => FenceBooks(s); SameBooksKeep(s, t);
    case Judging(_, at) => if Counts(at) { CountingBooks(s); } else { JudgeBooks(s); SameBooksKeep(s, t); }
    case Running(_, _) => RenderBooks(s, gain, fade); SameBooksKeep(s, t);
    case Finishing(_, _, at) =>
      if at.LosingReference? { LosingBooks(s); } else { FinishBooks(s); SameBooksKeep(s, t); }
    case Capturing(_) =>
  }

  lemma ConsumerBooks(s: System)
    requires Books(s)
    ensures Books(ConsumerStep(s))
  {
  }

  lemma ControlBooks(s: System, step: Step)
    requires Books(s)
    ensures Books(ControlStep(s, step))
  {
  }

  lemma ProducerBooks(s: System, samples: seq<Sample>, scope: nat)
    ensures SameBooks(s, ProducerStep(s, samples, scope))
  {
  }

  lemma BooksKept(s: System, step: Step)
    requires Books(s) && Clock(s)
    ensures Books(Next(s, step))
  {
    match step
    case Callback(call, gain, fade) => CallbackBooks(s, call, gain, fade);
    case Produce(samples, scope) => ProducerBooks(s, samples, scope); SameBooksKeep(s, Next(s, step));
    case Consume => ConsumerBooks(s);
    case _ => ControlBooks(s, step);
  }

  lemma NothingBooked()
    ensures Books(BEGIN)
  {
  }

  lemma {:induction false} BooksBalance(steps: seq<Step>, n: nat)
    requires n <= |steps|
    ensures Books(Run(BEGIN, steps, n))
  {
    hide Next, Books, Clock;
    if n == 0 {
      NothingBooked();
    } else {
      BooksBalance(steps, n - 1);
      ClockHolds(steps, n - 1);
      BooksKept(Run(BEGIN, steps, n - 1), steps[n - 1]);
    }
  }

  // ---- accounts against emissions

  function Total(ws: seq<Write>, scope: nat, n: nat): nat
    requires n <= |ws|
  {
    if n == 0 then 0 else Total(ws, scope, n - 1) + if ws[n - 1].scope == scope then ws[n - 1].count else 0
  }

  lemma {:induction false} TotalOfExtension(ws: seq<Write>, w: Write, scope: nat, n: nat)
    requires n <= |ws|
    ensures Total(ws + [w], scope, n) == Total(ws, scope, n)
  {
    if 0 < n {
      TotalOfExtension(ws, w, scope, n - 1);
    }
  }

  predicate Owed(at: FinishAt) {
    at.RecheckingBreaks? || at.RecheckingFences? || at.Accounting?
  }

  /** Samples of the scope emitted by the current callback whose account is still to be written. */
  function Outstanding(s: System, scope: nat): nat {
    if s.pc.Finishing? && Owed(s.pc.finishAt) && s.pc.finishAt.write.scope == scope then s.pc.finishAt.write.count else 0
  }

  predicate Covered(s: System, scope: nat) {
    && s.h.taken <= |s.h.accounted| && s.e.writes == s.h.accounted[s.h.taken..]
    && Total(s.h.accounted, scope, |s.h.accounted|) + Outstanding(s, scope) <= Total(s.h.emitted, scope, |s.h.emitted|)
  }

  lemma EmittingCovers(s: System, scope: nat)
    requires Covered(s, scope) && s.pc.Finishing? && s.pc.finishAt.Emitting?
    ensures Covered(FinishStep(s, s.pc.k, s.pc.final, Emitting), scope)
  {
    hide NonSilent;
    if s.pc.final.source.Some? {
      var p := s.pc.final.source.value.packet;
      TotalOfExtension(s.h.emitted, Write(p.scope, s.pc.k.playbackGeneration, |p.samples|), scope, |s.h.emitted|);
    }
  }

  lemma WritingCovers(s: System, scope: nat)
    requires Covered(s, scope) && s.pc.Finishing? && s.pc.finishAt.Accounting?
    ensures Covered(FinishStep(s, s.pc.k, s.pc.final, s.pc.finishAt), scope)
  {
    hide NonSilent;
    var write := s.pc.finishAt.write;
    TotalOfExtension(s.h.accounted, write, scope, |s.h.accounted|);
    assert (s.h.accounted + [write])[s.h.taken..] == s.h.accounted[s.h.taken..] + [write];
  }

  lemma AccountingCovers(s: System, scope: nat)
    requires Covered(s, scope) && s.pc.Finishing? && !s.pc.finishAt.Emitting?
    ensures Covered(FinishStep(s, s.pc.k, s.pc.final, s.pc.finishAt), scope)
  {
    if s.pc.finishAt.Accounting? {
      hide FinishStep, Covered;
      WritingCovers(s, scope);
    } else {
      hide NonSilent, Total;
    }
  }

  lemma FinishCovers(s: System, scope: nat)
    requires Covered(s, scope) && s.pc.Finishing?
    ensures Covered(FinishStep(s, s.pc.k, s.pc.final, s.pc.finishAt), scope)
  {
    hide FinishStep, Covered;
    if s.pc.finishAt.Emitting? {
      EmittingCovers(s, scope);
    } else {
      AccountingCovers(s, scope);
    }
  }

  /** Only the end of a callback and the reader of accounts touch the accounts. */
  predicate SameCover(s: System, t: System, scope: nat) {
    && t.h.taken == s.h.taken && t.h.accounted == s.h.accounted && t.h.emitted == s.h.emitted
    && t.e.writes == s.e.writes && Outstanding(t, scope) == Outstanding(s, scope)
  }

  lemma SameCoverKeeps(s: System, t: System, scope: nat)
    requires Covered(s, scope) && SameCover(s, t, scope)
    ensures Covered(t, scope)
  {
  }

  lemma CommitSameCover(s: System, scope: nat)
    ensures s.pc.Breaking? ==> SameCover(s, BreakStep(s, s.pc.call, s.pc.entering, s.pc.commitAt), scope)
    ensures s.pc.Fencing? ==> SameCover(s, FenceStep(s, s.pc.call, s.pc.commitAt), scope)
  {
  }

  lemma JudgeSameCover(s: System, scope: nat)
    requires s.pc.Judging?
    ensures SameCover(s, JudgeStep(s, s.pc.call, s.pc.judgeAt), scope)
  {
    hide Judge;
  }

  lemma RenderSameCover(s: System, gain: nat, fade: Option<nat>, scope: nat)
    requires s.pc.Running?
    ensures SameCover(s, RenderStep(s, s.pc.k, s.pc.renderAt, gain, fade), scope)
  {
    hide RenderFrame, Padded;
  }

  lemma CallbackCovers(s: System, call: Call, gain: nat, fade: Option<nat>, scope: nat)
    requires Covered(s, scope)
    ensures Covered(CallbackStep(s, call, gain, fade), scope)
  {
    hide BreakStep, FenceStep, JudgeStep, RenderStep, FinishStep, Covered;
    if s.pc.Finishing? {
      FinishCovers(s, scope);
    } else {
      match s.pc {
        case Judging(_, _) => JudgeSameCover(s, scope);
        case Running(_, _) => RenderSameCover(s, gain, fade, scope);
        case _ => CommitSameCover(s, scope);
      }
      SameCoverKeeps(s, CallbackStep(s, call, gain, fade), scope);
    }
  }

  lemma CoverKept(s: System, step: Step, scope: nat)
    requires Covered(s, scope)
    ensures Covered(Next(s, step), scope)
  {
    if step.Callback? {
      CallbackCovers(s, step.call, step.gain, step.fade, scope);
    } else if step.TakeWrite? {
      assert step.TakeWrite?;
    } else {
      assert SameCover(s, Next(s, step), scope);
    }
  }

  lemma {:induction false} CoverHolds(steps: seq<Step>, n: nat, scope: nat)
    requires n <= |steps|
    ensures Covered(Run(BEGIN, steps, n), scope)
  {
    if 0 < n {
      CoverHolds(steps, n - 1, scope);
      CoverKept(Run(BEGIN, steps, n - 1), steps[n - 1], scope);
    }
  }

  // ---- references against final frames

  /** The frame is the final frame of its callback. */
  predicate Echoes(s: System, f: Frame) {
    && f.call in s.h.finals && s.h.finals[f.call].samples == f.samples
    && (f.call < s.calls || (f.call == s.calls && (s.pc.Outside? || s.pc.Capturing?)))
  }

  predicate Echo(s: System) {
    && (forall i :: 0 <= i < |s.e.references| ==> Echoes(s, s.e.references[i]))
    && (forall i :: 0 <= i < |s.h.pairs| ==> Echoes(s, s.h.pairs[i].reference))
    && (s.consumer.Confirming? ==> Echoes(s, s.consumer.reference))
    && (s.pc.Finishing? && !s.pc.finishAt.Emitting? ==> s.calls in s.h.finals && s.h.finals[s.calls] == s.pc.final)
  }

  predicate Published(pc: Pc) {
    pc.Outside? || pc.Capturing?
  }

  /** From `s` to `t` the final frames that anything can refer to have stayed. */
  predicate KeepsFinals(s: System, t: System) {
    && (forall c :: c in s.h.finals && (c < s.calls || Published(s.pc)) ==> c in t.h.finals && t.h.finals[c] == s.h.finals[c])
    && (s.calls < t.calls || (s.calls == t.calls && (Published(s.pc) ==> Published(t.pc))))
    && t.h.pairs == s.h.pairs
    && (t.consumer.Confirming? ==> s.consumer.Confirming? && t.consumer.reference == s.consumer.reference)
  }

  /** A step that neither records a final frame under publication nor publishes a reference. */
  predicate KeepsReferences(s: System, t: System) {
    && KeepsFinals(s, t) && t.e.references == s.e.references
    && (t.pc.Finishing? ==> t.pc.finishAt.Emitting?)
  }

  lemma FramesStayEchoed(s: System, t: System, f: Frame)
    requires KeepsFinals(s, t) && Echoes(s, f)
    ensures Echoes(t, f)
  {
  }

  lemma KeptFramesEcho(s: System, t: System)
    requires Echo(s) && KeepsFinals(s, t) && t.e.references == s.e.references
    requires t.pc.Finishing? && !t.pc.finishAt.Emitting? ==> t.calls in t.h.finals && t.h.finals[t.calls] == t.pc.final
    ensures Echo(t)
  {
    hide Echoes, KeepsFinals;
    forall f | Echoes(s, f) ensures Echoes(t, f) { FramesStayEchoed(s, t, f); }
    assert && t.h.pairs == s.h.pairs
           && (t.consumer.Confirming? ==> s.consumer.Confirming? && t.consumer.reference == s.consumer.reference) by {
      SamePairs(s, t);
    }
  }

  lemma SamePairs(s: System, t: System)
    requires KeepsFinals(s, t)
    ensures t.h.pairs == s.h.pairs
    ensures t.consumer.Confirming? ==> s.consumer.Confirming? && t.consumer.reference == s.consumer.reference
  {
  }

  lemma BreakEchoes(s: System)
    requires s.pc.Breaking?
    ensures var t := BreakStep(s, s.pc.call, s.pc.entering, s.pc.commitAt); KeepsReferences(s, t)
  {
  }

  lemma JudgeEchoes(s: System)
    requires s.pc.Judging?
    ensures var t := JudgeStep(s, s.pc.call, s.pc.judgeAt); KeepsReferences(s, t)
  {
  }

  lemma RenderEchoes(s: System, gain: nat, fade: Option<nat>)
    requires s.pc.Running?
    ensures var t := RenderStep(s, s.pc.k, s.pc.renderAt, gain, fade); KeepsReferences(s, t)
  {
  }

  lemma FinishKeepsFinals(s: System)
    requires Echo(s) && s.pc.Finishing?
    ensures var t := FinishStep(s, s.pc.k, s.pc.final, s.pc.finishAt);
            && KeepsFinals(s, t)
            && (t.pc.Finishing? && !t.pc.finishAt.Emitting? ==> t.calls in t.h.finals && t.h.finals[t.calls] == t.pc.final)
  {
    hide NonSilent, Echoes;
  }

  lemma ReferenceEchoes(s: System)
    requires Echo(s) && s.pc.Finishing?
    ensures var t := FinishStep(s, s.pc.k, s.pc.final, s.pc.finishAt);
            t.e.references == s.e.references
            || (t.e.references == s.e.references + [Frame(s.pc.k.generation, s.pc.final.samples, s.calls)]
                && Echoes(t, Frame(s.pc.k.generation, s.pc.final.samples, s.calls)))
  {
    hide NonSilent;
  }

  lemma FinishEchoes(s: System)
    requires Echo(s) && s.pc.Finishing?
    ensures Echo(FinishStep(s, s.pc.k, s.pc.final, s.pc.finishAt))
  {
    hide FinishStep;
    var t := FinishStep(s, s.pc.k, s.pc.final, s.pc.finishAt);
    FinishKeepsFinals(s);
    ReferenceEchoes(s);
    KeptFramesEcho(s, t.(e := t.e.(references := s.e.references)));
  }

  lemma CallbackEchoes(s: System, call: Call, gain: nat, fade: Option<nat>)
    requires Echo(s)
    ensures Echo(CallbackStep(s, call, gain, fade))
  {
    hide BreakStep, JudgeStep, RenderStep, FinishStep, Echo;
    var t := CallbackStep(s, call, gain, fade);
    match s.pc
    case Breaking(_, _, _) => BreakEchoes(s); KeptFramesEcho(s, t);
    case Judging(_, _) => JudgeEchoes(s); KeptFramesEcho(s, t);
    case Running(_, _) => RenderEchoes(s, gain, fade); KeptFramesEcho(s, t);
    case Finishing(_, _, _) => FinishEchoes(s);
    case _ => assert KeepsFinals(s, t); KeptFramesEcho(s, t);
  }

  lemma EchoKept(s: System, step: Step)
    requires Echo(s)
    ensures Echo(Next(s, step))
  {
    hide CallbackStep, Echo, Echoes;
    if step.Callback? {
      CallbackEchoes(s, step.call, step.gain, step.fade);
    } else if step.Consume? {
      ConsumerEchoes(s);
    } else {
      OthersLeaveTheCallback(s, step);
      assert KeepsFinals(s, Next(s, step));
      if s.pc.Finishing? && !s.pc.finishAt.Emitting? { EchoedWhileFinishing(s); }
      KeptFramesEcho(s, Next(s, step));
    }
  }

  lemma EchoedWhileFinishing(s: System)
    requires Echo(s) && s.pc.Finishing? && !s.pc.finishAt.Emitting?
    ensures s.calls in s.h.finals && s.h.finals[s.calls] == s.pc.final
  {
  }

  lemma ConsumerEchoes(s: System)
    requires Echo(s)
    ensures Echo(ConsumerStep(s))
  {
    var t := ConsumerStep(s);
    assert forall f :: Echoes(s, f) ==> Echoes(t, f);
  }

  lemma {:induction false} EchoHolds(steps: seq<Step>, n: nat)
    requires n <= |steps|
    ensures Echo(Run(BEGIN, steps, n))
  {
    if 0 < n {
      EchoHolds(steps, n - 1);
      EchoKept(Run(BEGIN, steps, n - 1), steps[n - 1]);
    }
  }

  // ---- the statements

  /** Nobody is in the middle of anything. */
  predicate Quiescent(s: System) {
    s.pc.Outside? && s.marking == 0 && s.consumer.Resting?
  }

  /**
    At every quiescent point the generation has advanced once per discontinuity, the playback
    generation once per observed request, the seven reasons sum to discontinuities plus pending
    requests, and every capture produced is delivered, reported, in the ring or still to report.
   */
  lemma {:induction false} QuiescentAccountsBalance(steps: seq<Step>)
    requires Quiescent(Run(BEGIN, steps, |steps|))
    ensures var e := Run(BEGIN, steps, |steps|).e;
            && e.generation - 1 == e.discontinuities
            && e.playbackGeneration - 1 == e.breaks.observed + e.fences.observed
            && |e.tally| == e.discontinuities + (e.breaks.requested - e.breaks.observed)
            && e.produced == e.delivered + e.reportedDrops + |e.captures| + e.unreported
  {
    BooksBalance(steps, |steps|);
    ClockHolds(steps, |steps|);
  }

  /** In every state, what a scope has been accounted for never exceeds what was emitted for it. */
  lemma {:induction false} AccountsNeverExceedEmissions(steps: seq<Step>, scope: nat)
    ensures var h := Run(BEGIN, steps, |steps|).h;
            Total(h.accounted, scope, |h.accounted|) <= Total(h.emitted, scope, |h.emitted|)
    ensures var s := Run(BEGIN, steps, |steps|);
            s.h.taken <= |s.h.accounted| && s.e.writes == s.h.accounted[s.h.taken..]
  {
    CoverHolds(steps, |steps|, scope);
  }

  /** Every reference frame handed over is the frame the device was given in that callback. */
  lemma {:induction false} ReferenceIsTheFinalFrame(steps: seq<Step>, i: nat)
    requires i < |Run(BEGIN, steps, |steps|).h.pairs|
    ensures var h := Run(BEGIN, steps, |steps|).h;
            h.pairs[i].reference.call in h.finals
            && h.finals[h.pairs[i].reference.call].samples == h.pairs[i].reference.samples
  {
    EchoHolds(steps, |steps|);
  }
}

/** A capture frame holds what the device handed to the callback it names, from the ring to the hand-over. */
module AudioCaptures {
  import opened Wrappers
  import opened Pcm16
  import opened AudioEngineState
  import opened AudioEngineRuns

  /** The frame holds the input of its callback, which has begun. */
  predicate Holds(s: System, f: Frame) {
    f.call <= s.calls && f.call in s.h.inputs && s.h.inputs[f.call] == f.samples
  }

  predicate AllHold(s: System, fs: seq<Frame>) {
    forall i :: 0 <= i < |fs| ==> Holds(s, fs[i])
  }

  /** What the callback under way was handed. */
  function InputOf(pc: Pc): Option<seq<Sample>> {
    match pc
    case Outside => None
    case Breaking(call, _, _) => Some(call.capture)
    case Fencing(call, _) => Some(call.capture)
    case Judging(call, _) => Some(call.capture)
    case Running(k, _) => Some(k.call.capture)
    case Finishing(k, _, _) => Some(k.call.capture)
    case Capturing(k) => Some(k.call.capture)
  }

  ghost predicate Captures(s: System) {
    && AllHold(s, s.e.captures)
    && (!s.consumer.Resting? ==> Holds(s, s.consumer.capture))
    && (forall i :: 0 <= i < |s.h.pairs| ==> Holds(s, s.h.pairs[i].capture))
    && (InputOf(s.pc).Some? ==> s.calls in s.h.inputs && s.h.inputs[s.calls] == InputOf(s.pc).value)
  }

  /** A step of the callback that records nothing. */
  predicate Carries(s: System, t: System) {
    && t.e.captures == s.e.captures && t.h.inputs == s.h.inputs && t.h.pairs == s.h.pairs && t.calls == s.calls
    && (t.consumer.Resting? <==> s.consumer.Resting?)
    && (!t.consumer.Resting? ==> t.consumer.capture == s.consumer.capture)
    && (InputOf(t.pc).None? || InputOf(t.pc) == InputOf(s.pc))
  }

  lemma CarryingKeeps(s: System, t: System)
    requires Captures(s) && Carries(s, t)
    ensures Captures(t)
  {
    hide InputOf;
    forall f | Holds(s, f) ensures Holds(t, f) {
    }
  }

  lemma CommitsCarry(s: System)
    ensures s.pc.Breaking? ==> Carries(s, BreakStep(s, s.pc.call, s.pc.entering, s.pc.commitAt))
    ensures s.pc.Fencing? ==> Carries(s, FenceStep(s, s.pc.call, s.pc.commitAt))
  {
  }

  lemma JudgingCarries(s: System)
    requires s.pc.Judging?
    ensures Carries(s, JudgeStep(s, s.pc.call, s.pc.judgeAt))
  {
    hide Judge, Zeros;
  }

  lemma RenderingCarries(s: System, gain: nat, fade: Option<nat>)
    requires s.pc.Running?
    ensures Carries(s, RenderStep(s, s.pc.k, s.pc.renderAt, gain, fade))
  {
  }

  lemma FinishingCarries(s: System)
    requires s.pc.Finishing?
    ensures Carries(s, FinishStep(s, s.pc.k, s.pc.final, s.pc.finishAt))
  {
    hide NonSilent;
  }

  lemma CapturingHolds(s: System, t: System)
    requires Captures(s) && s.pc.Capturing?
    requires t == s.(e := s.e.PushCapture(Frame(s.pc.k.generation, s.pc.k.call.capture, s.calls)), pc := Outside)
    ensures Captures(t)
  {
    forall f | Holds(s, f) ensures Holds(t, f) {
    }
  }

  lemma BeginningHolds(s: System, call: Call, gain: nat, fade: Option<nat>)
    requires Captures(s) && s.pc.Outside?
    ensures Captures(CallbackStep(s, call, gain, fade))
  {
    forall f | Holds(s, f) ensures Holds(CallbackStep(s, call, gain, fade), f) {
    }
  }

  lemma CallbackHolds(s: System, call: Call, gain: nat, fade: Option<nat>)
    requires Captures(s)
    ensures Captures(CallbackStep(s, call, gain, fade))
  {
    hide BreakStep, FenceStep, JudgeStep, RenderStep, FinishStep, Captures, Carries;
    var t := CallbackStep(s, call, gain, fade);
    match s.pc
    case Outside => BeginningHolds(s, call, gain, fade);
    case Judging(_, _) => JudgingCarries(s); CarryingKeeps(s, t);
    case Running(_, _) => RenderingCarries(s, gain, fade); CarryingKeeps(s, t);
    case Finishing(_, _, _) => FinishingCarries(s); CarryingKeeps(s, t);
    case Capturing(_) => CapturingHolds(s, t);
    case _ => CommitsCarry(s); CarryingKeeps(s, t);
  }

  lemma ConsumingHolds(s: System)
    requires Captures(s)
    ensures Captures(ConsumerStep(s))
  {
    hide InputOf;
    forall f | Holds(s, f) ensures Holds(ConsumerStep(s), f) {
    }
  }

  lemma OthersCarry(s: System, step: Step)
    requires !step.Callback? && !step.Consume?
    ensures Carries(s, Next(s, step))
  {
    hide InputOf;
  }

  lemma {:induction false} CapturesHold(steps: seq<Step>, n: nat)
    requires n <= |steps|
    ensures Captures(Run(BEGIN, steps, n))
  {
    hide CallbackStep, ConsumerStep, ProducerStep, ControlStep, Captures, Carries;
    if n == 0 {
      NothingCaptured();
    } else {
      CapturesHold(steps, n - 1);
      var s, step := Run(BEGIN, steps, n - 1), steps[n - 1];
      if step.Callback? {
        CallbackHolds(s, step.call, step.gain, step.fade);
      } else if step.Consume? {
        ConsumingHolds(s);
      } else {
        OthersCarry(s, step);
        CarryingKeeps(s, Next(s, step));
      }
    }
  }

  lemma NothingCaptured()
    ensures Captures(BEGIN)
  {
  }

  /** In every run, a capture handed over holds exactly what the device handed to the callback that it names. */
  lemma {:induction false} CaptureIsTheInput(steps: seq<Step>, i: nat)
    requires i < |Run(BEGIN, steps, |steps|).h.pairs|
    ensures var h := Run(BEGIN, steps, |steps|).h;
            h.pairs[i].capture.call in h.inputs && h.inputs[h.pairs[i].capture.call] == h.pairs[i].capture.samples
  {
    hide Run;
    CapturesHold(steps, |steps|);
  }
}

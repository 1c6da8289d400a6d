/**
  One move of the generation inside one pump can leave the rings out of step for good: from
  then on every pump, however quiet, hands over a capture with the reference of the next callback.
 */
module AudioOffset {
  import opened Wrappers
  import opened AudioFade
  import opened AudioEngineState
  import opened AudioEngineRuns
  import opened AudioLockstep

  const QUIET := Callback(Call([], true, FRAME_SAMPLES, false, false, false), 0, None)

  /** The state after all of `steps`. */
  function After(steps: seq<Step>): System {
    Run(BEGIN, steps, |steps|)
  }

  lemma {:induction false} PrefixRuns(steps: seq<Step>, step: Step, n: nat)
    requires n <= |steps|
    ensures Run(BEGIN, steps + [step], n) == Run(BEGIN, steps, n)
  {
    hide Next;
    if 0 < n {
      PrefixRuns(steps, step, n - 1);
    }
  }

  /** One more step. */
  lemma Go(steps: seq<Step>, step: Step) returns (longer: seq<Step>)
    ensures After(longer) == Next(After(steps), step)
  {
    hide Next;
    longer := steps + [step];
    PrefixRuns(steps, step, |steps|);
  }

  /** Nothing is requested, nothing is played, nobody else is in the middle of anything. */
  predicate AtRest(s: System) {
    && s.pc.Outside? && s.e.capturing && s.e.playback == [] && s.marking == 0
    && s.e.fences.requested == s.e.fences.observed && s.e.breaks.observed <= s.e.breaks.requested
    && |s.e.references| < 2 && |s.e.captures| < 2
  }

  /** A quiet callback of generation `g`, from its entry to its publication. */
  predicate Published(s: System, t: System, g: nat) {
    && AtRest(t.(e := t.e.(references := [], captures := [])))
    && t.calls == s.calls + 1 && t.e.generation == g && t.h.pairs == s.h.pairs
    && t.e.breaks.requested == t.e.breaks.observed
    && |t.e.references| == |s.e.references| + 1 && t.e.references[..|s.e.references|] == s.e.references
    && t.e.references[|s.e.references|].call == t.calls && t.e.references[|s.e.references|].generation == g
    && |t.e.captures| == |s.e.captures| + 1 && t.e.captures[..|s.e.captures|] == s.e.captures
    && t.e.captures[|s.e.captures|].call == t.calls && t.e.captures[|s.e.captures|].generation == g
  }

  /** The requests pending at the entry are committed. */
  lemma Entered(steps: seq<Step>) returns (longer: seq<Step>)
    requires AtRest(After(steps))
    ensures var s, t := After(steps), After(longer);
            var n := s.e.breaks.requested - s.e.breaks.observed;
            && t.pc == Fencing(QUIET.call, Loading) && t.calls == s.calls + 1
            && t.consumer == (if n == 0 then s.consumer else Moved(s).consumer)
            && t.e.generation == s.e.generation + n && t.e.breaks.requested == t.e.breaks.observed
            && t == s.(pc := t.pc, calls := t.calls, consumer := t.consumer, h := s.h.(inputs := t.h.inputs),
                       e := s.e.(generation := t.e.generation, playbackGeneration := t.e.playbackGeneration,
                                 active := t.e.active, discontinuities := t.e.discontinuities, breaks := t.e.breaks))
  {
    hide After;
    longer := Go(steps, QUIET);
    longer := Go(longer, QUIET);
    if After(steps).e.breaks.requested != After(steps).e.breaks.observed {
      longer := Go(longer, QUIET);
      longer := Go(longer, QUIET);
      longer := Go(longer, QUIET);
    }
  }

  /** From the judgement of the status to silence. */
  lemma Judged(steps: seq<Step>) returns (longer: seq<Step>)
    requires var s := After(steps);
             && s.pc == Fencing(QUIET.call, Loading) && s.e.capturing && s.e.playback == []
             && s.e.fences.requested == s.e.fences.observed && |s.e.references| < 2
    ensures var s, t := After(steps), After(longer);
            && t.pc == Running(Context(QUIET.call, true, s.e.generation, s.e.playbackGeneration), Rendering(None))
            && t == s.(pc := t.pc)
  {
    hide After;
    longer := Go(steps, QUIET);    // no fence to commit
    longer := Go(longer, QUIET);   // the activity flag
    longer := Go(longer, QUIET);   // the phase
    longer := Go(longer, QUIET);   // room for a reference
    longer := Go(longer, QUIET);   // the generation
    longer := Go(longer, QUIET);   // the playback generation
    longer := Go(longer, QUIET);   // no packet
  }

  lemma QuietCallback(steps: seq<Step>) returns (longer: seq<Step>)
    requires AtRest(After(steps))
    ensures var s, t := After(steps), After(longer);
            var n := s.e.breaks.requested - s.e.breaks.observed;
            Published(s, t, s.e.generation + n) && t.consumer == (if n == 0 then s.consumer else Moved(s).consumer)
  {
    hide After, RenderFrame, Padded, Zeros;
    longer := Entered(steps);
    longer := Judged(longer);
    longer := Go(longer, QUIET);   // silence
    longer := Go(longer, QUIET);   // the device
    longer := Go(longer, QUIET);   // the reference
    longer := Go(longer, QUIET);   // the capture
  }

  /** The rings hold one capture, of the last callback, and no reference. */
  predicate Offset(s: System, pairs: nat) {
    && AtRest(s) && s.consumer.Resting? && s.e.breaks.requested == s.e.breaks.observed
    && s.e.generation == 2 && s.e.references == [] && s.calls == pairs + 1 && |s.h.pairs| == pairs
    && |s.e.captures| == 1 && s.e.captures[0].call == s.calls && s.e.captures[0].generation == 2
  }

  /** A pump has accepted the capture of the first callback, and a discontinuity has been requested since. */
  lemma MoveRequested() returns (steps: seq<Step>)
    ensures var s := After(steps);
            && AtRest(s) && s.e.generation == 1 && s.calls == 1 && s.h.pairs == [] && s.e.captures == []
            && s.e.breaks.requested == s.e.breaks.observed + 1
            && |s.e.references| == 1 && s.e.references[0].generation == 1
            && s.consumer.Asking? && s.consumer.capture.call == 1 && s.consumer.w == Window(true, false)
  {
    assert After([]) == BEGIN;
    hide After;
    steps := QuietCallback([]);
    steps := Go(steps, Consume);
    steps := Go(steps, Consume);
    steps := Go(steps, Consume);
    steps := Go(steps, MarkBreak(External));
    steps := Go(steps, PublishBreak);
  }

  /** The first pump: it accepts a capture, the generation moves, and it fetches the next callback's reference. */
  lemma OffsetArises() returns (steps: seq<Step>)
    ensures var s := After(steps);
            && Offset(s, 1)
            && s.h.pairs[0].capture.call == 1 && s.h.pairs[0].reference.call == 2 && s.h.pairs[0].w == Window(true, true)
  {
    hide After, Run;
    steps := MoveRequested();
    steps := QuietCallback(steps);
    steps := Go(steps, Consume);
    steps := Go(steps, Consume);
    steps := Go(steps, Consume);
    steps := Go(steps, Consume);
  }

  /** The generation stood still and both frames carry it, but the reference is the next callback's. */
  predicate Shifted(p: Pair) {
    && !p.w.moved && p.capture.generation == p.reference.generation == 2
    && p.reference.call == p.capture.call + 1
  }

  /** A further callback and a further pump, with nobody else doing anything. */
  lemma OffsetRemains(steps: seq<Step>, n: nat) returns (longer: seq<Step>)
    requires Offset(After(steps), n)
    ensures var s, t := After(steps), After(longer);
            && Offset(t, n + 1) && t.h.pairs[..n] == s.h.pairs && Shifted(t.h.pairs[n])
  {
    hide After;
    longer := QuietCallback(steps);
    longer := Go(longer, Consume);
    longer := Go(longer, Consume);
    longer := Go(longer, Consume);
    longer := Go(longer, Consume);
    longer := Go(longer, Consume);
    longer := Go(longer, Consume);
  }

  /** After one move of the generation, any number of undisturbed pumps in a row hand over mismatched pairs. */
  lemma {:induction false} OffsetOutlivesTheMove(n: nat) returns (steps: seq<Step>)
    ensures var s := After(steps);
            Offset(s, n + 1) && forall i :: 1 <= i <= n ==> Shifted(s.h.pairs[i])
  {
    hide Shifted;
    if n == 0 {
      steps := OffsetArises();
    } else {
      var shorter := OffsetOutlivesTheMove(n - 1);
      steps := OffsetRemains(shorter, n);
      assert forall i :: 1 <= i < n ==> After(steps).h.pairs[i] == After(shorter).h.pairs[i];
    }
  }
}

/**
  What recognition comes to: which samples of which frame a call hears, and which final events
  its answers become.
 */
module SenseVoiceOutcomes {
  import opened Wrappers
  import opened SenseVoiceState
  import opened SpeechEvents
  import opened SenseVoiceRuns
  import opened SenseVoiceProofs

  // ---- sample by sample

  /** The valid samples of submissions `lo` up to `i`, counted. */
  function Before(submitted: seq<Frame>, lo: nat, i: nat): nat
    requires i <= |submitted|
    decreases i
  {
    if i <= lo then 0 else Before(submitted, lo, i - 1) + submitted[i - 1].valid
  }

  /** The frames hold at least the samples they call valid, as fixed arrays do. */
  predicate Backed(submitted: seq<Frame>, lo: nat, hi: nat) {
    forall i :: lo <= i < hi && i < |submitted| ==> submitted[i].valid <= |submitted[i].samples|
  }

  lemma {:induction false} PcmLength(submitted: seq<Frame>, lo: nat, hi: nat)
    requires lo <= hi <= |submitted| && Backed(submitted, lo, hi)
    ensures |Pcm(submitted, lo, hi)| == Before(submitted, lo, hi)
    decreases hi
  {
    if lo < hi {
      PcmLength(submitted, lo, hi - 1);
      assert |FramePcm(submitted[hi - 1])| == submitted[hi - 1].valid;
    }
  }

  /** Sample `j` of frame `i` stands behind the valid samples of the frames before it. */
  lemma {:induction false} PcmByIndex(submitted: seq<Frame>, lo: nat, hi: nat, i: nat, j: nat)
    requires lo <= i < hi <= |submitted| && Backed(submitted, lo, hi) && j < submitted[i].valid
    ensures Before(submitted, lo, i) + j < |Pcm(submitted, lo, hi)|
    ensures Pcm(submitted, lo, hi)[Before(submitted, lo, i) + j] == submitted[i].samples[j]
    decreases hi
  {
    hide Before;
    var front, last := Pcm(submitted, lo, hi - 1), FramePcm(submitted[hi - 1]);
    assert Pcm(submitted, lo, hi) == front + last;
    if i == hi - 1 {
      PcmLength(submitted, lo, i);
      assert (front + last)[|front| + j] == last[j];
    } else {
      PcmByIndex(submitted, lo, hi - 1, i, j);
      assert (front + last)[Before(submitted, lo, i) + j] == front[Before(submitted, lo, i) + j];
    }
  }

  /**
    In every run, sample `j` of frame `i` of the run that a call draws on stands in the call's
    input behind all valid samples of the earlier frames, if the endpoint lies behind it.
   */
  lemma {:induction false} RecognitionHearsEachSample(capacity: nat, steps: seq<Step>, k: nat, i: nat, j: nat)
    requires 1 <= capacity
    requires var s := Run(Start(capacity), steps);
             && k < |s.calls| && s.calls[k].lo <= i < s.calls[k].hi && i < |s.submitted|
             && Backed(s.submitted, s.calls[k].lo, s.calls[k].hi) && j < s.submitted[i].valid
    ensures var s := Run(Start(capacity), steps); var c := s.calls[k]; var at := Before(s.submitted, c.lo, i) + j;
            at < c.endpoint ==> at < |c.pcm| && c.pcm[at] == s.submitted[i].samples[j]
  {
    hide Run;
    RecognitionHearsContiguousRuns(capacity, steps);
    var s := Run(Start(capacity), steps);
    var c := s.calls[k];
    assert c in s.calls;
    PcmByIndex(s.submitted, c.lo, c.hi, i, j);
  }

  // ---- final events

  /** The final events among those reported. */
  function Finals(events: seq<Event>): seq<Event> {
    if events == [] then []
    else
      var last := events[|events| - 1];
      Finals(events[..|events| - 1]) + if last.kind.EndpointFinal? then [last] else []
  }

  /** The events that the calls deserve: one for each that was recognised inside a scope. */
  function Successes(calls: seq<AsrCall>): seq<Event> {
    if calls == [] then []
    else
      var c := calls[|calls| - 1];
      Successes(calls[..|calls| - 1])
      + if c.recognized && c.scope != 0 then [Event(EndpointFinal, c.frame.generation, c.frame.sequence, c.scope)] else []
  }

  lemma {:induction false} FinalsOfOneMore(events: seq<Event>, e: Event)
    ensures Finals(events + [e]) == Finals(events) + if e.kind.EndpointFinal? then [e] else []
  {
    assert (events + [e])[..|events|] == events;
  }

  lemma {:induction false} SuccessesOfOneMore(calls: seq<AsrCall>, c: AsrCall)
    ensures Successes(calls + [c])
         == Successes(calls)
            + if c.recognized && c.scope != 0
              then [Event(EndpointFinal, c.frame.generation, c.frame.sequence, c.scope)] else []
  {
    assert (calls + [c])[..|calls|] == calls;
  }

  /** The final event that is about to be reported. */
  function Due(pc: Pc): seq<Event> {
    if pc.Ending? && pc.e.kind.EndpointFinal? then [pc.e] else []
  }

  ghost predicate Settled(s: System) {
    && (!s.p.stopping ==> Finals(s.events) + Due(s.pc) == Successes(s.calls))
    && (s.p.stopping ==> Finals(s.events) <= Successes(s.calls))
    && (Due(s.pc) != [] && !s.p.stopping ==> s.p.hasSink)
    && (s.pc.Retiring? || s.pc.Reporting? ==> !s.pc.kind.EndpointFinal?)
  }

  /** What emission does: one event at most, and from then on the worker ends the turn only if it was ending it. */
  lemma Emission(s: System, o: Oracle)
    requires s.pc.Waking? || s.pc.FinishWaking? || s.pc.Telling? || s.pc.Ending?
    ensures var t := WorkerStep(s, o);
            && t.calls == s.calls && t.p.stopping == s.p.stopping && t.p.hasSink == s.p.hasSink
            && Due(t.pc) == [] && !t.pc.Retiring? && !t.pc.Reporting?
            && (!s.p.Delivers() ==> t.events == s.events)
            && (s.p.Delivers() ==>
                  exists e: Event ::
                    t.events == s.events + [e] && (if s.pc.Ending? then e == s.pc.e else !e.kind.EndpointFinal?))
  {
    var t := WorkerStep(s, o);
    if s.p.Delivers() {
      var e := if s.pc.Ending? then s.pc.e
               else if s.pc.Telling? then FrameEvent(Activity, s.pc.f, s.pc.scope) else FrameEvent(EventKind.Wake, s.pc.f, 0);
      assert t.events == s.events + [e];
    }
  }

  lemma EmittingSettles(s: System, o: Oracle)
    requires Settled(s) && (s.pc.Waking? || s.pc.FinishWaking? || s.pc.Telling? || s.pc.Ending?)
    ensures Settled(WorkerStep(s, o))
  {
    hide WorkerStep, Finals, Successes;
    Emission(s, o);
    var t := WorkerStep(s, o);
    if s.p.Delivers() {
      var e: Event :| t.events == s.events + [e] && (if s.pc.Ending? then e == s.pc.e else !e.kind.EndpointFinal?);
      FinalsOfOneMore(s.events, e);
    }
  }

  lemma InferringSettles(s: System, o: Oracle)
    requires Settled(s) && TurnInv(s) && s.pc.Inferring?
    ensures Settled(WorkerStep(s, o))
  {
    SuccessesOfOneMore(s.calls, WorkerStep(s, o).calls[|s.calls|]);
  }

  /** The step neither reports nor recognises, and has no final event due. */
  predicate Neutral(s: System, t: System) {
    && t.events == s.events && t.calls == s.calls && t.p.stopping == s.p.stopping && Due(t.pc) == Due(s.pc) == []
    && (t.pc.Retiring? || t.pc.Reporting? ==> !t.pc.kind.EndpointFinal?)
  }

  /** The steps that serve a finish, and those before the worker acts on a frame. */
  predicate Early(pc: Pc) {
    || pc.Idle? || pc.Exited? || pc.Admitting? || pc.Listening? || pc.Deciding? || pc.Finishing? || pc.FinishReading?
    || pc.Flushing?
  }

  lemma EarlyStepsAreNeutral(s: System, o: Oracle)
    requires Early(s.pc)
    ensures Neutral(s, WorkerStep(s, o))
  {
  }

  lemma LateStepsAreNeutral(s: System, o: Oracle)
    requires s.pc.Retiring? || s.pc.Reporting? ==> !s.pc.kind.EndpointFinal?
    requires !s.pc.Inferring? && !s.pc.Waking? && !s.pc.FinishWaking? && !s.pc.Telling? && !s.pc.Ending? && !Early(s.pc)
    ensures Neutral(s, WorkerStep(s, o))
  {
  }

  lemma WorkSettles(s: System, o: Oracle)
    requires Settled(s) && TurnInv(s)
    ensures Settled(WorkerStep(s, o))
  {
    hide WorkerStep, TurnInv, Finals, Successes;
    if s.pc.Inferring? {
      InferringSettles(s, o);
    } else if s.pc.Waking? || s.pc.FinishWaking? || s.pc.Telling? || s.pc.Ending? {
      EmittingSettles(s, o);
    } else if Early(s.pc) {
      EarlyStepsAreNeutral(s, o);
    } else {
      LateStepsAreNeutral(s, o);
    }
  }

  lemma StepSettles(s: System, step: Step)
    requires Settled(s) && TurnInv(s)
    ensures Settled(Next(s, step))
  {
    hide Finals, Successes, TurnInv, WorkerStep;
    if step.Work? {
      WorkSettles(s, step.o);
    }
  }

  lemma {:induction false} RunsSettle(capacity: nat, steps: seq<Step>)
    requires 1 <= capacity
    ensures Settled(Run(Start(capacity), steps))
  {
    if steps != [] {
      hide Next, Settled;
      var front := steps[..|steps| - 1];
      RunsSettle(capacity, front);
      ReachableStatesAreGood(capacity, front);
      StepSettles(Run(Start(capacity), front), steps[|steps| - 1]);
    }
  }

  /**
    In every run, until shutdown, the final events reported, and the one about to be, are one for
    one and in order the recognition calls that succeeded inside a scope, each with that call's
    frame and scope. Afterwards none is reported that a call did not earn.
   */
  lemma {:induction false} FinalEventsAreEarned(capacity: nat, steps: seq<Step>)
    requires 1 <= capacity
    ensures var s := Run(Start(capacity), steps);
            && (!s.p.stopping ==> Finals(s.events) + Due(s.pc) == Successes(s.calls))
            && Finals(s.events) <= Successes(s.calls)
            && (forall c <- s.calls :: c.lo < c.hi <= |s.submitted| && c.frame == s.submitted[c.hi - 1])
  {
    RunsSettle(capacity, steps);
    ReachableStatesAreGood(capacity, steps);
    var s := Run(Start(capacity), steps);
    forall c <- s.calls ensures c.lo < c.hi <= |s.submitted| && c.frame == s.submitted[c.hi - 1] {
      assert CallInv(s.submitted, c);
    }
  }

  // ---- shutdown

  lemma ShutWorkIsSilent(s: System, o: Oracle)
    requires s.p.stopping
    ensures var t := WorkerStep(s, o); t.p.stopping && t.events == s.events && t.submitted == s.submitted
  {
    hide WorkerStep;
    if s.pc.Inferring? {
      ShutInferenceIsSilent(s, o);
    } else if s.pc.Waking? || s.pc.FinishWaking? || s.pc.Telling? || s.pc.Ending? {
      Emission(s, o);
      QuietStepsKeepPositions(s, o);
    } else {
      OtherStepsKeepHistory(s, o);
      if Early(s.pc) { EarlyStepsAreNeutral(s, o); } else { ShutStays(s, o); }
    }
  }

  lemma ShutInferenceIsSilent(s: System, o: Oracle)
    requires s.p.stopping && s.pc.Inferring?
    ensures var t := WorkerStep(s, o); t.p.stopping && t.events == s.events && t.submitted == s.submitted
  {
  }

  lemma ShutStays(s: System, o: Oracle)
    requires s.p.stopping && !Early(s.pc) && !s.pc.Waking? && !s.pc.FinishWaking? && !s.pc.Telling? && !s.pc.Ending?
    ensures WorkerStep(s, o).p.stopping
  {
  }

  lemma ShutStepsAreSilent(s: System, step: Step)
    requires s.p.stopping
    ensures var t := Next(s, step); t.p.stopping && t.events == s.events && t.submitted == s.submitted
  {
    hide WorkerStep;
    if step.Work? { ShutWorkIsSilent(s, step.o); }
  }

  /** In every run nothing is reported and no frame is taken any more once shutdown has gone through. */
  lemma {:induction false} NothingAfterShutdown(capacity: nat, steps: seq<Step>, n: nat)
    requires n <= |steps| && Run(Start(capacity), steps[..n]).p.stopping
    ensures var s, t := Run(Start(capacity), steps[..n]), Run(Start(capacity), steps);
            t.p.stopping && t.events == s.events && t.submitted == s.submitted
  {
    hide Next;
    if n < |steps| {
      var front := steps[..|steps| - 1];
      assert front[..n] == steps[..n];
      NothingAfterShutdown(capacity, front, n);
      ShutStepsAreSilent(Run(Start(capacity), front), steps[|steps| - 1]);
    } else {
      assert steps[..n] == steps;
    }
  }

  /** In every run an idle worker that finds the shutdown exits at its next step. */
  lemma {:induction false} ShutdownStopsTheWorker(capacity: nat, steps: seq<Step>, o: Oracle)
    requires 1 <= capacity
    requires var s := Run(Start(capacity), steps); s.pc.Idle? && s.p.stopping
    ensures WorkerStep(Run(Start(capacity), steps), o).pc.Exited?
  {
    ReachableStatesAreGood(capacity, steps);
  }
}

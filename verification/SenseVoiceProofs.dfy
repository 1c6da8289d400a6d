/**
  What every interleaving of `SenseVoiceRuns` keeps, and the guarantees that follow: recognition
  hears contiguous, disjoint runs of submissions, and events form turns.
 */
module SenseVoiceProofs {
  import opened Wrappers
  import opened SenseVoiceState
  import opened SpeechEvents
  import opened SenseVoiceRuns

  /** The samples of submissions `lo` up to `hi`, in order. */
  function Pcm(submitted: seq<Frame>, lo: nat, hi: nat): seq<Sample>
    requires hi <= |submitted|
    decreases hi
  {
    if hi <= lo then [] else Pcm(submitted, lo, hi - 1) + FramePcm(submitted[hi - 1])
  }

  lemma {:induction false} PcmSurvivesSubmission(submitted: seq<Frame>, f: Frame, lo: nat, hi: nat)
    requires hi <= |submitted|
    ensures Pcm(submitted + [f], lo, hi) == Pcm(submitted, lo, hi)
    decreases hi
  {
    if lo < hi { PcmSurvivesSubmission(submitted, f, lo, hi - 1); }
  }

  /** The turn has been closed and nothing may be admitted to it any more. */
  predicate Closed(pc: Pc) {
    pc.Reporting? || pc.Ending? || pc.Resetting? || pc.Inferring? || pc.FinishWaking? || pc.FinishSpeaking?
  }

  /** A frame has been admitted to the current turn. */
  predicate Heard(pc: Pc) {
    || pc.Listening? || pc.Deciding? || pc.Waking? || pc.Speaking? || pc.Scoping? || pc.Telling? || pc.Closing?
    || pc.Inferring? || pc.Flushing? || pc.FinishClosing? || pc.FinishWaking? || pc.FinishSpeaking?
  }

  /** The worker is serving a finish request. */
  predicate Finalizing(pc: Pc) {
    || pc.Finishing? || pc.FinishReading? || pc.Flushing? || pc.FinishClosing? || pc.FinishWaking?
    || pc.FinishSpeaking?
  }

  // ---- positions and flags

  ghost predicate ShapeInv(s: System) {
    && 1 <= s.p.capacity
    && |s.p.queue| <= s.p.capacity
    && s.lo <= s.hi <= s.next
    && s.next + |s.p.queue| <= |s.submitted|
    && (s.p.stopping ==> s.p.stopRequested && !s.p.armed && s.p.queue == [] && !s.p.hasSink)
    && (s.p.stopping ==> !s.p.overflow.pending)
    && (s.p.overflow.pending ==> s.p.overflow.quarantined)
    && (s.p.overflow.quarantined ==> !s.p.armed)
    && (Closed(s.pc) || s.pc.Claiming? ==> !s.p.armed)
  }

  /**
    The queue reaches the newest submission unless a finish refuses input. While the turn is open
    the buffered run ends where the queue, or the frame in the worker's hand, starts.
   */
  ghost predicate OrderInv(s: System) {
    && (!s.p.stopping && !s.p.finish.requested ==> s.next + |s.p.queue| == |s.submitted|)
    && (Closed(s.pc) && s.p.finish.requested ==> s.p.queue == [])
    && (s.p.armed && !s.pc.Admitting? && !s.pc.Retiring? && s.lo < s.hi ==> s.hi == s.next)
    && (s.p.armed && s.pc.Admitting? ==> 0 < s.next && (s.lo < s.hi ==> s.hi == s.next - 1))
  }

  ghost predicate EndpointInv(s: System) {
    && (s.pc.Closing? ==> EndpointAllowed(s.p, s.pc.r.endpoint))
    && (s.pc.FinishClosing? ==> EndpointAllowed(s.p, s.pc.endpoint))
    && (s.pc.Inferring? || s.pc.FinishWaking? || s.pc.FinishSpeaking? ==> s.p.pcm != [])
  }

  /** The utterance has already been handed to recognition. */
  predicate Spent(s: System) {
    s.pc.Ending? || s.pc.Resetting? || (s.p.stopping && (s.pc.Idle? || s.pc.Exited?))
  }

  function LastEnd(calls: seq<AsrCall>): nat {
    if calls == [] then 0 else calls[|calls| - 1].hi
  }

  /** The current run lies after everything recognition has heard. */
  ghost predicate CallsInv(s: System) {
    && LastEnd(s.calls) <= s.next
    && (!Spent(s) && s.lo < s.hi ==> LastEnd(s.calls) <= s.lo)
    && (s.p.armed && s.pc.Admitting? ==> LastEnd(s.calls) < s.next)
  }

  ghost predicate CountInv(s: System) {
    && s.hi - s.lo <= s.p.turn.admitted
    && |s.p.pcm| <= FRAME_SAMPLES * (s.hi - s.lo)
    && (s.p.armed && !s.pc.Listening? && !s.pc.Deciding? && !s.pc.Retiring? ==> s.p.turn.admitted < s.p.capacity)
  }

  ghost predicate TurnInv(s: System) {
    && (!s.p.stopping && (s.p.queue != [] || s.p.turn.lastFrame.Some? || s.p.overflow.pending) ==> s.p.hasSink)
    && (!s.p.stopping && s.p.armed && s.pc.Admitting? ==> s.p.hasSink)
    && (s.p.turn.wakeSent || Heard(s.pc) ==> s.p.turn.lastFrame.Some?)
    && (s.pc.Retiring? || s.pc.Reporting? ==> Terminal(s.pc.kind))
    && (s.pc.Ending? ==> Terminal(s.pc.e.kind))
    && (s.pc.Waking? || s.pc.FinishWaking? ==> !s.p.turn.wakeSent)
    && (s.pc.Speaking? || s.pc.Scoping? || s.pc.Telling? ==> s.p.turn.wakeSent)
  }

  ghost predicate GrammarInv(s: System) {
    && s.phase != Malformed
    && (!s.p.stopping ==> s.phase == if s.p.turn.wakeSent && !s.pc.Resetting? then TurnOpen else BetweenTurns)
  }

  /** Until a stop is requested the flags only describe overflows and finishes still to be served. */
  ghost predicate ServiceInv(s: System) {
    !s.p.stopRequested ==>
      && (!Closed(s.pc) && !s.p.armed ==> s.p.overflow.quarantined)
      && (s.p.overflow.quarantined && !s.p.overflow.pending ==> s.p.overflow.failureEmitted)
      && (s.p.overflow.failureEmitted ==> s.pc.Retiring? || Closed(s.pc))
      && (s.p.finish.handled ==> s.p.finish.requested && (Finalizing(s.pc) || s.pc.Retiring? || Closed(s.pc)))
      && (s.p.finish.duplicate ==> s.p.finish.requested)
      && (s.p.finish.requested && !Closed(s.pc) ==> s.p.armed)
      && !s.pc.Exited?
  }

  ghost predicate Inv(s: System) {
    && ShapeInv(s) && OrderInv(s) && EndpointInv(s) && CallsInv(s) && CountInv(s) && TurnInv(s)
    && GrammarInv(s) && ServiceInv(s)
  }

  // ---- what the queue and the buffer hold

  /** An admitted frame is in the buffer, and nothing has been cut from it yet. */
  predicate Uncut(pc: Pc) {
    || pc.Listening? || pc.Deciding? || pc.Waking? || pc.Speaking? || pc.Scoping? || pc.Closing?
    || pc.FinishReading? || pc.Flushing? || pc.FinishClosing?
  }

  /** The utterance has been closed and is on its way to recognition. */
  predicate Cut(pc: Pc) {
    pc.Inferring? || pc.FinishWaking? || pc.FinishSpeaking?
  }

  /** The buffer holds the whole run until it is closed, and then exactly what the named endpoint leaves of it. */
  ghost predicate Utterance(s: System)
    requires s.hi <= |s.submitted|
  {
    var run := Pcm(s.submitted, s.lo, s.hi);
    && (Uncut(s.pc) ==> s.p.pcm == run)
    && (Cut(s.pc) ==> 0 < s.named <= |run| && s.p.pcm == run[..s.named])
  }

  /** The frame in the worker's hand, and the turn's last frame, are the newest submission heard. */
  ghost predicate NewestHeard(s: System)
    requires s.hi <= |s.submitted|
  {
    && (Heard(s.pc) ==> s.lo < s.hi && s.pc.f == s.submitted[s.hi - 1])
    && ((s.p.armed || s.pc.FinishReading?) && s.p.turn.lastFrame.Some? && !s.pc.Retiring? ==>
          s.lo < s.hi && s.p.turn.lastFrame.value == s.submitted[s.hi - 1])
  }

  ghost predicate Contents(s: System)
    requires ShapeInv(s)
  {
    && s.p.queue == s.submitted[s.next..s.next + |s.p.queue|]
    && (s.p.armed && s.pc.Admitting? && 0 < s.next ==> s.pc.f == s.submitted[s.next - 1])
    && s.p.pcm <= Pcm(s.submitted, s.lo, s.hi)
    && (s.p.armed ==> s.p.pcm == Pcm(s.submitted, s.lo, s.hi))
  }

  // ---- what has been reported and recognised

  ghost predicate CallInv(submitted: seq<Frame>, c: AsrCall) {
    && c.lo < c.hi <= |submitted| && 0 < c.endpoint <= |Pcm(submitted, c.lo, c.hi)|
    && c.pcm == Pcm(submitted, c.lo, c.hi)[..c.endpoint] && c.frame == submitted[c.hi - 1]
  }

  /** The calls heard disjoint runs of submissions, in order. */
  ghost predicate CallsWell(submitted: seq<Frame>, calls: seq<AsrCall>) {
    && (forall c <- calls :: CallInv(submitted, c))
    && (forall i, j :: 0 <= i < j < |calls| ==> calls[i].hi <= calls[j].lo)
  }

  ghost predicate History(s: System) {
    s.phase == PhaseAfter(s.events) && CallsWell(s.submitted, s.calls)
  }

  lemma RefusalKeepsInv(s: System, f: Frame)
    requires Inv(s) && (s.p.stopping || s.p.finish.requested)
    ensures Inv(Next(s, Submit(f)))
  {
  }

  lemma OverflowKeepsInv(s: System, f: Frame)
    requires Inv(s) && !s.p.stopping && !s.p.finish.requested && |s.p.queue| == s.p.capacity
    ensures Inv(Next(s, Submit(f)))
  {
  }

  lemma QueueingKeepsInv(s: System, f: Frame)
    requires Inv(s) && !s.p.stopping && !s.p.finish.requested && |s.p.queue| < s.p.capacity
    ensures Inv(Next(s, Submit(f)))
  {
  }

  lemma ControlKeepsInv(s: System, step: Step)
    requires Inv(s) && (step.FinishInput? || step.RequestStop? || step.ShutDown? || step.SetScope?)
    ensures Inv(Next(s, step))
  {
  }

  lemma DequeueKeepsInv(s: System, o: Oracle)
    requires Inv(s) && s.pc.Idle? && s.p.queue != [] && !s.p.overflow.pending
    ensures Inv(WorkerStep(s, o))
  {
  }

  lemma OverflowWakeKeepsInv(s: System, o: Oracle)
    requires Inv(s) && s.pc.Idle? && (s.p.overflow.pending || s.p.stopping)
    ensures Inv(WorkerStep(s, o))
  {
  }

  lemma FinishWakeKeepsInv(s: System, o: Oracle)
    requires Inv(s) && s.pc.Idle? && !s.p.overflow.pending && !s.p.stopping && s.p.queue == [] && s.p.HasWork()
    ensures Inv(WorkerStep(s, o))
  {
  }

  lemma IgnoringKeepsInv(s: System, o: Oracle)
    requires Inv(s) && s.pc.Admitting? && !s.p.IsArmed()
    ensures Inv(WorkerStep(s, o))
  {
  }

  lemma ConsumeKeepsInv(s: System, o: Oracle)
    requires Inv(s) && s.pc.Admitting? && s.p.IsArmed()
    ensures Inv(WorkerStep(s, o))
  {
  }

  lemma DetectionKeepsInv(s: System, o: Oracle)
    requires Inv(s) && (s.pc.Listening? || s.pc.Deciding?)
    ensures Inv(WorkerStep(s, o))
  {
  }

  lemma SpeechKeepsInv(s: System, o: Oracle)
    requires Inv(s) && (s.pc.Speaking? || s.pc.Scoping? || s.pc.FinishSpeaking?)
    ensures Inv(WorkerStep(s, o))
  {
  }

  lemma WakingKeepsInv(s: System, o: Oracle)
    requires Inv(s) && (s.pc.Waking? || s.pc.FinishWaking? || s.pc.Telling?)
    ensures Inv(WorkerStep(s, o))
  {
  }

  lemma EndingKeepsInv(s: System, o: Oracle)
    requires Inv(s) && (s.pc.Inferring? || s.pc.Ending? || s.pc.Exited?)
    ensures Inv(WorkerStep(s, o))
  {
  }

  lemma ClosingKeepsInv(s: System, o: Oracle)
    requires Inv(s) && (s.pc.Closing? || s.pc.FinishClosing?)
    ensures Inv(WorkerStep(s, o))
  {
  }

  lemma RetiringKeepsInv(s: System, o: Oracle)
    requires Inv(s) && (s.pc.Claiming? || s.pc.Retiring? || s.pc.Reporting?)
    ensures Inv(WorkerStep(s, o))
  {
  }

  lemma FinishKeepsInv(s: System, o: Oracle)
    requires Inv(s) && (s.pc.Finishing? || s.pc.FinishReading? || s.pc.Flushing?)
    ensures Inv(WorkerStep(s, o))
  {
  }

  lemma ResettingKeepsInv(s: System, o: Oracle)
    requires Inv(s) && s.pc.Resetting?
    ensures Inv(WorkerStep(s, o))
  {
  }

  lemma StepKeepsInv(s: System, step: Step)
    requires Inv(s)
    ensures Inv(Next(s, step))
  {
    match step
    case Submit(f) =>
      if s.p.stopping || s.p.finish.requested {
        RefusalKeepsInv(s, f);
      } else if |s.p.queue| == s.p.capacity {
        OverflowKeepsInv(s, f);
      } else {
        QueueingKeepsInv(s, f);
      }
    case Work(o) =>
      match s.pc {
        case Idle =>
          if s.p.overflow.pending || s.p.stopping {
            OverflowWakeKeepsInv(s, o);
          } else if s.p.queue != [] {
            DequeueKeepsInv(s, o);
          } else if s.p.HasWork() {
            FinishWakeKeepsInv(s, o);
          }
        case Admitting(_) => if s.p.IsArmed() { ConsumeKeepsInv(s, o); } else { IgnoringKeepsInv(s, o); }
        case Listening(_) => DetectionKeepsInv(s, o);
        case Deciding(_, _) => DetectionKeepsInv(s, o);
        case Speaking(_, _) => SpeechKeepsInv(s, o);
        case Scoping(_, _) => SpeechKeepsInv(s, o);
        case FinishSpeaking(_) => SpeechKeepsInv(s, o);
        case Waking(_, _) => WakingKeepsInv(s, o);
        case FinishWaking(_) => WakingKeepsInv(s, o);
        case Telling(_, _) => WakingKeepsInv(s, o);
        case Inferring(_) => EndingKeepsInv(s, o);
        case Ending(_) => EndingKeepsInv(s, o);
        case Exited => EndingKeepsInv(s, o);
        case Closing(_, _) => ClosingKeepsInv(s, o);
        case FinishClosing(_, _) => ClosingKeepsInv(s, o);
        case Claiming(_) => RetiringKeepsInv(s, o);
        case Retiring(_, _) => RetiringKeepsInv(s, o);
        case Reporting(_, _) => RetiringKeepsInv(s, o);
        case Finishing => FinishKeepsInv(s, o);
        case FinishReading => FinishKeepsInv(s, o);
        case Flushing(_) => FinishKeepsInv(s, o);
        case Resetting => ResettingKeepsInv(s, o);
      }
    case _ => ControlKeepsInv(s, step);
  }

  /** A run of submissions that reaches the newest one grows with it. */
  lemma RunGrows(submitted: seq<Frame>, f: Frame, next: nat, queue: seq<Frame>)
    requires next + |queue| == |submitted| && queue == submitted[next..next + |queue|]
    ensures queue + [f] == (submitted + [f])[next..next + |queue| + 1]
  {
  }

  lemma RunStays(submitted: seq<Frame>, f: Frame, next: nat, queue: seq<Frame>)
    requires next + |queue| <= |submitted| && queue == submitted[next..next + |queue|]
    ensures queue == (submitted + [f])[next..next + |queue|]
  {
  }

  lemma SubmitKeepsContents(s: System, f: Frame)
    requires ShapeInv(s) && Contents(s) && ShapeInv(Next(s, Submit(f)))
    requires !s.p.stopping && !s.p.finish.requested ==> s.next + |s.p.queue| == |s.submitted|
    ensures Contents(Next(s, Submit(f)))
  {
    hide Pcm, FramePcm;
    PcmSurvivesSubmission(s.submitted, f, s.lo, s.hi);
    RunStays(s.submitted, f, s.next, s.p.queue);
    if s.next + |s.p.queue| == |s.submitted| {
      RunGrows(s.submitted, f, s.next, s.p.queue);
    }
  }

  lemma ControlKeepsContents(s: System, step: Step)
    requires ShapeInv(s) && Contents(s) && ShapeInv(Next(s, step)) && !step.Submit? && !step.Work?
    ensures Contents(Next(s, step))
  {
  }

  lemma DequeueKeepsContents(s: System, o: Oracle)
    requires ShapeInv(s) && Contents(s) && ShapeInv(WorkerStep(s, o)) && s.pc.Idle? && s.p.queue != [] && !s.p.overflow.pending
    ensures Contents(WorkerStep(s, o))
  {
    var t := WorkerStep(s, o);
    assert t.p.queue == s.submitted[t.next..t.next + |t.p.queue|];
    assert t.pc == Admitting(s.submitted[s.next]);
  }

  lemma ConsumingAppends(s: System, f: Frame)
    ensures var t := Consume(s, f);
            && t.submitted == s.submitted && t.next == s.next && t.p.queue == s.p.queue && t.p.armed == s.p.armed
            && (t.p.pcm == if t.pc.Listening? then s.p.pcm + FramePcm(f) else s.p.pcm)
            && (!t.pc.Listening? ==> t.lo == s.lo && t.hi == s.hi && !t.pc.Admitting?)
            && (t.pc.Listening? ==>
                  && s.p.armed && t.pc.f == f && t.hi == s.next
                  && t.lo == if s.lo != s.hi then s.lo else if 0 < s.next then s.next - 1 else 0)
  {
    hide FramePcm;
  }

  lemma ConsumeKeepsContents(s: System, o: Oracle)
    requires ShapeInv(s) && OrderInv(s) && Contents(s) && ShapeInv(WorkerStep(s, o)) && s.pc.Admitting?
    ensures Contents(WorkerStep(s, o))
  {
    var t := WorkerStep(s, o);
    ConsumingAppends(s, s.pc.f);
    hide Consume, FramePcm;
    if t.pc.Listening? {
      assert Pcm(t.submitted, t.lo, t.hi) == Pcm(s.submitted, t.lo, t.hi - 1) + FramePcm(s.pc.f);
      assert Pcm(s.submitted, t.lo, t.hi - 1) == s.p.pcm;
    }
    hide Pcm, OrderInv;
  }

  lemma ClearingKeepsContents(s: System, o: Oracle)
    requires ShapeInv(s) && Contents(s) && ShapeInv(WorkerStep(s, o))
    requires s.pc.Closing? || s.pc.FinishClosing? || s.pc.Retiring? || s.pc.Resetting?
    ensures Contents(WorkerStep(s, o))
  {
    hide Pcm, FramePcm;
    if s.pc.Resetting? { ResettingKeepsContents(s, o); }
    hide Reset;
  }

  lemma ResettingKeepsContents(s: System, o: Oracle)
    requires ShapeInv(s) && Contents(s) && ShapeInv(WorkerStep(s, o)) && s.pc.Resetting?
    ensures Contents(WorkerStep(s, o))
  {
    hide FramePcm;
  }

  /** The steps that neither consume nor clear leave the queue, the buffer and the positions alone. */
  predicate Quiet(pc: Pc) {
    && !pc.Closing? && !pc.FinishClosing? && !pc.Retiring? && !pc.Resetting? && !pc.Idle? && !pc.Admitting?
  }

  lemma QuietStepsKeepBuffers(s: System, o: Oracle)
    requires Quiet(s.pc)
    ensures var t := WorkerStep(s, o); t.p.queue == s.p.queue && t.p.pcm == s.p.pcm && t.p.armed == s.p.armed
  {
    if s.pc.Claiming? {
      assert WorkerStep(s, o).p == s.p.ClaimOverflow(s.pc.f).0;
    } else if s.pc.FinishReading? {
      assert WorkerStep(s, o).p == s.p.ReadFinish().0;
    } else if s.pc.Waking? || s.pc.FinishWaking? {
    } else {
      assert WorkerStep(s, o).p == s.p;
    }
  }

  lemma QuietStepsKeepPositions(s: System, o: Oracle)
    requires Quiet(s.pc)
    ensures var t := WorkerStep(s, o);
            && t.submitted == s.submitted && t.next == s.next && t.lo == s.lo && t.hi == s.hi && !t.pc.Admitting?
  {
    if s.pc.Waking? || s.pc.FinishWaking? || s.pc.Telling? || s.pc.Ending? {
      EmissionKeepsPositions(s, o);
    }
    hide Emit;
  }

  lemma EmissionKeepsPositions(s: System, o: Oracle)
    requires s.pc.Waking? || s.pc.FinishWaking? || s.pc.Telling? || s.pc.Ending?
    ensures var t := WorkerStep(s, o);
            && t.submitted == s.submitted && t.next == s.next && t.lo == s.lo && t.hi == s.hi && !t.pc.Admitting?
  {
  }

  lemma WakeKeepsContents(s: System, o: Oracle)
    requires ShapeInv(s) && Contents(s) && ShapeInv(WorkerStep(s, o)) && s.pc.Idle?
    ensures Contents(WorkerStep(s, o))
  {
    if s.p.queue != [] && !s.p.overflow.pending {
      DequeueKeepsContents(s, o);
    }
  }

  lemma CallsSurviveSubmission(submitted: seq<Frame>, f: Frame, calls: seq<AsrCall>)
    requires CallsWell(submitted, calls)
    ensures CallsWell(submitted + [f], calls)
  {
    forall c <- calls ensures CallInv(submitted + [f], c) {
      assert CallInv(submitted, c);
      PcmSurvivesSubmission(submitted, f, c.lo, c.hi);
    }
  }

  lemma CallsGrow(submitted: seq<Frame>, calls: seq<AsrCall>, c: AsrCall)
    requires CallsWell(submitted, calls) && CallInv(submitted, c) && LastEnd(calls) <= c.lo
    ensures CallsWell(submitted, calls + [c])
  {
    var after := calls + [c];
    forall i, j | 0 <= i < j < |after| ensures after[i].hi <= after[j].lo {
      if j == |calls| && i < |calls| - 1 {
        assert CallInv(submitted, calls[|calls| - 1]);
      }
    }
  }

  lemma SubmitKeepsHistory(s: System, f: Frame)
    requires History(s)
    ensures History(Next(s, Submit(f)))
  {
    CallsSurviveSubmission(s.submitted, f, s.calls);
  }

  // ---- the utterance on its way to recognition

  lemma SubmitKeepsUtterance(s: System, f: Frame)
    requires ShapeInv(s) && Utterance(s) && NewestHeard(s)
    ensures Utterance(Next(s, Submit(f))) && NewestHeard(Next(s, Submit(f)))
  {
    hide Pcm;
    PcmSurvivesSubmission(s.submitted, f, s.lo, s.hi);
  }

  lemma ControlKeepsUtterance(s: System, step: Step)
    requires ShapeInv(s) && Utterance(s) && NewestHeard(s) && !step.Submit? && !step.Work?
    ensures Utterance(Next(s, step)) && NewestHeard(Next(s, step))
  {
    hide Pcm;
  }

  lemma ConsumeKeepsUtterance(s: System, o: Oracle)
    requires ShapeInv(s) && OrderInv(s) && Contents(s) && NewestHeard(s) && s.pc.Admitting?
    requires Contents(WorkerStep(s, o)) && ShapeInv(WorkerStep(s, o))
    ensures Utterance(WorkerStep(s, o)) && NewestHeard(WorkerStep(s, o))
  {
    hide Pcm, FramePcm;
    ConsumingAppends(s, s.pc.f);
  }

  /** What a quiet step does to the frame in hand and to the way to recognition. */
  predicate Moves(s: System, t: System) {
    && t.named == s.named && t.p.turn.lastFrame == s.p.turn.lastFrame
    && (Heard(t.pc) ==>
          if s.pc.FinishReading? then s.p.turn.lastFrame == Some(t.pc.f) else Heard(s.pc) && t.pc.f == s.pc.f)
    && (Uncut(t.pc) ==> Uncut(s.pc) || (s.pc.Finishing? && s.p.armed))
    && (Cut(t.pc) ==> Cut(s.pc))
    && (t.pc.FinishReading? ==> s.pc.Finishing? && s.p.armed)
  }

  lemma QuietStepsMove(s: System, o: Oracle)
    requires Quiet(s.pc)
    ensures Moves(s, WorkerStep(s, o))
  {
    hide WorkerStep, Moves;
    if s.pc.Waking? || s.pc.FinishWaking? || s.pc.Telling? || s.pc.Ending? {
      EmissionMoves(s, o);
    } else {
      SilentStepsMove(s, o);
    }
  }

  lemma SilentStepsMove(s: System, o: Oracle)
    requires Quiet(s.pc) && !s.pc.Waking? && !s.pc.FinishWaking? && !s.pc.Telling? && !s.pc.Ending?
    ensures Moves(s, WorkerStep(s, o))
  {
  }

  lemma EmissionMoves(s: System, o: Oracle)
    requires s.pc.Waking? || s.pc.FinishWaking? || s.pc.Telling? || s.pc.Ending?
    ensures Moves(s, WorkerStep(s, o))
  {
  }

  lemma QuietKeepsUtterance(s: System, o: Oracle)
    requires ShapeInv(s) && Contents(s) && Utterance(s) && NewestHeard(s) && Quiet(s.pc)
    ensures ShapeInv(WorkerStep(s, o)) ==> Utterance(WorkerStep(s, o)) && NewestHeard(WorkerStep(s, o))
  {
    hide Pcm, FramePcm, WorkerStep;
    QuietStepsKeepBuffers(s, o);
    QuietStepsKeepPositions(s, o);
    QuietStepsMove(s, o);
  }

  lemma ClosingKeepsUtterance(s: System, o: Oracle)
    requires ShapeInv(s) && EndpointInv(s) && Utterance(s) && NewestHeard(s) && (s.pc.Closing? || s.pc.FinishClosing?)
    ensures Utterance(WorkerStep(s, o)) && NewestHeard(WorkerStep(s, o))
  {
    hide Pcm, FramePcm;
  }

  lemma GivingUpKeepsUtterance(s: System, o: Oracle)
    requires ShapeInv(s) && NewestHeard(s) && (s.pc.Retiring? || s.pc.Resetting? || s.pc.Idle?)
    ensures Utterance(WorkerStep(s, o)) && NewestHeard(WorkerStep(s, o))
  {
    hide Pcm, FramePcm;
    if s.pc.Idle? { WakingLeavesTheUtterance(s, o); }
  }

  /** Every other step of the worker. */
  lemma WorkKeepsUtterance(s: System, o: Oracle)
    requires ShapeInv(s) && EndpointInv(s) && Contents(s) && Utterance(s) && NewestHeard(s) && !s.pc.Admitting?
    requires ShapeInv(WorkerStep(s, o))
    ensures Utterance(WorkerStep(s, o)) && NewestHeard(WorkerStep(s, o))
  {
    hide WorkerStep, Utterance, NewestHeard, EndpointInv;
    if Quiet(s.pc) {
      QuietKeepsUtterance(s, o);
    } else if s.pc.Closing? || s.pc.FinishClosing? {
      ClosingKeepsUtterance(s, o);
    } else {
      GivingUpKeepsUtterance(s, o);
    }
  }

  lemma WakingLeavesTheUtterance(s: System, o: Oracle)
    requires s.pc.Idle?
    ensures var t := WorkerStep(s, o);
            && t.submitted == s.submitted && t.lo == s.lo && t.hi == s.hi && t.p.armed == s.p.armed
            && t.p.turn == s.p.turn && !Heard(t.pc) && !Uncut(t.pc) && !Cut(t.pc)
  {
  }

  lemma InferKeepsHistory(s: System, o: Oracle)
    requires ShapeInv(s) && CallsInv(s) && Utterance(s) && NewestHeard(s) && History(s) && s.pc.Inferring?
    ensures History(WorkerStep(s, o))
  {
    CallsGrow(s.submitted, s.calls, WorkerStep(s, o).calls[|s.calls|]);
  }

  lemma EmissionKeepsHistory(s: System, o: Oracle)
    requires History(s) && (s.pc.Waking? || s.pc.FinishWaking? || s.pc.Telling? || s.pc.Ending?)
    ensures History(WorkerStep(s, o))
  {
    var t := WorkerStep(s, o);
    if s.p.Delivers() {
      PhaseAfterAppend(s.events, t.events[|s.events|]);
    }
  }

  lemma OtherStepsKeepHistory(s: System, o: Oracle)
    requires !s.pc.Inferring? && !s.pc.Waking? && !s.pc.FinishWaking? && !s.pc.Telling? && !s.pc.Ending?
    ensures var t := WorkerStep(s, o);
            t.events == s.events && t.phase == s.phase && t.calls == s.calls && t.submitted == s.submitted
  {
  }

  // ---- every reachable state

  ghost predicate Good(s: System) {
    Inv(s) && Contents(s) && Utterance(s) && NewestHeard(s) && History(s)
  }

  lemma WorkerKeepsGood(s: System, o: Oracle)
    requires Good(s) && Inv(WorkerStep(s, o))
    ensures Good(WorkerStep(s, o))
  {
    hide Utterance, NewestHeard, Pcm, OrderInv, EndpointInv, CallsInv, CountInv, TurnInv, GrammarInv, ServiceInv;
    if s.pc.Idle? {
      WakeKeepsContents(s, o);
    } else if s.pc.Admitting? {
      ConsumeKeepsContents(s, o);
    } else if s.pc.Closing? || s.pc.FinishClosing? || s.pc.Retiring? || s.pc.Resetting? {
      ClearingKeepsContents(s, o);
    } else {
      QuietStepsKeepBuffers(s, o);
      QuietStepsKeepPositions(s, o);
    }
    if s.pc.Admitting? { ConsumeKeepsUtterance(s, o); } else { WorkKeepsUtterance(s, o); }
    if s.pc.Inferring? {
      InferKeepsHistory(s, o);
    } else if s.pc.Waking? || s.pc.FinishWaking? || s.pc.Telling? || s.pc.Ending? {
      EmissionKeepsHistory(s, o);
    } else {
      OtherStepsKeepHistory(s, o);
    }
  }

  lemma StepKeepsGood(s: System, step: Step)
    requires Good(s)
    ensures Good(Next(s, step))
  {
    StepKeepsInv(s, step);
    match step
    case Submit(f) =>
      SubmitKeepsContents(s, f);
      SubmitKeepsUtterance(s, f);
      SubmitKeepsHistory(s, f);
    case Work(o) => WorkerKeepsGood(s, o);
    case _ => ControlKeepsContents(s, step); ControlKeepsUtterance(s, step);
  }

  lemma {:induction false} ReachableStatesAreGood(capacity: nat, steps: seq<Step>)
    requires 1 <= capacity
    ensures Good(Run(Start(capacity), steps))
  {
    if steps != [] {
      ReachableStatesAreGood(capacity, steps[..|steps| - 1]);
      StepKeepsGood(Run(Start(capacity), steps[..|steps| - 1]), steps[|steps| - 1]);
    }
  }

  /** A call hears submission `k`. */
  predicate Hears(c: AsrCall, k: nat) {
    c.lo <= k < c.hi
  }

  /**
    Whatever the interleaving, each recognition call is given exactly the samples, up to the
    endpoint that detection or the flush named, of one contiguous run of submissions; later calls
    hear later runs, and no frame reaches two calls.
   */
  lemma {:induction false} RecognitionHearsContiguousRuns(capacity: nat, steps: seq<Step>)
    requires 1 <= capacity
    ensures var s := Run(Start(capacity), steps);
            && (forall c <- s.calls ::
                  && c.lo < c.hi <= |s.submitted| && 0 < |c.pcm| == c.endpoint <= |Pcm(s.submitted, c.lo, c.hi)|
                  && c.pcm == Pcm(s.submitted, c.lo, c.hi)[..c.endpoint])
            && (forall i, j :: 0 <= i < j < |s.calls| ==> s.calls[i].hi <= s.calls[j].lo)
            && (forall i, j, k: nat :: 0 <= i < |s.calls| && 0 <= j < |s.calls| && Hears(s.calls[i], k) && Hears(s.calls[j], k)
                  ==> i == j)
  {
    ReachableStatesAreGood(capacity, steps);
    var s := Run(Start(capacity), steps);
    forall c <- s.calls
      ensures && c.lo < c.hi <= |s.submitted| && 0 < |c.pcm| == c.endpoint <= |Pcm(s.submitted, c.lo, c.hi)|
              && c.pcm == Pcm(s.submitted, c.lo, c.hi)[..c.endpoint]
    {
      assert CallInv(s.submitted, c);
    }
  }

  /**
    The events of every run split into closed turns and at most one open turn. Until shutdown a
    turn is open exactly when its wake has been reported and its terminal event has not.
   */
  lemma EventsFormTurns(capacity: nat, steps: seq<Step>) returns (turns: seq<seq<Event>>, tail: seq<Event>)
    requires 1 <= capacity
    ensures var s := Run(Start(capacity), steps);
            && SplitsInto(s.events, turns, tail)
            && (!s.p.stopping ==> (tail != [] <==> s.p.turn.wakeSent && !s.pc.Resetting?))
  {
    ReachableStatesAreGood(capacity, steps);
    turns, tail := AcceptedRunsSplitIntoTurns(Run(Start(capacity), steps).events);
  }

  /** An armed worker refuses a frame for its size alone: the buffer always has room for a well-sized one. */
  lemma {:induction false} BufferBoundNeverRefuses(capacity: nat, steps: seq<Step>)
    requires 1 <= capacity
    ensures var s := Run(Start(capacity), steps);
            s.pc.Admitting? && s.p.IsArmed() ==> (s.p.Admit(s.pc.f).CopyFrame(s.pc.f).1 <==> WellSized(s.pc.f))
  {
    ReachableStatesAreGood(capacity, steps);
    var s := Run(Start(capacity), steps);
    if s.pc.Admitting? && s.p.IsArmed() {
      assert |s.p.pcm| <= FRAME_SAMPLES * (s.p.capacity - 1);
    }
  }

  /**
    Until a stop is requested an idle worker is armed unless an overflow waits to be reported, and
    neither the fall-through to a default frame nor the duplicate-finish branch is ever taken.
   */
  lemma {:induction false} IdleWorkerIsReady(capacity: nat, steps: seq<Step>)
    requires 1 <= capacity
    ensures var s := Run(Start(capacity), steps);
            s.pc.Idle? && !s.p.stopRequested ==>
              && (s.p.armed <==> !s.p.overflow.pending)
              && (s.p.TakeWork().1.Process? ==> s.p.queue != [])
              && (s.p.TakeWork().1.FinishUtterance? ==> s.p.finish.requested && !s.p.finish.handled)
  {
    ReachableStatesAreGood(capacity, steps);
  }

  function Undisturbed(s: System, o: Oracle, steps: nat): System {
    if steps == 0 then s else WorkerStep(Undisturbed(s, o, steps - 1), o)
  }

  lemma {:induction false} ServingAnOverflow(s: System, o: Oracle)
    requires s.pc.Idle? && s.p.overflow.pending && s.p.overflow.quarantined && !s.p.overflow.failureEmitted
    requires !s.p.stopping && s.p.hasSink
    ensures var t := Undisturbed(s, o, 6);
            && t.pc.Idle? && t.p.armed && !t.p.overflow.quarantined
            && t.events == s.events + [FrameEvent(Failure, s.p.overflow.frame, s.scope)]
  {
    var f := s.p.overflow.frame;
    var s1 := s.(pc := Claiming(f));
    assert Undisturbed(s, o, 1) == s1;
    var s2 := s1.(p := s1.p.ClaimOverflow(f).0, pc := Retiring(Failure, f));
    assert Undisturbed(s, o, 2) == s2;
    var s3 := s2.(p := s2.p.Retire(), next := |s2.submitted|, pc := Reporting(Failure, f));
    assert Undisturbed(s, o, 3) == s3;
    var s4 := s3.(pc := Ending(FrameEvent(Failure, f, s.scope)));
    assert Undisturbed(s, o, 4) == s4;
    assert Undisturbed(s, o, 5) == Emit(s4, s4.pc.e).(pc := Resetting);
  }

  /**
    In every run, until a stop is requested, an idle worker left to itself answers a waiting
    overflow with exactly one event, a failure that names the refused frame, and rearms.
   */
  lemma {:induction false} OverflowIsReported(capacity: nat, steps: seq<Step>, o: Oracle)
    requires 1 <= capacity
    requires var s := Run(Start(capacity), steps); s.pc.Idle? && s.p.overflow.pending && !s.p.stopRequested
    ensures var s := Run(Start(capacity), steps); var t := Undisturbed(s, o, 6);
            && t.pc.Idle? && t.p.armed && !t.p.overflow.quarantined
            && t.events == s.events + [FrameEvent(Failure, s.p.overflow.frame, s.scope)]
  {
    hide Run, Undisturbed;
    ReachableStatesAreGood(capacity, steps);
    ServingAnOverflow(Run(Start(capacity), steps), o);
  }
}

/**
  Every interleaving of the recognizer's threads: producers, the finisher, the shutdown caller,
  the owner of the active turn scope and the worker. The worker's program counter names the
  critical section or atomic access it is about to execute; between two of them any other
  thread may run. Voice activity detection, recognition and text normalisation are arbitrary.
 */
module SenseVoiceRuns {
  import opened Wrappers
  import opened SenseVoiceState
  import opened SpeechEvents

  datatype Decision = Silence | Speech | Endpoint

  datatype VadResult = VadResult(decision: Decision, endpoint: nat)

  /** What the adapters answer: the flush is `None` unless it names a unique endpoint. */
  datatype Oracle = Oracle(vad: VadResult, flush: Option<nat>, recognized: bool)

  datatype Pc =
    | Idle
    | Exited
    | Admitting(f: Frame)               // consume: about to check that the turn is armed
    | Listening(f: Frame)               // the frame is buffered, detection is running
    | Deciding(f: Frame, r: VadResult)  // about to read the quarantine flag
    | Waking(f: Frame, r: VadResult)
    | Speaking(f: Frame, r: VadResult)  // about to read the stop flag
    | Scoping(f: Frame, r: VadResult)   // about to read the active scope
    | Telling(f: Frame, scope: nat)
    | Closing(f: Frame, r: VadResult)
    | Claiming(f: Frame)
    | Retiring(kind: EventKind, f: Frame)
    | Reporting(kind: EventKind, f: Frame)
    | Ending(e: Event)
    | Resetting
    | Inferring(f: Frame)
    | Finishing
    | FinishReading
    | Flushing(f: Frame)
    | FinishClosing(f: Frame, endpoint: nat)
    | FinishWaking(f: Frame)
    | FinishSpeaking(f: Frame)

  /**
    One recognition call: the submissions it draws on, the endpoint named for it, the samples it was
    given, the frame and the scope it was made for, and whether it was recognised.
   */
  datatype AsrCall = AsrCall(
    lo: nat, hi: nat, endpoint: nat, pcm: seq<Sample>, frame: Frame, scope: nat, recognized: bool)

  /**
    The object, the worker's position and the history. `phase` is the state of the grammar
    automaton after the events so far. `next` is the position in the history of
    submissions of the oldest queued frame; the utterance buffer holds submissions `lo` to `hi`.
    `named` is the endpoint that detection or the flush named when the utterance was last closed.
   */
  datatype System = System(
    p: Provider,
    pc: Pc,
    scope: nat,
    submitted: seq<Frame>,
    next: nat,
    lo: nat,
    hi: nat,
    named: nat,
    events: seq<Event>,
    phase: Phase,
    calls: seq<AsrCall>)

  datatype Step =
    | Submit(f: Frame)
    | FinishInput
    | RequestStop
    | ShutDown
    | SetScope(scope: nat)
    | Work(o: Oracle)

  function Start(capacity: nat): System {
    System(Fresh(capacity), Idle, 0, [], 0, 0, 0, 0, [], BetweenTurns, [])
  }

  function Emit(s: System, e: Event): System {
    if s.p.Delivers() then s.(events := s.events + [e], phase := Advance(s.phase, e.kind)) else s
  }

  function FrameEvent(kind: EventKind, f: Frame, scope: nat): Event {
    Event(kind, f.generation, f.sequence, scope)
  }

  function Next(s: System, step: Step): System {
    match step
    case Submit(f) =>
      var p := s.p.ProcessFrame(f);
      var submitted := s.submitted + [f];
      if s.p.stopping then s
      else if !s.p.finish.requested && |s.p.queue| == s.p.capacity
      then s.(p := p, submitted := submitted, next := |submitted|)
      else s.(p := p, submitted := submitted)
    case FinishInput => s.(p := s.p.FinishInput())
    case RequestStop => s.(p := s.p.RequestStop())
    case ShutDown =>
      // the critical section follows the stop flag on the same thread
      if s.p.stopRequested then s.(p := s.p.Shutdown(), next := |s.submitted|) else s
    case SetScope(scope) => s.(scope := scope)
    case Work(o) => WorkerStep(s, o)
  }

  function WorkerStep(s: System, o: Oracle): System {
    var p := s.p;
    match s.pc
    case Idle => Wake(s)
    case Exited => s
    case Admitting(f) => Consume(s, f)
    case Listening(f) => s.(pc := if p.IsArmed() then Deciding(f, o.vad) else Idle)
    case Deciding(f, r) => Decide(s, f, r)
    case Waking(f, r) =>
      Emit(s, FrameEvent(EventKind.Wake, f, 0)).(p := p.(turn := p.turn.(wakeSent := true)), pc := Speaking(f, r))
    case Speaking(f, r) => s.(pc := if p.stopRequested then Idle else Scoping(f, r))
    case Scoping(f, r) => ReadScope(s, f, r)
    case Telling(f, scope) => Emit(s, FrameEvent(Activity, f, scope)).(pc := Idle)
    case Closing(f, r) =>
      if r.endpoint <= |p.pcm| then
        CloseUtterance(s.(p := p.(turn := p.turn.(lastEndpoint := r.endpoint)), named := r.endpoint), r.endpoint,
                       Inferring(f))
      else s
    case Claiming(f) =>
      var (p', claimed) := p.ClaimOverflow(f);
      s.(p := p', pc := match claimed case None => Idle case Some(g) => Retiring(Failure, g))
    case Retiring(kind, f) => s.(p := p.Retire(), next := |s.submitted|, pc := Reporting(kind, f))
    case Reporting(kind, f) => s.(pc := Ending(FrameEvent(kind, f, s.scope)))
    case Ending(e) => Emit(s, e).(pc := Resetting)
    case Resetting => Reset(s)
    case Inferring(f) => Infer(s, f, o.recognized)
    case Finishing => s.(pc := if p.IsArmed() then FinishReading else Idle)
    case FinishReading =>
      var (p', last, duplicate) := p.ReadFinish();
      s.(p := p', pc := match last
                        case None => Retiring(Failure, DEFAULT_FRAME)
                        case Some(f) => if duplicate then Retiring(Failure, f) else Flushing(f))
    case Flushing(f) =>
      s.(pc := if !p.IsArmed() then Idle
               else if o.flush.Some? && EndpointAllowed(p, o.flush.value) then FinishClosing(f, o.flush.value)
               else Retiring(Failure, f))
    case FinishClosing(f, endpoint) =>
      if endpoint <= |p.pcm|
      then CloseUtterance(s.(named := endpoint), endpoint, if p.turn.wakeSent then FinishSpeaking(f) else FinishWaking(f))
      else s
    case FinishWaking(f) =>
      Emit(s, FrameEvent(EventKind.Wake, f, 0)).(p := p.(turn := p.turn.(wakeSent := true)), pc := FinishSpeaking(f))
    case FinishSpeaking(f) => s.(pc := if p.stopRequested then Idle else Inferring(f))
  }

  function Wake(s: System): System {
    var (p, work) := s.p.TakeWork();
    match work
    case Sleep => s
    case Stop => s.(pc := Exited)
    case ReportOverflow(f) => s.(pc := Claiming(f))
    case Process(f) =>
      // a frame taken from the queue, or the default frame of the fall-through
      if s.p.queue != [] then s.(p := p, pc := Admitting(f), next := s.next + 1)
      else s.(p := p, pc := Admitting(f), next := |s.submitted|)
    case FinishUtterance => s.(p := p, pc := Finishing)
  }

  function Consume(s: System, f: Frame): System {
    if !s.p.IsArmed() then s.(pc := Idle)
    else
      var (p, copied) := s.p.Admit(f).CopyFrame(f);
      if !copied then s.(p := p, pc := Retiring(Failure, f))
      else if s.lo == s.hi then s.(p := p, pc := Listening(f), lo := if 0 < s.next then s.next - 1 else 0, hi := s.next)
      else s.(p := p, pc := Listening(f), hi := s.next)
  }

  predicate EndpointAllowed(p: Provider, endpoint: nat) {
    0 < endpoint <= |p.pcm| && p.turn.lastEndpoint < endpoint
  }

  function Decide(s: System, f: Frame, r: VadResult): System {
    var p := s.p;
    s.(pc := if p.overflow.quarantined then Claiming(f)
             else if p.turn.admitted >= p.capacity then Retiring(Timeout, f)
             else if !r.decision.Endpoint? && r.endpoint != 0 then Retiring(Failure, f)
             else if r.decision.Silence? then Idle
             else if !p.turn.wakeSent then Waking(f, r)
             else Speaking(f, r))
  }

  function ReadScope(s: System, f: Frame, r: VadResult): System {
    s.(pc := if r.decision.Speech? then (if s.scope != 0 then Telling(f, s.scope) else Idle)
             else if EndpointAllowed(s.p, r.endpoint) then Closing(f, r)
             else Retiring(Failure, f))
  }

  function CloseUtterance(s: System, endpoint: nat, pc: Pc): System
    requires endpoint <= |s.p.pcm|
  {
    s.(p := s.p.FinishEndpoint(endpoint), next := |s.submitted|, pc := pc)
  }

  /** Reads the scope and calls the recognizer; the outcome is one terminal event. */
  function Infer(s: System, f: Frame, recognized: bool): System {
    var kind := if recognized && s.scope != 0 then EndpointFinal else Failure;
    s.(calls := s.calls + [AsrCall(s.lo, s.hi, s.named, s.p.pcm, f, s.scope, recognized)],
       pc := Ending(FrameEvent(kind, f, s.scope)))
  }

  function Reset(s: System): System {
    var s' := s.(p := s.p.ResetTurn(), pc := Idle);
    if s.p.stopping then s'
    else s'.(lo := s.next, hi := s.next, next := if s.p.queue == [] then |s.submitted| else s.next)
  }

  function Run(s: System, steps: seq<Step>): System {
    if steps == [] then s else Next(Run(s, steps[..|steps| - 1]), steps[|steps| - 1])
  }
}

/**
  Every interleaving of the Agent's main operations with late planner workers. A main operation
  is a program of critical sections, executed one at a time; planner workers run between any two
  of them, except that a delivery to the node needs the serial seam, which every main operation
  but shutdown holds from start to end.
 */
module AgentEngineRuns {
  import opened Wrappers
  import opened AgentEngineState

  /** What the core decides about a turn. An immediate outcome may or may not name its generation. */
  datatype Decision = Ignored | StopNow | Immediate(what: Effect, named: bool) | NeedsPlanner

  /** A turn is `denied` if it is a command whose text asks for a forbidden capability. */
  datatype Operation =
    | Turn(decision: Decision, denied: bool, offered: Option<Snapshot>)
    | ObserveSnapshot(snapshot: Snapshot)
    | Invalidate
    | Restart
    | Shutdown

  /** One critical section of a main operation. */
  datatype Section =
    | Observing(snapshot: Snapshot)
    | Bumping
    | ClearingActive
    | InvalidatingPlanner
    | Freezing(snapshot: Snapshot)
    | Admitting(snapshot: Snapshot)
    | Submitting(request: Request)
    | Undoing(request: Request)
    | Minting(kind: Kind, named: bool)
    | Delivering
    | Renewing
    | Closing
    | ClosingPlanner

  const INVALIDATE: seq<Section> := [Bumping, ClearingActive, InvalidatingPlanner]

  /** Whatever the core decided, a denied capability is tested before the decision is carried out. */
  function Reaction(decision: Decision, denied: bool, offered: Option<Snapshot>): seq<Section> {
    if decision.Ignored? then INVALIDATE + [Minting(Ordinary(Speak), true)]
    else if denied then INVALIDATE + [Minting(Ordinary(Speak), true), Delivering]
    else
      match decision
      case StopNow => [Bumping, InvalidatingPlanner, Minting(Halt, true), Delivering]
      case Immediate(what, named) => [Bumping, InvalidatingPlanner, Minting(Ordinary(what), named), Delivering]
      case _ => [Bumping, InvalidatingPlanner] + if offered.Some? then [Freezing(offered.value), Admitting(offered.value)] else []
  }

  function Program(o: Operation): seq<Section> {
    match o
    case Turn(decision, denied, offered) =>
      (if offered.Some? && !decision.Ignored? && !decision.StopNow? then [Observing(offered.value)] else [])
      + Reaction(decision, denied, offered)
    case ObserveSnapshot(snapshot) => [Observing(snapshot)]
    case Invalidate => INVALIDATE
    case Restart => INVALIDATE + [Renewing]
    case Shutdown => [Closing, Bumping, InvalidatingPlanner, ClosingPlanner]
  }

  /** What the planner answers: an outcome, or a request to read the snapshot again. */
  datatype Response = Answer(what: Effect) | ReadSnapshot

  datatype Worker =
    | Waiting(request: Request)
    | Releasing(request: Request, response: Response)
    | Answering(request: Request, response: Response)
    | Continuing(request: Request, next: Request)
    | Restoring(request: Request, next: Request)
    | Committing(request: Request, kind: Kind)
    | Handing(request: Request, lease: nat)
    | Discarding(request: Request)
    | Finished

  /** The main thread: what is left of its operation, whether that holds the seam, and the last lease it made. */
  datatype Main = Main(program: seq<Section>, seam: bool, lease: nat)

  /** A delivery the node accepted, with the engine as it was and the node's turn generation before and after. */
  datatype Delivery = Delivery(lease: nat, outcome: Outcome, e: Engine, before: nat, after: nat)

  /** What the planner answered to a request. */
  datatype Said = Said(request: Request, response: Response)

  datatype System = System(
    e: Engine,
    p: Planner,
    main: Main,
    workers: seq<Worker>,
    nextId: nat,
    submitted: seq<Request>,    // every request the planner accepted
    turnGeneration: nat,        // the node's
    deliveries: seq<Delivery>,
    answers: seq<Said>)         // every answer the planner has given

  const BEGIN := System(NEW_ENGINE, NEW_PLANNER, Main([], false, 0), [], 0, [], 0, [], [])

  datatype Step =
    | Begin(o: Operation)
    | Proceed
    | Work(i: nat, response: Response)

  function Next(s: System, step: Step): System {
    match step
    case Begin(o) =>
      if s.main.program != [] || (o.Shutdown? && s.e.closed) then s
      else s.(main := s.main.(program := Program(o), seam := !o.Shutdown?))
    case Proceed => if s.main.program == [] then s else MainStep(s, s.main.program[0], s.main.program[1..])
    case Work(i, response) => if i < |s.workers| then WorkerStep(s, i, s.workers[i], response) else s
  }

  function Run(steps: seq<Step>, n: nat): System
    requires n <= |steps|
  {
    if n == 0 then BEGIN else Next(Run(steps, n - 1), steps[n - 1])
  }

  function MainStep(s: System, section: Section, rest: seq<Section>): System {
    match section
    case Observing(snapshot) =>
      s.(e := s.e.Observe(snapshot),
         main := s.main.(program := if s.e.ChangedBy(snapshot) then INVALIDATE + rest else rest))
    case Bumping => s.(e := s.e.NextGeneration(), main := s.main.(program := rest))
    case ClearingActive => s.(e := s.e.ClearActive(), main := s.main.(program := rest))
    case InvalidatingPlanner => s.(p := s.p.Invalidate(s.e.generation), main := s.main.(program := rest))
    case Freezing(snapshot) => s.(e := s.e.Observe(snapshot), main := s.main.(program := rest))
    case Admitting(snapshot) =>
      if s.e.closed then s.(main := s.main.(program := [Minting(Unavailable, true), Delivering]))
      else
        var r := Request(s.nextId, s.e.generation, s.e.lifetime, snapshot, 1);
        s.(e := s.e.Admit(r), nextId := s.nextId + 1, main := s.main.(program := [Submitting(r)]))
    case Submitting(r) =>
      var (p, accepted) := s.p.Submit(r);
      if accepted
      then s.(p := p, workers := s.workers + [Waiting(r)], submitted := s.submitted + [r],
              main := s.main.(program := []))
      else s.(p := p, main := s.main.(program := [Undoing(r), Minting(Unavailable, true), Delivering]))
    case Undoing(r) => s.(e := s.e.UndoAdmit(r), main := s.main.(program := rest))
    case Minting(kind, named) =>
      s.(e := s.e.Mint(Outcome(kind, if named then s.e.generation else 0, None)),
         main := s.main.(program := rest, lease := |s.e.minted|))
    case Delivering => Deliver(s, s.main.lease).(main := s.main.(program := rest))
    case Renewing => s.(e := s.e.NewLifetime(), main := s.main.(program := rest))
    case Closing => s.(e := s.e.Close(), main := s.main.(program := rest))
    case ClosingPlanner => s.(p := s.p.Shutdown(), main := s.main.(program := rest))
  }

  /** The node takes an outcome: the lease decides, and then the turn generation rises. */
  function Deliver(s: System, lease: nat): System {
    var (e, taken) := s.e.Consume(lease);
    if !taken || |s.e.minted| <= lease then s.(e := e)
    else
      var o := s.e.minted[lease].outcome;
      var turnGeneration := if o.generation != 0 then o.generation else s.turnGeneration + 1;
      var after := if s.turnGeneration < turnGeneration then turnGeneration else s.turnGeneration;
      s.(e := e, turnGeneration := after,
         deliveries := s.deliveries + [Delivery(lease, o, s.e, s.turnGeneration, after)])
  }

  function Put(s: System, i: nat, w: Worker): System
    requires i < |s.workers|
  {
    s.(workers := s.workers[i := w])
  }

  function WorkerStep(s: System, i: nat, w: Worker, response: Response): System
    requires i < |s.workers|
  {
    match w
    case Waiting(r) =>
      if s.p.Delivers(r) then Put(s, i, Releasing(r, response)).(answers := s.answers + [Said(r, response)])
      else Put(s, i, Discarding(r))
    case Releasing(r, answer) => Put(s, i, Answering(r, answer)).(p := s.p.Release(r))
    case Answering(r, answer) =>
      if answer.Answer? then Put(s, i, Committing(r, Ordinary(answer.what)))
      else if r.round != 1 then Put(s, i, Committing(r, Ordinary(Speak)))  // a tool that may not be called again
      else
        var next := r.(id := s.nextId, round := 2);
        var (e, current) := s.e.Continue(r, next);
        if current then Put(s, i, Continuing(r, next)).(e := e, nextId := s.nextId + 1) else Put(s, i, Discarding(r))
    case Continuing(r, next) =>
      var (p, accepted) := s.p.Submit(next);
      if accepted
      then s.(p := p, workers := s.workers[i := Discarding(r)] + [Waiting(next)], submitted := s.submitted + [next])
      else Put(s, i, Restoring(r, next)).(p := p)
    case Restoring(r, next) => Put(s, i, Committing(r, Unavailable)).(e := s.e.Restore(r, next))
    case Committing(r, kind) =>
      var (e, committed) := s.e.Commit(r, Outcome(kind, r.generation, Some(r)));
      Put(s, i, if committed then Handing(r, |s.e.minted|) else Discarding(r)).(e := e)
    case Handing(r, lease) => if s.main.program != [] && s.main.seam then s else Put(Deliver(s, lease), i, Discarding(r))
    case Discarding(r) => Put(s, i, Finished).(p := s.p.Release(r))
    case Finished => s
  }
}

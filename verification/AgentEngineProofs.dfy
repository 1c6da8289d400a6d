/** The invariant of the Agent's planning protocol, preserved by every step of every thread. */
module AgentEngineProofs {
  import opened Wrappers
  import opened AgentEngineState
  import opened AgentEngineRuns

  // ---- main programs

  predicate Shape(p: seq<Section>) {
    if p == [] then true
    else
      var rest := p[1..];
      match p[0]
      case Observing(_) => (rest == [] || rest[0].Bumping?) && Shape(rest)
      case Bumping => rest != [] && (rest[0].ClearingActive? || rest[0].InvalidatingPlanner?) && Shape(rest)
      case ClearingActive => rest != [] && rest[0].InvalidatingPlanner? && Shape(rest)
      case InvalidatingPlanner =>
        (rest == [] || rest[0].Bumping? || rest[0].Minting? || rest[0].Freezing? || rest[0].Renewing?
         || rest[0].ClosingPlanner?) && Shape(rest)
      case Freezing(snapshot) => rest == [Admitting(snapshot)]
      case Undoing(_) => rest == [Minting(Unavailable, true), Delivering]
      case Minting(_, _) => rest == [] || rest == [Delivering]
      case Closing => rest == [Bumping, InvalidatingPlanner, ClosingPlanner]
      case _ => rest == []
  }

  /** Between taking a generation and using it. */
  predicate Unused(section: Section) {
    || section.ClearingActive? || section.InvalidatingPlanner? || section.Minting? || section.Freezing?
    || section.Admitting? || section.Submitting? || section.Undoing? || section.Renewing?
  }

  /** The request whose answer a worker may still turn into an outcome. */
  function Claim(w: Worker): Option<Request> {
    match w
    case Waiting(r) => Some(r)
    case Releasing(r, _) => Some(r)
    case Answering(r, _) => Some(r)
    case Continuing(_, next) => Some(next)
    case Restoring(_, next) => Some(next)
    case Committing(r, _) => Some(r)
    case _ => None
  }

  predicate Older(r: Option<Request>, g: nat) {
    r.Some? ==> r.value.generation < g
  }

  predicate NotNewer(r: Option<Request>, g: nat) {
    r.Some? ==> r.value.generation <= g
  }

  // ---- generations

  predicate Generations(s: System) {
    var g := s.e.generation;
    && s.p.generation <= g && NotNewer(s.e.active, g)
    && (forall i :: 0 <= i < |s.workers| ==> NotNewer(Claim(s.workers[i]), s.p.generation))
    && (forall i :: 0 <= i < |s.submitted| ==> s.submitted[i].generation <= s.p.generation)
    && (s.e.minted != [] ==> s.e.minted[|s.e.minted| - 1].binding.generation <= g)
    && (s.p.closed ==> s.e.closed && s.p.active == None)
  }

  /** Nothing has been done yet in the name of the newest generation. */
  predicate Untouched(s: System) {
    var g := s.e.generation;
    && (s.e.minted != [] ==> s.e.minted[|s.e.minted| - 1].binding.generation < g)
    && (forall i :: 0 <= i < |s.workers| ==> Older(Claim(s.workers[i]), g))
    && (forall i :: 0 <= i < |s.submitted| ==> s.submitted[i].generation < g)
    && s.e.leases == map[] && 0 < g
  }

  /** What the section about to run can rely on. */
  predicate Ready(s: System) {
    var p := s.main.program;
    && Shape(p)
    && (p != [] && Unused(p[0]) ==> Untouched(s) && (p[0].Submitting? || Older(s.e.active, s.e.generation)))
    && (p != [] && (p[0].ClearingActive? || p[0].InvalidatingPlanner?) ==> s.p.generation < s.e.generation)
    && (p != [] && (p[0].Freezing? || p[0].Admitting? || p[0].Submitting?) ==>
          s.p.generation == s.e.generation && s.p.active == None)
    && (p != [] && p[0].Admitting? ==> s.e.snapshot == Some(p[0].snapshot))
    && (p != [] && p[0].Submitting? ==>
          var r := p[0].request;
          !s.e.closed && s.e.active == Some(r) && r.generation == s.e.generation && r.round == 1)
    && (p != [] && p[0].Observing? ==> s.main.seam)
    && (ClosingPlanner in p ==> p[0].Closing? || s.e.closed)
  }

  // ---- workers

  predicate WorkerHolds(w: Worker, s: System) {
    && (Claim(w).Some? && !s.e.closed && Claim(w).value.generation == s.e.generation ==> s.e.active == Claim(w))
    && (Claim(w).Some? ==> 0 < Claim(w).value.generation)
    && (w.Continuing? || w.Restoring? ==>
          w.next.generation == w.request.generation && w.next.round == 2 && w.request.round == 1)
  }

  predicate Workers(s: System) {
    && (forall i :: 0 <= i < |s.workers| ==> WorkerHolds(s.workers[i], s))
    && Distinct(s.workers)
  }

  /** At most one worker speaks for a generation. */
  predicate Distinct(workers: seq<Worker>) {
    forall i, j :: 0 <= i < j < |workers| && Claim(workers[i]).Some? && Claim(workers[j]).Some? ==>
      Claim(workers[i]).value.generation != Claim(workers[j]).value.generation
  }

  /** The new position speaks for no generation but that of the old one. */
  predicate Inherits(next: Worker, was: Worker) {
    Claim(next).Some? ==> Claim(was).Some? && Claim(next).value.generation == Claim(was).value.generation
  }

  lemma InheritingStaysDistinct(workers: seq<Worker>, i: nat, w: Worker)
    requires i < |workers| && Distinct(workers) && Inherits(w, workers[i])
    ensures Distinct(workers[i := w])
  {
  }

  lemma HandoverStaysDistinct(workers: seq<Worker>, i: nat, done: Worker, w: Worker)
    requires i < |workers| && Distinct(workers) && Claim(done).None? && Inherits(w, workers[i])
    ensures Distinct(workers[i := done] + [w])
  {
  }

  predicate Occupies(w: Worker, r: Request) {
    (w.Waiting? || w.Releasing?) && w.request == r
  }

  /** The planner's slot is held by a worker that has not been answered yet. */
  predicate Slot(s: System) {
    s.p.active.Some? ==>
      && s.p.active.value.generation == s.p.generation
      && exists i :: 0 <= i < |s.workers| && Occupies(s.workers[i], s.p.active.value)
  }

  predicate Core(s: System) {
    Generations(s) && Ready(s) && Workers(s) && Slot(s)
  }

  lemma MainKeepsGenerations(s: System, section: Section, rest: seq<Section>)
    requires Core(s) && s.main.program == [section] + rest
    ensures Generations(MainStep(s, section, rest))
  {
  }

  /** Taking a generation makes it untouched. */
  lemma BumpingIsReady(s: System, rest: seq<Section>)
    requires Core(s) && s.main.program == [Bumping] + rest
    ensures Ready(MainStep(s, Bumping, rest))
  {
    assert s.main.program[1..] == rest;
  }

  /** The sections that decide what comes next by themselves. */
  predicate Forks(section: Section) {
    section.Admitting? || section.Submitting? || section.Freezing?
  }

  lemma ForksAreReady(s: System, section: Section, rest: seq<Section>)
    requires Core(s) && s.main.program == [section] + rest && Forks(section)
    ensures Ready(MainStep(s, section, rest))
  {
    assert s.main.program[1..] == rest;
  }

  lemma OtherSectionsAreReady(s: System, section: Section, rest: seq<Section>)
    requires Core(s) && s.main.program == [section] + rest && !section.Bumping? && !section.Observing?
    ensures Ready(MainStep(s, section, rest))
  {
    if Forks(section) {
      ForksAreReady(s, section, rest);
    }
    assert s.main.program[1..] == rest;
  }

  lemma ObservingIsReady(s: System, section: Section, rest: seq<Section>)
    requires Core(s) && s.main.program == [section] + rest && section.Observing?
    ensures Ready(MainStep(s, section, rest))
  {
    assert s.main.program[1..] == rest;
    InvalidationIsShaped(rest);
  }

  lemma MainKeepsReady(s: System, section: Section, rest: seq<Section>)
    requires Core(s) && s.main.program == [section] + rest
    ensures Ready(MainStep(s, section, rest))
  {
    hide MainStep, Core, Ready;
    match section
    case Bumping => BumpingIsReady(s, rest);
    case Observing(_) => ObservingIsReady(s, section, rest);
    case _ => OtherSectionsAreReady(s, section, rest);
  }

  lemma MainKeepsWorkers(s: System, section: Section, rest: seq<Section>)
    requires Core(s) && s.main.program == [section] + rest
    ensures Workers(MainStep(s, section, rest))
  {
  }

  lemma MainKeepsSlot(s: System, section: Section, rest: seq<Section>)
    requires Core(s) && s.main.program == [section] + rest
    ensures Slot(MainStep(s, section, rest))
  {
    var t := MainStep(s, section, rest);
    if t.p.active.Some? {
      if s.p.active.Some? {
        var i :| 0 <= i < |s.workers| && Occupies(s.workers[i], s.p.active.value);
        assert Occupies(t.workers[i], t.p.active.value);
      } else {
        assert Occupies(t.workers[|s.workers|], t.p.active.value);
      }
    }
  }

  predicate Advances(w: Worker) {
    w.Waiting? || w.Releasing? || w.Handing? || w.Discarding? || w.Finished?
  }

  /** A worker that merely moves on changes neither the active request nor any claim but its own. */
  lemma AdvancingKeepsReady(s: System, i: nat, response: Response)
    requires Core(s) && i < |s.workers| && Advances(s.workers[i])
    ensures Ready(WorkerStep(s, i, s.workers[i], response))
  {
  }

  lemma AdvancingKeepsWorkers(s: System, i: nat, response: Response)
    requires Core(s) && i < |s.workers| && Advances(s.workers[i])
    ensures var t := WorkerStep(s, i, s.workers[i], response); Generations(t) && Workers(t)
  {
    hide Ready, Slot, Distinct;
    var t := WorkerStep(s, i, s.workers[i], response);
    InheritingStaysDistinct(s.workers, i, t.workers[i]);
  }

  lemma AdvancingKeeps(s: System, i: nat, response: Response)
    requires Core(s) && i < |s.workers| && Advances(s.workers[i])
    ensures var t := WorkerStep(s, i, s.workers[i], response); Generations(t) && Ready(t) && Workers(t)
  {
    hide WorkerStep, Core;
    AdvancingKeepsReady(s, i, response);
    AdvancingKeepsWorkers(s, i, response);
  }

  lemma AnsweringKeepsReady(s: System, i: nat, response: Response)
    requires Core(s) && i < |s.workers| && s.workers[i].Answering?
    ensures Ready(WorkerStep(s, i, s.workers[i], response))
  {
  }

  lemma AnsweringKeepsWorkers(s: System, i: nat, response: Response)
    requires Core(s) && i < |s.workers| && s.workers[i].Answering?
    ensures var t := WorkerStep(s, i, s.workers[i], response); Generations(t) && Workers(t)
  {
    hide Ready, Slot;
    var t := WorkerStep(s, i, s.workers[i], response);
    InheritingStaysDistinct(s.workers, i, t.workers[i]);
  }

  lemma AnsweringKeeps(s: System, i: nat, response: Response)
    requires Core(s) && i < |s.workers| && s.workers[i].Answering?
    ensures var t := WorkerStep(s, i, s.workers[i], response); Generations(t) && Ready(t) && Workers(t)
  {
    hide WorkerStep, Core;
    AnsweringKeepsReady(s, i, response);
    AnsweringKeepsWorkers(s, i, response);
  }

  lemma ContinuingKeeps(s: System, i: nat, response: Response)
    requires Core(s) && i < |s.workers| && s.workers[i].Continuing?
    ensures var t := WorkerStep(s, i, s.workers[i], response); Generations(t) && Ready(t) && Workers(t)
  {
    var t := WorkerStep(s, i, s.workers[i], response);
    if s.p.Submit(s.workers[i].next).1 {
      HandoverStaysDistinct(s.workers, i, t.workers[i], t.workers[|s.workers|]);
    } else {
      InheritingStaysDistinct(s.workers, i, t.workers[i]);
    }
  }

  lemma SettlingKeeps(s: System, i: nat, response: Response)
    requires Core(s) && i < |s.workers| && (s.workers[i].Restoring? || s.workers[i].Committing?)
    ensures var t := WorkerStep(s, i, s.workers[i], response); Generations(t) && Ready(t) && Workers(t)
  {
    var t := WorkerStep(s, i, s.workers[i], response);
    InheritingStaysDistinct(s.workers, i, t.workers[i]);
  }

  lemma WorkerKeepsSlot(s: System, i: nat, response: Response)
    requires Core(s) && i < |s.workers|
    ensures Slot(WorkerStep(s, i, s.workers[i], response))
  {
    var t := WorkerStep(s, i, s.workers[i], response);
    if t.p.active.Some? {
      if s.p.active.Some? {
        var j :| 0 <= j < |s.workers| && Occupies(s.workers[j], s.p.active.value);
        assert Occupies(t.workers[j], t.p.active.value);
      } else {
        assert Occupies(t.workers[|s.workers|], t.p.active.value);
      }
    }
  }

  lemma {:induction false} InvalidationIsShaped(rest: seq<Section>)
    requires Shape(rest)
    requires rest == [] || rest[0].Bumping? || rest[0].Minting? || rest[0].Freezing? || rest[0].Renewing?
    ensures Shape([Bumping, InvalidatingPlanner] + rest) && Shape(INVALIDATE + rest)
  {
    var invalidating := [InvalidatingPlanner] + rest;
    assert invalidating[1..] == rest;
    assert ([Bumping, InvalidatingPlanner] + rest)[1..] == invalidating;
    assert ([ClearingActive] + invalidating)[1..] == invalidating;
    assert (INVALIDATE + rest)[1..] == [ClearingActive] + invalidating;
  }

  lemma ReactionsAreShaped(decision: Decision, denied: bool, offered: Option<Snapshot>)
    ensures var p := Reaction(decision, denied, offered);
            Shape(p) && p != [] && p[0].Bumping? && ClosingPlanner !in p
  {
    var kind := if decision.StopNow? then Halt else if decision.Immediate? then Ordinary(decision.what) else Ordinary(Speak);
    var named := decision.Immediate? ==> decision.named;
    if decision.Ignored? {
      InvalidationIsShaped([Minting(Ordinary(Speak), true)]);
    } else if denied {
      assert [Minting(Ordinary(Speak), true), Delivering][1..] == [Delivering];
      InvalidationIsShaped([Minting(Ordinary(Speak), true), Delivering]);
    } else if decision.NeedsPlanner? {
      assert offered.Some? ==> [Freezing(offered.value), Admitting(offered.value)][1..] == [Admitting(offered.value)];
      InvalidationIsShaped(if offered.Some? then [Freezing(offered.value), Admitting(offered.value)] else []);
    } else {
      assert [Minting(kind, named), Delivering][1..] == [Delivering];
      InvalidationIsShaped([Minting(kind, named), Delivering]);
      assert Reaction(decision, denied, offered) == [Bumping, InvalidatingPlanner] + [Minting(kind, named), Delivering];
    }
  }

  lemma ProgramsAreShaped(o: Operation)
    ensures Shape(Program(o))
    ensures Program(o) != [] ==>
              && (Program(o)[0].Observing? || Program(o)[0].Bumping? || Program(o)[0].Closing?)
              && (ClosingPlanner in Program(o) ==> o.Shutdown? && Program(o)[0].Closing?)
  {
    match o
    case Turn(decision, denied, offered) =>
      var reaction := Reaction(decision, denied, offered);
      ReactionsAreShaped(decision, denied, offered);
      if offered.Some? && !decision.Ignored? && !decision.StopNow? {
        assert ([Observing(offered.value)] + reaction)[1..] == reaction && Program(o) == [Observing(offered.value)] + reaction;
      } else {
        assert Program(o) == reaction;
      }
    case ObserveSnapshot(_) =>
    case Invalidate => InvalidationIsShaped([]);
      assert INVALIDATE + [] == INVALIDATE;
    case Restart =>
      assert Shape([Renewing]);
      InvalidationIsShaped([Renewing]);
    case Shutdown =>
  }

  lemma CoreKept(s: System, step: Step)
    requires Core(s)
    ensures Core(Next(s, step))
  {
    hide MainStep, WorkerStep;
    match step
    case Begin(o) => ProgramsAreShaped(o);
    case Proceed =>
      if s.main.program != [] {
        var section, rest := s.main.program[0], s.main.program[1..];
        assert s.main.program == [section] + rest;
        MainKeepsGenerations(s, section, rest);
        MainKeepsReady(s, section, rest);
        MainKeepsWorkers(s, section, rest);
        MainKeepsSlot(s, section, rest);
      }
    case Work(i, response) =>
      if i < |s.workers| {
        WorkerKeepsSlot(s, i, response);
        match s.workers[i] {
          case Answering(_, _) => AnsweringKeeps(s, i, response);
          case Continuing(_, _) => ContinuingKeeps(s, i, response);
          case Restoring(_, _) => SettlingKeeps(s, i, response);
          case Committing(_, _) => SettlingKeeps(s, i, response);
          case _ => AdvancingKeeps(s, i, response);
        }
      }
  }
}

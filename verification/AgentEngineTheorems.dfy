/**
  What every interleaving of turns, snapshots, restarts, shutdown and late planner callbacks
  guarantees about leases, deliveries and planner rounds.
 */
module AgentEngineTheorems {
  import opened Wrappers
  import opened AgentEngineState
  import opened AgentEngineRuns
  import opened AgentEngineProofs

  // ---- leases

  predicate Named(l: Lease) {
    && 0 < l.binding.generation
    && (l.outcome.generation == 0 || l.outcome.generation == l.binding.generation)
    && (l.outcome.request.Some? ==>
          l.outcome.request.value.generation == l.binding.generation == l.outcome.generation
          && l.outcome.request.value.lifetime == l.binding.lifetime)
  }

  /** At most one lease per generation, and only the newest generation's can be outstanding. */
  predicate Leases(e: Engine) {
    && (forall i, j :: 0 <= i < j < |e.minted| ==> e.minted[i].binding.generation < e.minted[j].binding.generation)
    && (forall i :: 0 <= i < |e.minted| ==> e.minted[i].binding.generation <= e.generation && Named(e.minted[i]))
    && (forall l :: l in e.leases ==>
          l < |e.minted| && e.leases[l] == e.minted[l].binding == Binding(e.lifetime, e.generation))
  }

  predicate Spent(e: Engine) {
    e.minted != [] && e.minted[|e.minted| - 1].binding.generation == e.generation
  }

  lemma MintKeeps(e: Engine, o: Outcome)
    requires Leases(e) && !Spent(e) && 0 < e.generation && (o.generation == 0 || o.generation == e.generation)
    requires o.request.Some? ==>
               o.request.value.generation == e.generation == o.generation && o.request.value.lifetime == e.lifetime
    ensures Leases(e.Mint(o))
  {
    if e.minted != [] {
      assert e.minted[|e.minted| - 1].binding.generation < e.generation;
    }
  }

  /** An active request of the newest generation has nothing to compete with. */
  predicate Unspent(e: Engine) {
    !e.closed && e.active.Some? && e.active.value.generation == e.generation ==> !Spent(e)
  }

  /**
    A planner outcome is outstanding only under the snapshot it was asked with, unless its generation is
    about to go.
   */
  predicate Grounded(s: System) {
    && (forall l :: l in s.e.leases && l < |s.e.minted| ==> GroundedLease(s.e, s.e.minted[l]) || AboutToBump(s.main))
    && (s.main.program != [] && s.main.program[0].Delivering? ==>
          s.main.lease < |s.e.minted| && s.e.minted[s.main.lease].outcome.request.None?)
  }

  predicate GroundedLease(e: Engine, l: Lease) {
    l.outcome.request.Some? ==> e.snapshot == Some(l.outcome.request.value.snapshot)
  }

  predicate AboutToBump(m: Main) {
    m.program != [] && m.program[0].Bumping? && m.seam
  }

  predicate LeaseInv(s: System) {
    Leases(s.e) && Unspent(s.e) && Grounded(s)
  }

  /** Nothing minted, nothing renewed; leases may only have gone. */
  predicate FewerLeases(e: Engine, f: Engine) {
    && f.minted == e.minted && f.generation == e.generation && f.lifetime == e.lifetime && f.snapshot == e.snapshot
    && (forall l :: l in f.leases ==> l in e.leases && f.leases[l] == e.leases[l])
  }

  lemma FewerLeasesKeep(s: System, t: System)
    requires Leases(s.e) && Grounded(s) && FewerLeases(s.e, t.e)
    requires t.main == s.main || (t.main.seam == s.main.seam && t.main.lease == s.main.lease && !AboutToBump(s.main)
                                  && (t.main.program != [] ==> !t.main.program[0].Delivering?))
    ensures Leases(t.e) && Grounded(t)
  {
  }

  lemma MintingKeeps(s: System, section: Section, rest: seq<Section>)
    requires Core(s) && LeaseInv(s) && s.main.program == [section] + rest && section.Minting?
    ensures LeaseInv(MainStep(s, section, rest))
  {
    MintKeeps(s.e, Outcome(section.kind, if section.named then s.e.generation else 0, None));
  }

  lemma RenewingKeeps(s: System, rest: seq<Section>)
    requires Core(s) && LeaseInv(s) && s.main.program == [Renewing] + rest
    ensures LeaseInv(MainStep(s, Renewing, rest))
  {
    assert s.main.program[1..] == rest;
    hide Workers, Generations;
  }

  lemma BumpingKeeps(s: System, rest: seq<Section>)
    requires Core(s) && LeaseInv(s) && s.main.program == [Bumping] + rest
    ensures LeaseInv(MainStep(s, Bumping, rest))
  {
    assert s.main.program[1..] == rest;
    hide Workers, Untouched;
  }

  lemma AdmittingKeeps(s: System, section: Section, rest: seq<Section>)
    requires Core(s) && LeaseInv(s) && s.main.program == [section] + rest && (section.Freezing? || section.Admitting?)
    ensures LeaseInv(MainStep(s, section, rest))
  {
    assert s.main.program[1..] == rest;
    hide Workers, Generations;
  }

  lemma ObservingKeeps(s: System, section: Section, rest: seq<Section>)
    requires Core(s) && LeaseInv(s) && s.main.program == [section] + rest && section.Observing?
    ensures LeaseInv(MainStep(s, section, rest))
  {
    assert s.main.program[1..] == rest;
    hide Workers, Generations, Untouched, Named;
  }

  lemma PlainSectionKeeps(s: System, section: Section, rest: seq<Section>)
    requires Core(s) && LeaseInv(s) && s.main.program == [section] + rest && !section.Minting?
    requires !section.Renewing? && !section.Bumping? && !section.Freezing? && !section.Admitting?
      && !section.Observing?
    ensures LeaseInv(MainStep(s, section, rest))
  {
    assert s.main.program[1..] == rest;
    hide Generations, Workers, Slot, Untouched, Named;
    var t := MainStep(s, section, rest);
    assert FewerLeases(s.e, t.e);
    assert Unspent(t.e);
    FewerLeasesKeep(s, t);
  }

  lemma CommittingKeeps(s: System, i: nat, response: Response)
    requires Core(s) && LeaseInv(s) && i < |s.workers| && s.workers[i].Committing?
    ensures LeaseInv(WorkerStep(s, i, s.workers[i], response))
  {
    var r, kind := s.workers[i].request, s.workers[i].kind;
    if s.e.Current(r) {
      assert WorkerHolds(s.workers[i], s);
      MintKeeps(s.e.(active := None), Outcome(kind, r.generation, Some(r)));
    }
  }

  lemma OtherWorkerKeeps(s: System, i: nat, response: Response)
    requires Core(s) && LeaseInv(s) && i < |s.workers| && !s.workers[i].Committing?
    ensures LeaseInv(WorkerStep(s, i, s.workers[i], response))
  {
    hide Unspent, Leases, Grounded, Core;
    WorkerOnlyTakes(s, i, response);
    WorkerStaysUnspent(s, i, response);
    FewerLeasesKeep(s, WorkerStep(s, i, s.workers[i], response));
  }

  lemma WorkerOnlyTakes(s: System, i: nat, response: Response)
    requires i < |s.workers| && !s.workers[i].Committing?
    ensures var t := WorkerStep(s, i, s.workers[i], response); FewerLeases(s.e, t.e) && t.main == s.main
  {
  }

  lemma WorkerStaysUnspent(s: System, i: nat, response: Response)
    requires Core(s) && Unspent(s.e) && i < |s.workers| && !s.workers[i].Committing?
    ensures Unspent(WorkerStep(s, i, s.workers[i], response).e)
  {
    assert WorkerHolds(s.workers[i], s);
  }

  lemma LeasesKept(s: System, step: Step)
    requires Core(s) && LeaseInv(s)
    ensures LeaseInv(Next(s, step))
  {
    hide MainStep, WorkerStep, Core;
    match step
    case Begin(o) => ProgramsAreShaped(o);
    case Proceed =>
      if s.main.program != [] {
        var section, rest := s.main.program[0], s.main.program[1..];
        assert s.main.program == [section] + rest;
        match section {
          case Minting(_, _) => MintingKeeps(s, section, rest);
          case Renewing => RenewingKeeps(s, rest);
          case Bumping => BumpingKeeps(s, rest);
          case Freezing(_) => AdmittingKeeps(s, section, rest);
          case Admitting(_) => AdmittingKeeps(s, section, rest);
          case Observing(_) => ObservingKeeps(s, section, rest);
          case _ => PlainSectionKeeps(s, section, rest);
        }
      }
    case Work(i, response) =>
      if i < |s.workers| {
        if s.workers[i].Committing? { CommittingKeeps(s, i, response); } else { OtherWorkerKeeps(s, i, response); }
      }
  }

  // ---- deliveries

  /** The lease was the newest generation's, its planner request is still grounded, and the node's generation rose. */
  predicate DeliveryHolds(d: Delivery, minted: seq<Lease>) {
    && d.lease < |minted| && d.outcome == minted[d.lease].outcome
    && d.e.generation == minted[d.lease].binding.generation && !d.e.closed
    && d.before < d.after <= d.e.generation
    && (d.outcome.request.Some? ==>
          var r := d.outcome.request.value;
          r.generation == d.e.generation && r.lifetime == d.e.lifetime && d.e.snapshot == Some(r.snapshot))
  }

  predicate Deliveries(s: System) {
    var n := |s.deliveries|;
    && (forall i :: 0 <= i < n ==> DeliveryHolds(s.deliveries[i], s.e.minted))
    && (forall i, j :: 0 <= i < j < n ==> s.deliveries[i].lease < s.deliveries[j].lease)
    && (forall i :: 0 < i < n ==> s.deliveries[i].before == s.deliveries[i - 1].after)
    && s.turnGeneration == (if n == 0 then 0 else s.deliveries[n - 1].after)
    && (forall l :: l in s.e.leases && 0 < n ==> s.deliveries[n - 1].lease < l)
  }

  lemma DeliverKeeps(s: System, lease: nat)
    requires Leases(s.e) && Deliveries(s)
    requires lease in s.e.leases && lease < |s.e.minted| ==> GroundedLease(s.e, s.e.minted[lease])
    ensures Deliveries(Deliver(s, lease))
  {
    var t := Deliver(s, lease);
    if s.e.Consume(lease).1 {
      var l := s.e.minted[lease];
      assert Named(l) && l.binding.generation == s.e.generation;
      if s.deliveries != [] {
        var last := s.deliveries[|s.deliveries| - 1];
        assert DeliveryHolds(last, s.e.minted);
        assert s.e.minted[last.lease].binding.generation < s.e.minted[lease].binding.generation;
      }
      assert DeliveryHolds(t.deliveries[|s.deliveries|], t.e.minted);
      forall k | k in s.e.leases ensures k == lease { OneLease(s.e, k, lease); }
    }
  }

  lemma OneLease(e: Engine, k: nat, l: nat)
    requires Leases(e) && k in e.leases && l in e.leases
    ensures k == l
  {
    assert e.minted[k].binding.generation == e.generation == e.minted[l].binding.generation;
  }

  /** Leases may be added at the end, or go; deliveries stand. */
  lemma DeliveriesStand(s: System, t: System)
    requires Leases(s.e) && Deliveries(s) && t.deliveries == s.deliveries && t.turnGeneration == s.turnGeneration
    requires t.e.minted == s.e.minted || (|t.e.minted| == |s.e.minted| + 1 && t.e.minted[..|s.e.minted|] == s.e.minted)
    requires forall l :: l in t.e.leases ==> l in s.e.leases || l == |s.e.minted|
    ensures Deliveries(t)
  {
    forall i | 0 <= i < |t.deliveries| ensures DeliveryHolds(t.deliveries[i], t.e.minted) {
      assert DeliveryHolds(s.deliveries[i], s.e.minted);
    }
  }

  lemma MainDeliveries(s: System, section: Section, rest: seq<Section>)
    requires LeaseInv(s) && Deliveries(s) && s.main.program == [section] + rest
    ensures Deliveries(MainStep(s, section, rest))
  {
    if section.Delivering? {
      DeliverKeeps(s, s.main.lease);
    } else {
      DeliveriesStand(s, MainStep(s, section, rest));
    }
  }

  lemma CommittingDeliveries(s: System, i: nat, response: Response)
    requires LeaseInv(s) && Deliveries(s) && i < |s.workers| && s.workers[i].Committing?
    ensures Deliveries(WorkerStep(s, i, s.workers[i], response))
  {
    hide Deliveries;
    DeliveriesStand(s, WorkerStep(s, i, s.workers[i], response));
  }

  lemma HandingDeliveries(s: System, i: nat, response: Response)
    requires LeaseInv(s) && Deliveries(s) && i < |s.workers| && s.workers[i].Handing?
    ensures Deliveries(WorkerStep(s, i, s.workers[i], response))
  {
    hide Deliver;
    if s.main.program == [] || !s.main.seam {
      DeliverKeeps(s, s.workers[i].lease);
    }
  }

  lemma OtherDeliveries(s: System, i: nat, response: Response)
    requires LeaseInv(s) && Deliveries(s) && i < |s.workers| && !s.workers[i].Committing? && !s.workers[i].Handing?
    ensures Deliveries(WorkerStep(s, i, s.workers[i], response))
  {
    hide Deliveries;
    DeliveriesStand(s, WorkerStep(s, i, s.workers[i], response));
  }

  // ---- rounds

  /** The worker has yet to ask for its second round. */
  predicate FirstRound(w: Worker) {
    w.Continuing? || ((w.Waiting? || w.Releasing? || w.Answering?) && w.request.round == 1)
  }

  /** The planner has been asked at most twice in the name of one generation: a first round, then a second. */
  predicate Rounds(s: System) {
    && (forall i, j :: 0 <= i < j < |s.submitted| && s.submitted[i].generation == s.submitted[j].generation ==>
          s.submitted[i].round == 1 && s.submitted[j].round == 2)
    && (forall i, k :: 0 <= i < |s.workers| && 0 <= k < |s.submitted| && FirstRound(s.workers[i]) ==>
          (s.submitted[k].generation == s.workers[i].request.generation ==> s.submitted[k].round == 1))
  }

  lemma MainRounds(s: System, section: Section, rest: seq<Section>)
    requires Core(s) && Rounds(s) && s.main.program == [section] + rest
    ensures Rounds(MainStep(s, section, rest))
  {
  }

  lemma ContinuingRounds(s: System, i: nat, response: Response)
    requires Core(s) && Rounds(s) && i < |s.workers| && s.workers[i].Continuing?
    ensures Rounds(WorkerStep(s, i, s.workers[i], response))
  {
    assert WorkerHolds(s.workers[i], s);
  }

  lemma OtherRounds(s: System, i: nat, response: Response)
    requires Rounds(s) && i < |s.workers| && !s.workers[i].Continuing?
    ensures Rounds(WorkerStep(s, i, s.workers[i], response))
  {
  }

  lemma WorkerRounds(s: System, i: nat, response: Response)
    requires Core(s) && Rounds(s) && i < |s.workers|
    ensures Rounds(WorkerStep(s, i, s.workers[i], response))
  {
    hide Core, Rounds, WorkerStep;
    if s.workers[i].Continuing? { ContinuingRounds(s, i, response); } else { OtherRounds(s, i, response); }
  }

  // ---- the planner is never unavailable

  /** An outcome saying that the planner is unavailable comes of shutdown or is overtaken. */
  predicate Overtaken(w: Worker, s: System) {
    w.Restoring? || (w.Committing? && w.kind.Unavailable?) ==> s.e.closed || w.request.generation < s.e.generation
  }

  predicate Available(s: System) {
    && (forall i :: 0 <= i < |s.e.minted| && s.e.minted[i].outcome.kind.Unavailable? ==> s.e.closed)
    && (forall i :: 0 <= i < |s.workers| ==> Overtaken(s.workers[i], s))
    && (s.main.program != [] ==> !s.main.program[0].Undoing?)
    && (forall i :: 0 <= i < |s.main.program| && s.main.program[i].Minting? && s.main.program[i].kind.Unavailable? ==> s.e.closed)
  }

  lemma MainAvailable(s: System, section: Section, rest: seq<Section>)
    requires Core(s) && Available(s) && s.main.program == [section] + rest
    ensures Available(MainStep(s, section, rest))
  {
    assert s.main.program[1..] == rest;
  }

  /** While a worker asks for its second round, nothing of its generation holds the planner's slot. */
  lemma SlotIsNotOurs(s: System, i: nat)
    requires Core(s) && i < |s.workers| && s.workers[i].Continuing?
    ensures s.p.active.Some? ==> s.p.active.value.generation != s.workers[i].next.generation
  {
    if s.p.active.Some? {
      var j :| 0 <= j < |s.workers| && Occupies(s.workers[j], s.p.active.value);
      assert Claim(s.workers[j]) == Some(s.p.active.value);
    }
  }

  /** A refused second round has been overtaken. */
  lemma RefusalMeansOvertaken(s: System, i: nat)
    requires Core(s) && i < |s.workers| && s.workers[i].Continuing? && !s.p.Submit(s.workers[i].next).1
    ensures s.e.closed || s.workers[i].request.generation < s.e.generation
  {
    assert WorkerHolds(s.workers[i], s);
    SlotIsNotOurs(s, i);
  }

  /** Steps that leave the engine's leases and age alone: only the worker's own position matters. */
  lemma PositionAvailable(s: System, t: System)
    requires Available(s) && t.main.program == s.main.program
    requires t.e.closed == s.e.closed && t.e.generation == s.e.generation && t.e.minted == s.e.minted
    requires forall k :: 0 <= k < |t.workers| ==> Overtaken(t.workers[k], s)
    ensures Available(t)
  {
  }

  lemma CommittingAvailable(s: System, i: nat, response: Response)
    requires Core(s) && Available(s) && i < |s.workers| && s.workers[i].Committing?
    ensures Available(WorkerStep(s, i, s.workers[i], response))
  {
    assert WorkerHolds(s.workers[i], s) && Overtaken(s.workers[i], s);
    hide Core;
  }

  lemma WorkerAvailable(s: System, i: nat, response: Response)
    requires Core(s) && Available(s) && i < |s.workers|
    ensures Available(WorkerStep(s, i, s.workers[i], response))
  {
    hide WorkerStep, Core, Available;
    if s.workers[i].Committing? {
      CommittingAvailable(s, i, response);
    } else {
      if s.workers[i].Continuing? && !s.p.Submit(s.workers[i].next).1 {
        RefusalMeansOvertaken(s, i);
      }
      MovingAvailable(s, i, response);
    }
  }

  lemma MovingAvailable(s: System, i: nat, response: Response)
    requires Available(s) && i < |s.workers| && !s.workers[i].Committing?
    requires s.workers[i].Continuing? && !s.p.Submit(s.workers[i].next).1 ==>
               s.e.closed || s.workers[i].request.generation < s.e.generation
    ensures Available(WorkerStep(s, i, s.workers[i], response))
  {
    var t := WorkerStep(s, i, s.workers[i], response);
    assert Overtaken(s.workers[i], s);
    forall k | 0 <= k < |t.workers| ensures Overtaken(t.workers[k], s) {
      if k < |s.workers| { assert Overtaken(s.workers[k], s); }
    }
    PositionAvailable(s, t);
  }

  // ---- every run

  predicate Inv(s: System) {
    Core(s) && LeaseInv(s) && Deliveries(s) && Rounds(s) && Available(s)
  }

  lemma ProceedKeeps(s: System, section: Section, rest: seq<Section>)
    requires Inv(s) && s.main.program == [section] + rest
    ensures Deliveries(MainStep(s, section, rest)) && Rounds(MainStep(s, section, rest))
            && Available(MainStep(s, section, rest))
  {
    hide MainStep, Core, LeaseInv, Deliveries, Rounds, Available;
    MainDeliveries(s, section, rest);
    MainRounds(s, section, rest);
    MainAvailable(s, section, rest);
  }

  lemma WorkKeeps(s: System, i: nat, response: Response)
    requires Inv(s) && i < |s.workers|
    ensures var t := WorkerStep(s, i, s.workers[i], response); Deliveries(t) && Rounds(t) && Available(t)
  {
    hide WorkerStep, Core, LeaseInv, Deliveries, Rounds, Available;
    WorkerRounds(s, i, response);
    WorkerAvailable(s, i, response);
    if s.workers[i].Committing? {
      CommittingDeliveries(s, i, response);
    } else if s.workers[i].Handing? {
      HandingDeliveries(s, i, response);
    } else {
      OtherDeliveries(s, i, response);
    }
  }

  lemma BeginKeeps(s: System, o: Operation)
    requires Inv(s)
    ensures var t := Next(s, Begin(o)); Deliveries(t) && Rounds(t) && Available(t)
  {
    hide Core, LeaseInv, Shape, Program, Deliveries, Rounds;
    ProgramsAreShaped(o);
    ProgramsDoNotGiveUp(o);
    MainProgramIsNoMatter(s, Next(s, Begin(o)).main);
  }

  lemma MainProgramIsNoMatter(s: System, m: Main)
    requires Deliveries(s) && Rounds(s)
    ensures Deliveries(s.(main := m)) && Rounds(s.(main := m))
  {
  }

  lemma ProgramsDoNotGiveUp(o: Operation)
    ensures forall i :: 0 <= i < |Program(o)| && Program(o)[i].Minting? ==> !Program(o)[i].kind.Unavailable?
    ensures Program(o) != [] ==> !Program(o)[0].Undoing?
  {
  }

  lemma InvKept(s: System, step: Step)
    requires Inv(s)
    ensures Inv(Next(s, step))
  {
    hide MainStep, WorkerStep, Core, LeaseInv, Deliveries, Rounds, Available;
    CoreKept(s, step);
    LeasesKept(s, step);
    match step
    case Begin(o) => BeginKeeps(s, o);
    case Proceed =>
      if s.main.program != [] {
        var section, rest := s.main.program[0], s.main.program[1..];
        assert s.main.program == [section] + rest;
        ProceedKeeps(s, section, rest);
      }
    case Work(i, response) => if i < |s.workers| { WorkKeeps(s, i, response); }
  }

  lemma {:induction false} ReachableStatesKeep(steps: seq<Step>, n: nat)
    requires n <= |steps|
    ensures Inv(Run(steps, n))
  {
    if n == 0 {
    } else {
      hide Next, Inv;
      ReachableStatesKeep(steps, n - 1);
      InvKept(Run(steps, n - 1), steps[n - 1]);
    }
  }

  /** Over every run each generation commits at most one outcome lease. */
  lemma {:induction false} OneLeasePerGeneration(steps: seq<Step>, i: nat, j: nat)
    requires i < |Run(steps, |steps|).e.minted| && j < |Run(steps, |steps|).e.minted|
    requires Run(steps, |steps|).e.minted[i].binding.generation == Run(steps, |steps|).e.minted[j].binding.generation
    ensures i == j
  {
    ReachableStatesKeep(steps, |steps|);
  }

  /** Over every run a turn takes at most two planner rounds. */
  lemma {:induction false} TwoRoundsPerTurn(steps: seq<Step>, i: nat, j: nat, k: nat)
    requires i < j < k < |Run(steps, |steps|).submitted|
    ensures var q := Run(steps, |steps|).submitted;
            !(q[i].generation == q[j].generation == q[k].generation)
  {
    ReachableStatesKeep(steps, |steps|);
  }

  /**
    Over every run an outcome is delivered only while its generation is the newest, a planner
    outcome only in the lifetime and under the snapshot it was asked with, and no lease twice.
   */
  lemma {:induction false} DeliveriesAreCurrent(steps: seq<Step>, i: nat)
    requires i < |Run(steps, |steps|).deliveries|
    ensures var s := Run(steps, |steps|); var d := s.deliveries[i];
            && d.lease < |s.e.minted| && d.outcome == s.e.minted[d.lease].outcome
            && s.e.minted[d.lease].binding.generation == d.e.generation && !d.e.closed
            && (d.outcome.request.Some? ==>
                  var r := d.outcome.request.value;
                  r.generation == d.e.generation && r.lifetime == d.e.lifetime && d.e.snapshot == Some(r.snapshot))
            && (forall j :: 0 <= j < |s.deliveries| && s.deliveries[j].lease == d.lease ==> j == i)
  {
    ReachableStatesKeep(steps, |steps|);
    assert DeliveryHolds(Run(steps, |steps|).deliveries[i], Run(steps, |steps|).e.minted);
  }

  /** The node's turn generation rises strictly with every delivery and never passes the engine's. */
  lemma {:induction false} TurnGenerationRises(steps: seq<Step>, i: nat)
    requires i < |Run(steps, |steps|).deliveries|
    ensures var s := Run(steps, |steps|); var d := s.deliveries[i];
            && d.before < d.after <= d.e.generation
            && (0 < i ==> d.before == s.deliveries[i - 1].after)
            && (i == |s.deliveries| - 1 ==> d.after == s.turnGeneration)
  {
    ReachableStatesKeep(steps, |steps|);
    assert DeliveryHolds(Run(steps, |steps|).deliveries[i], Run(steps, |steps|).e.minted);
  }

  /** The capacity-one planner never turns a current turn away: no run delivers that it is unavailable. */
  lemma {:induction false} PlannerIsNeverUnavailable(steps: seq<Step>, i: nat)
    requires i < |Run(steps, |steps|).deliveries|
    ensures !Run(steps, |steps|).deliveries[i].outcome.kind.Unavailable?
  {
    DeliveredWhileOpen(steps, |steps|, i);
  }

  lemma {:induction false} DeliveredWhileOpen(steps: seq<Step>, n: nat, i: nat)
    requires n <= |steps| && i < |Run(steps, n).deliveries|
    ensures !Run(steps, n).deliveries[i].outcome.kind.Unavailable?
  {
    hide Inv, Next;
    if 0 < n {
      ReachableStatesKeep(steps, n - 1);
      NewDeliveries(Run(steps, n - 1), steps[n - 1], i);
      if i < |Run(steps, n - 1).deliveries| {
        DeliveredWhileOpen(steps, n - 1, i);
      }
    }
  }

  /** A delivery is of an outcome the engine had minted while it was open. */
  lemma DeliveredOpen(s: System, lease: nat)
    requires Available(s)
    ensures var t := Deliver(s, lease);
            t.deliveries == s.deliveries
            || (|t.deliveries| == |s.deliveries| + 1 && t.deliveries[..|s.deliveries|] == s.deliveries
                && !t.deliveries[|s.deliveries|].outcome.kind.Unavailable?)
  {
  }

  lemma NewDeliveries(s: System, step: Step, i: nat)
    requires Inv(s) && i < |Next(s, step).deliveries|
    ensures if i < |s.deliveries| then Next(s, step).deliveries[i] == s.deliveries[i]
            else !Next(s, step).deliveries[i].outcome.kind.Unavailable?
  {
    hide Deliver, Core, LeaseInv, Deliveries, Rounds, Available;
    match step
    case Begin(_) =>
    case Proceed => if s.main.program != [] && s.main.program[0].Delivering? { DeliveredOpen(s, s.main.lease); }
    case Work(k, _) => if k < |s.workers| && s.workers[k].Handing? { DeliveredOpen(s, s.workers[k].lease); }
  }

  // ---- stops

  /** A turn has a stop emitted if and only if the core decides so and no denied capability is named. */
  lemma StopIsEmittedUnlessDenied(decision: Decision, denied: bool, offered: Option<Snapshot>)
    ensures (exists named :: Minting(Halt, named) in Program(Turn(decision, denied, offered)))
            <==> decision.StopNow? && !denied
  {
    if decision.StopNow? && !denied {
      assert Program(Turn(decision, denied, offered))[2] == Minting(Halt, true);
    }
  }

  // ---- the planner's slot

  /** Worker `i`, and no other, works on the request in the planner's slot. */
  ghost predicate SoleWorker(s: System, i: int)
    requires s.p.active.Some?
  {
    && 0 <= i < |s.workers| && Occupies(s.workers[i], s.p.active.value)
    && forall j :: 0 <= j < |s.workers| && Occupies(s.workers[j], s.p.active.value) ==> j == i
  }

  /** In every reachable state the planner serves at most one request, and exactly one worker works on it. */
  lemma {:induction false} PlannerServesOneRequest(steps: seq<Step>)
    requires Run(steps, |steps|).p.active.Some?
    ensures var s := Run(steps, |steps|);
              && !s.p.closed && s.p.active.value.generation == s.p.generation <= s.e.generation
              && exists i :: SoleWorker(s, i)
  {
    ReachableStatesKeep(steps, |steps|);
    hide Inv, Run;
    OneIsServed(Run(steps, |steps|));
  }

  lemma OneIsServed(s: System)
    requires Inv(s) && s.p.active.Some?
    ensures !s.p.closed && s.p.active.value.generation == s.p.generation <= s.e.generation
    ensures exists i :: SoleWorker(s, i)
  {
    hide LeaseInv, Deliveries, Rounds, Available, Ready;
    SlotHasOneWorker(s);
  }

  lemma SlotHasOneWorker(s: System)
    requires Core(s) && s.p.active.Some?
    ensures exists i :: SoleWorker(s, i)
  {
    var i :| 0 <= i < |s.workers| && Occupies(s.workers[i], s.p.active.value);
    forall j | 0 <= j < |s.workers| && Occupies(s.workers[j], s.p.active.value) ensures j == i {
      assert Claim(s.workers[j]) == Some(s.p.active.value) == Claim(s.workers[i]);
    }
    assert SoleWorker(s, i);
  }

  /** The planner's fence never goes back, and a closed planner stays closed. */
  predicate FencesOn(p: Planner, q: Planner) {
    p.generation <= q.generation && (p.closed ==> q.closed)
  }

  lemma PlannerFencesOn(s: System, step: Step)
    ensures FencesOn(s.p, Next(s, step).p)
  {
  }

  lemma {:induction false} FenceOnlyAdvances(steps: seq<Step>, n: nat, m: nat)
    requires n <= m <= |steps|
    ensures FencesOn(Run(steps, n).p, Run(steps, m).p)
  {
    hide Next;
    if n < m {
      FenceOnlyAdvances(steps, n, m - 1);
      PlannerFencesOn(Run(steps, m - 1), steps[m - 1]);
    }
  }

  /**
    Once the planner has been fenced past a request, or closed, it neither accepts that request
    nor lets its answer out, however late the worker.
   */
  lemma {:induction false} FencedRequestsAreNeverServed(steps: seq<Step>, n: nat, m: nat, r: Request)
    requires n <= m <= |steps| && (Run(steps, n).p.closed || r.generation < Run(steps, n).p.generation)
    ensures var p := Run(steps, m).p; !p.Delivers(r) && !p.Submit(r).1
  {
    FenceOnlyAdvances(steps, n, m);
  }

  // ---- revoked leases

  /** No lease made before is outstanding again. */
  predicate Revokes(e: Engine, f: Engine) {
    |e.minted| <= |f.minted| && forall l :: l < |e.minted| && l in f.leases ==> l in e.leases && f.leases[l] == e.leases[l]
  }

  lemma MainOnlyRevokes(s: System, section: Section, rest: seq<Section>)
    ensures Revokes(s.e, MainStep(s, section, rest).e)
  {
  }

  lemma WorkersOnlyRevoke(s: System, i: nat, response: Response)
    requires i < |s.workers|
    ensures Revokes(s.e, WorkerStep(s, i, s.workers[i], response).e)
  {
  }

  lemma StepsOnlyRevoke(s: System, step: Step)
    ensures Revokes(s.e, Next(s, step).e)
  {
    hide MainStep, WorkerStep;
    match step
    case Begin(_) =>
    case Proceed => if s.main.program != [] { MainOnlyRevokes(s, s.main.program[0], s.main.program[1..]); }
    case Work(i, response) => if i < |s.workers| { WorkersOnlyRevoke(s, i, response); }
  }

  lemma {:induction false} LeasesOnlyGo(steps: seq<Step>, n: nat, m: nat)
    requires n <= m <= |steps|
    ensures Revokes(Run(steps, n).e, Run(steps, m).e)
  {
    hide Next;
    if n < m {
      LeasesOnlyGo(steps, n, m - 1);
      StepsOnlyRevoke(Run(steps, m - 1), steps[m - 1]);
    }
  }

  /** A lease once consumed, or overtaken by a new generation, is never honoured again. */
  lemma {:induction false} RevokedLeasesStayRevoked(steps: seq<Step>, n: nat, m: nat, lease: nat)
    requires n <= m <= |steps| && lease < |Run(steps, n).e.minted|
    requires var e := Run(steps, n).e; lease !in e.leases || e.minted[lease].binding.generation < e.generation
    ensures !Run(steps, m).e.Consume(lease).1
  {
    LeasesOnlyGo(steps, n, m);
    ReachableStatesKeep(steps, n);
    OvertakenLeasesAreGone(Run(steps, n).e, lease);
  }

  lemma OvertakenLeasesAreGone(e: Engine, lease: nat)
    requires Leases(e) && lease < |e.minted|
    ensures e.minted[lease].binding.generation < e.generation ==> lease !in e.leases
  {
  }
}

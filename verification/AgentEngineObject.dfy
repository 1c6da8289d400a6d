/**
  The engine and planner objects: fields updated in place, with the protocol's invariant kept by
  every operation, and what a whole turn means to those who came before it and to the node.
 */
module AgentEngineObject {
  import opened Wrappers
  import opened AgentEngineState
  import opened AgentEngineRuns
  import opened AgentEngineTheorems
  import opened AgentEngineAlone

  class LoopbackPlanner {
    var active: Option<Request>
    var generation: nat
    var closed: bool

    function View(): Planner
      reads this
    {
      Planner(active, generation, closed)
    }

    ghost predicate Valid()
      reads this
    {
      active.Some? ==> !closed && active.value.generation <= generation
    }

    constructor ()
      ensures Valid() && View() == NEW_PLANNER
    {
      active, generation, closed := None, 0, false;
    }

    /** On acceptance the caller starts a worker for the request. */
    method Submit(request: Request) returns (accepted: bool)
      requires Valid()
      modifies this
      ensures Valid() && (View(), accepted) == old(View()).Submit(request)
    {
      if closed || request.generation < generation {
        return false;
      }
      generation := request.generation;
      if active.Some? {
        return false;
      }
      active := Some(request);
      return true;
    }

    /** Nothing submitted under an older generation is answered any more. */
    method Invalidate(g: nat)
      requires Valid()
      modifies this
      ensures Valid() && View() == old(View()).Invalidate(g)
      ensures forall r: Request :: r.generation < g ==> !View().Delivers(r)
    {
      if g <= generation {
        return;
      }
      generation := g;
      active := None;
    }

    /** Nothing at all is answered any more. */
    method Shutdown()
      requires Valid()
      modifies this
      ensures Valid() && View() == old(View()).Shutdown()
      ensures forall r: Request :: !View().Delivers(r)
    {
      if closed {
        return;
      }
      closed := true;
      active := None;
    }

    method Release(request: Request)
      requires Valid()
      modifies this
      ensures Valid() && View() == old(View()).Release(request) && active != Some(request)
    {
      if active == Some(request) {
        active := None;
      }
    }
  }

  class AgentEngine {
    const planner: LoopbackPlanner
    var generation: nat
    var lifetime: nat
    var snapshot: Option<Snapshot>
    var active: Option<Request>
    var leases: map<nat, Binding>
    var closed: bool
    var made: nat                 // leases made so far; each is known by its number
    ghost var minted: seq<Lease>

    ghost function View(): Engine
      reads this
    {
      Engine(generation, lifetime, snapshot, active, leases, closed, minted)
    }

    /** One lease a generation at most, no request or planner ahead of the engine, no commit waiting behind a lease. */
    ghost predicate Valid()
      reads this, planner
    {
      && made == |minted| && planner.Valid() && planner.generation <= generation && (planner.closed ==> closed)
      && Leases(View()) && Unspent(View()) && (active.Some? ==> active.value.generation <= generation)
    }

    constructor ()
      ensures Valid() && View() == NEW_ENGINE && fresh(planner) && planner.View() == NEW_PLANNER
    {
      planner := new LoopbackPlanner();
      generation, lifetime, snapshot, active := 0, 1, None, None;
      leases, closed, made, minted := map[], false, 0, [];
    }

    method NextGeneration() returns (g: nat)
      requires Valid()
      modifies this
      ensures Valid() && View() == old(View()).NextGeneration() && g == generation && !Spent(View())
    {
      generation := generation + 1;
      leases := map[];
      return generation;
    }

    /** Fences planner work: a new generation, no active request, and the planner told. */
    method Invalidate() returns (g: nat)
      requires Valid()
      modifies this, planner
      ensures Valid() && View() == old(View()).NextGeneration().ClearActive() && g == generation && !Spent(View())
      ensures planner.View() == old(planner.View()).Invalidate(g)
      ensures forall r: Request :: r.generation < g ==> !planner.View().Delivers(r)
    {
      g := NextGeneration();
      active := None;
      planner.Invalidate(g);
    }

    /** A snapshot that differs from the last one fences planner work. */
    method ObserveRuntimeSnapshot(s: Snapshot) returns (changed: bool)
      requires Valid()
      modifies this, planner
      ensures Valid() && changed == old(View()).ChangedBy(s)
      ensures View() == var e := old(View()).Observe(s); if changed then e.NextGeneration().ClearActive() else e
      ensures planner.View() == if changed then old(planner.View()).Invalidate(generation) else old(planner.View())
    {
      changed := snapshot.Some? && snapshot.value != s;
      snapshot := Some(s);
      if changed {
        var _ := Invalidate();
      }
    }

    /** A lease for the newest generation, which has none yet. */
    method NewDeliveryLease(o: Outcome) returns (lease: nat)
      requires Valid() && !Spent(View()) && 0 < generation && (o.generation == 0 || o.generation == generation)
      requires active.Some? ==> active.value.generation < generation
      requires o.request.Some? ==>
                 o.request.value.generation == generation == o.generation && o.request.value.lifetime == lifetime
      modifies this
      ensures Valid() && View() == old(View()).Mint(o) && lease == |old(minted)|
    {
      MintKeeps(View(), o);
      lease := made;
      made := made + 1;
      leases := leases[lease := Binding(lifetime, generation)];
      minted := minted + [Lease(Binding(lifetime, generation), o)];
    }

    /** A lease counts once, and only while its generation and lifetime are the newest. */
    method ConsumeDeliveryLease(lease: nat) returns (current: bool)
      requires Valid()
      modifies this
      ensures Valid() && (View(), current) == old(View()).Consume(lease) && lease !in leases
      ensures current ==> lease < |minted| && minted[lease].binding == Binding(lifetime, generation) && !closed
    {
      if lease !in leases {
        return false;
      }
      var binding := leases[lease];
      leases := leases - {lease};
      return !closed && binding == Binding(lifetime, generation);
    }

    /** Makes the request active and submits it; a refusal is undone. */
    method Admit(r: Request) returns (accepted: bool)
      requires Valid() && r.generation == generation && !Spent(View())
      modifies this, planner
      ensures Valid()
      ensures old(closed) ==> !accepted && View() == old(View()) && planner.View() == old(planner.View())
      ensures !old(closed) ==>
                && (planner.View(), accepted) == old(planner.View()).Submit(r)
                && View() == var e := old(View()).Admit(r); if accepted then e else e.UndoAdmit(r)
    {
      if closed {
        return false;
      }
      active := Some(r);
      accepted := planner.Submit(r);
      if !accepted && active == Some(r) {
        active := None;
      }
    }

    /** The outcome of a planner request, if that request is still the one that matters. */
    method CommitOutcome(r: Request, o: Outcome) returns (committed: bool)
      requires Valid() && 0 < r.generation == o.generation && o.request == Some(r)
      modifies this
      ensures Valid() && (View(), committed) == old(View()).Commit(r, o)
    {
      if closed || active != Some(r) || r.generation != generation || r.lifetime != lifetime
         || snapshot != Some(r.snapshot) {
        return false;
      }
      active := None;
      var _ := NewDeliveryLease(o);
      return true;
    }

    /** The second round: it replaces the first while its generation is current, and a refusal restores the first. */
    method Continue(r: Request, next: Request) returns (current: bool, accepted: bool)
      requires Valid() && next.generation == r.generation
      requires !closed && r.generation == generation ==> active == Some(r)
      modifies this, planner
      ensures Valid() && current == old(View()).Continue(r, next).1 && (accepted ==> current)
      ensures !current ==> View() == old(View()) && planner.View() == old(planner.View())
      ensures current ==>
                && (planner.View(), accepted) == old(planner.View()).Submit(next)
                && View() == var e := old(View()).Continue(r, next).0; if accepted then e else e.Restore(r, next)
    {
      if closed || r.generation != generation {
        return false, false;
      }
      active := Some(next);
      accepted := planner.Submit(next);
      if !accepted && active == Some(next) {
        active := Some(r);
      }
      return true, accepted;
    }

    method Restart()
      requires Valid()
      modifies this, planner
      ensures Valid() && View() == old(View()).NextGeneration().ClearActive().NewLifetime()
      ensures planner.View() == old(planner.View()).Invalidate(generation)
    {
      var _ := Invalidate();
      lifetime := lifetime + 1;
      snapshot := None;
    }

    method Shutdown()
      requires Valid()
      modifies this, planner
      ensures Valid()
      ensures old(closed) ==> View() == old(View()) && planner.View() == old(planner.View())
      ensures !old(closed) ==>
                && View() == old(View()).Close().NextGeneration()
                && planner.View() == old(planner.View()).Invalidate(generation).Shutdown()
    {
      if closed {
        return;
      }
      closed := true;
      active := None;
      var g := NextGeneration();
      planner.Invalidate(g);
      planner.Shutdown();
    }

    // ---- a whole turn

    /** Since `e` a new generation has begun: no lease and no planner request of that time counts any more. */
    ghost predicate Fenced(e: Engine)
      reads this, planner
    {
      && e.generation < generation && minted == e.minted && !Spent(View()) && leases == map[]
      && lifetime == e.lifetime && closed == e.closed && planner.active.None?
      && (active.Some? ==> active.value.generation < generation)
    }

    /** Takes a new generation and tells the planner; the active request, now overtaken, may stay. */
    method Fence() returns (g: nat)
      requires Valid()
      modifies this, planner
      ensures Valid() && g == generation && Fenced(old(View()))
      ensures View() == old(View()).NextGeneration() && planner.View() == old(planner.View()).Invalidate(g)
    {
      g := NextGeneration();
      planner.Invalidate(g);
    }

    /** An outcome that needs no planner: one lease, of the newest generation. */
    method Announce(kind: Kind, named: bool, ghost e: Engine) returns (lease: nat)
      requires Valid() && Fenced(e)
      modifies this
      ensures Valid() && Holds(lease, kind) && generation == old(generation) && |e.minted| == lease
      ensures old(minted) <= minted && lease == |old(minted)|
      ensures View() == old(View()).Mint(Outcome(kind, if named then generation else 0, None))
    {
      lease := NewDeliveryLease(Outcome(kind, if named then generation else 0, None));
    }

    /** The request of a turn that the core leaves to the planner. */
    method AskPlanner(offered: Snapshot, id: nat, ghost e: Engine) returns (accepted: bool)
      requires Valid() && Fenced(e)
      modifies this, planner
      ensures Valid() && accepted == !closed && generation == old(generation) && minted == old(minted)
              && closed == old(closed)
      ensures accepted ==>
                && active == Some(Request(id, generation, lifetime, offered, 1)) == planner.active
                && snapshot == Some(offered) && leases == map[]
      ensures !accepted ==> Fenced(e)
      ensures var e' := old(View()).Observe(offered); var r := Request(id, generation, lifetime, offered, 1);
              && View() == (if accepted then e'.Admit(r) else e')
              && planner.View() == (if accepted then old(planner.View()).Submit(r).0 else old(planner.View()))
    {
      snapshot := Some(offered);
      accepted := Admit(Request(id, generation, lifetime, offered, 1));
    }

    /** The only lease outstanding is this one, of the newest generation, for an outcome of this kind. */
    ghost predicate Holds(lease: nat, kind: Kind)
      reads this
    {
      && lease + 1 == |minted| && minted[lease].outcome.kind == kind
      && leases == map[lease := Binding(lifetime, generation)]
    }

    /** The engine and its planner as a system whose main operation has this program. */
    ghost function Joint(program: seq<Section>, id: nat): System
      reads this, planner
    {
      System(View(), planner.View(), Main(program, true, 0), [], id, [], 0, [], [])
    }

    /** The object is where `t` is, with only the delivery of the emitted outcome to come. */
    ghost predicate Arrived(t: System, emitted: Option<nat>)
      reads this, planner
    {
      && t.e == View() && t.p == planner.View()
      && t.main.program == (if emitted.Some? then [Delivering] else [])
      && (emitted.Some? ==> t.main.lease == emitted.value)
    }

    /** What a turn comes to once its snapshot, if it has one, has been observed. */
    method React(decision: Decision, denied: bool, offered: Option<Snapshot>, id: nat, ghost s: System, ghost t: System)
      returns (emitted: Option<nat>, ghost u: System)
      requires Valid() && (decision.NeedsPlanner? ==> offered.Some?)
      requires Reaches(s, t) && t == Joint(Reaction(decision, denied, offered), id)
      modifies this, planner
      ensures Valid() && old(generation) < generation && old(minted) <= minted && Reaches(s, u) && Arrived(u, emitted)
      ensures forall l :: l in leases ==> |old(minted)| <= l
      ensures forall r: Request :: r.generation <= old(generation) ==> !planner.View().Delivers(r)
      ensures emitted.None? <==> decision.Ignored? || (decision.NeedsPlanner? && !denied && !old(closed))
      ensures emitted.Some? ==> Holds(emitted.value, Spoken(decision, denied))
      ensures decision.NeedsPlanner? && !denied && !old(closed) ==>
                && active == Some(Request(id, generation, lifetime, offered.value, 1)) == planner.active
                && snapshot == offered && leases == map[]
    {
      hide Leases, Unspent, Spent, Reaches;
      ghost var e := View();
      if decision.Ignored? || denied {
        ghost var rest := [Minting(Ordinary(Speak), true)] + if decision.Ignored? then [] else [Delivering];
        u := InvalidateAlone(s, t, rest);
        u := MintAlone(s, u, Ordinary(Speak), true, if decision.Ignored? then [] else [Delivering]);
        var _ := Invalidate();
        var lease := Announce(Ordinary(Speak), true, e);
        emitted := if decision.Ignored? then None else Some(lease);
        return;
      }
      ghost var rest := Reaction(decision, denied, offered)[2..];
      assert t.main.program == [Bumping, InvalidatingPlanner] + rest;
      u := FenceAlone(s, t, rest);
      var _ := Fence();
      if decision.NeedsPlanner? {
        u := AskAlone(s, u, offered.value);
        var accepted := AskPlanner(offered.value, id, e);
        if accepted {
          return None, u;
        }
      }
      ghost var named := decision.Immediate? ==> decision.named;
      u := MintAlone(s, u, Spoken(decision, denied), named, [Delivering]);
      var lease := Announce(Spoken(decision, denied), decision.Immediate? ==> decision.named, e);
      emitted := Some(lease);
    }

    /**
      One turn: the turn's program of critical sections, up to the delivery. It takes a new generation, which
      voids every earlier lease and planner request. A stop is emitted if and only if the core decides so and
      no denied capability is named; every other turn that is not left to the planner emits exactly one
      outcome; and a turn left to the planner is always accepted by it, unless the engine is closed.
     */
    method HandleTurn(decision: Decision, denied: bool, offered: Option<Snapshot>, id: nat) returns (emitted: Option<nat>)
      requires Valid() && (decision.NeedsPlanner? ==> offered.Some?)
      modifies this, planner
      ensures Valid() && old(generation) < generation && old(minted) <= minted
      ensures forall l :: l in leases ==> |old(minted)| <= l
      ensures forall r: Request :: r.generation <= old(generation) ==> !planner.View().Delivers(r)
      ensures emitted.None? <==> decision.Ignored? || (decision.NeedsPlanner? && !denied && !old(closed))
      ensures emitted.Some? ==> Holds(emitted.value, Spoken(decision, denied))
      ensures decision.NeedsPlanner? && !denied && !old(closed) ==>
                && active == Some(Request(id, generation, lifetime, offered.value, 1)) == planner.active
                && snapshot == offered && leases == map[]
      ensures exists t :: Reaches(old(Joint(Program(Turn(decision, denied, offered)), id)), t) && Arrived(t, emitted)
    {
      hide Leases, Unspent, Spent, Reaches;
      ghost var s := Joint(Program(Turn(decision, denied, offered)), id);
      ghost var t := s;
      Here(s);
      if !decision.Ignored? && !decision.StopNow? && offered.Some? {
        var _ := ObserveRuntimeSnapshot(offered.value);
        t := ObserveAlone(s, t, offered.value, Reaction(decision, denied, offered));
      }
      emitted, t := React(decision, denied, offered, id, s, t);
    }
  }

  /** What a turn's immediate outcome says. */
  function Spoken(decision: Decision, denied: bool): Kind {
    if denied then Ordinary(Speak)
    else
      match decision
      case StopNow => Halt
      case Immediate(what, _) => Ordinary(what)
      case NeedsPlanner => Unavailable
      case Ignored => Ordinary(Speak)
  }
}

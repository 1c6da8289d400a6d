/**
  The planning engine and its capacity-one planner port: what each critical section does. Runtime
  snapshots, turns and replies are opaque; what matters is which generation, Agent lifetime and
  snapshot they belong to.
 */
module AgentEngineState {
  import opened Wrappers

  type Snapshot = nat

  /** A planner request; `id` is its object identity. */
  datatype Request = Request(id: nat, generation: nat, lifetime: nat, snapshot: Snapshot, round: nat)

  /** What an outcome asks of the node: an effect, a stop, or word that the planner refused the turn. */
  datatype Kind = Ordinary(what: Effect) | Halt | Unavailable

  datatype Effect = Speak | Mission | Cancel

  /** An outcome. Generation zero stands for an outcome that names none. */
  datatype Outcome = Outcome(kind: Kind, generation: nat, request: Option<Request>)

  datatype Binding = Binding(lifetime: nat, generation: nat)

  /** Every lease ever handed out, oldest first; a lease is its place in this list. */
  datatype Lease = Lease(binding: Binding, outcome: Outcome)

  datatype Engine = Engine(
    generation: nat,
    lifetime: nat,
    snapshot: Option<Snapshot>,
    active: Option<Request>,
    leases: map<nat, Binding>,
    closed: bool,
    minted: seq<Lease>
  ) {
    function NextGeneration(): Engine {
      this.(generation := generation + 1, leases := map[])
    }

    function ClearActive(): Engine {
      this.(active := None)
    }

    function Observe(s: Snapshot): Engine {
      this.(snapshot := Some(s))
    }

    predicate ChangedBy(s: Snapshot) {
      snapshot.Some? && snapshot.value != s
    }

    function Admit(r: Request): Engine {
      this.(active := Some(r))
    }

    function UndoAdmit(r: Request): Engine {
      if active == Some(r) then this.(active := None) else this
    }

    function Mint(o: Outcome): Engine {
      var b := Binding(lifetime, generation);
      this.(leases := leases[|minted| := b], minted := minted + [Lease(b, o)])
    }

    /** Takes the lease; the answer is whether it was current. */
    function Consume(lease: nat): (Engine, bool) {
      if lease !in leases then (this, false)
      else (this.(leases := leases - {lease}), !closed && leases[lease] == Binding(lifetime, generation))
    }

    predicate Current(r: Request) {
      && !closed && active == Some(r) && r.generation == generation && r.lifetime == lifetime
      && snapshot == Some(r.snapshot)
    }

    function Commit(r: Request, o: Outcome): (Engine, bool) {
      if Current(r) then (this.(active := None).Mint(o), true) else (this, false)
    }

    /** The second round takes the place of the first, if its generation is still the newest. */
    function Continue(r: Request, next: Request): (Engine, bool) {
      if closed || r.generation != generation then (this, false) else (this.(active := Some(next)), true)
    }

    function Restore(r: Request, next: Request): Engine {
      if active == Some(next) then this.(active := Some(r)) else this
    }

    function NewLifetime(): Engine {
      this.(lifetime := lifetime + 1, snapshot := None)
    }

    function Close(): Engine {
      this.(closed := true, active := None)
    }
  }

  datatype Planner = Planner(active: Option<Request>, generation: nat, closed: bool) {
    function Submit(r: Request): (Planner, bool) {
      if closed || r.generation < generation then (this, false)
      else
        var p := this.(generation := r.generation);
        if active.Some? then (p, false) else (p.(active := Some(r)), true)
    }

    function Invalidate(g: nat): Planner {
      if g <= generation then this else this.(generation := g, active := None)
    }

    function Shutdown(): Planner {
      if closed then this else this.(closed := true, active := None)
    }

    predicate Delivers(r: Request) {
      !closed && active == Some(r) && r.generation == generation
    }

    function Release(r: Request): Planner {
      if active == Some(r) then this.(active := None) else this
    }
  }

  const NEW_ENGINE := Engine(0, 1, None, None, map[], false, [])
  const NEW_PLANNER := Planner(None, 0, false)
}

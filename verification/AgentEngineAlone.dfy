/** A turn as a whole: what its critical sections come to when nobody runs in between. */
module AgentEngineAlone {
  import opened Wrappers
  import opened AgentEngineState
  import opened AgentEngineRuns

  /** `k` critical sections of the main operation. */
  function Alone(s: System, k: nat): System {
    if k == 0 then s else Next(Alone(s, k - 1), Proceed)
  }

  lemma {:induction false} AloneInTwo(s: System, j: nat, k: nat)
    ensures Alone(Alone(s, j), k) == Alone(s, j + k)
  {
    hide Next;
    if 0 < k {
      AloneInTwo(s, j, k - 1);
      assert j + k - 1 == j + (k - 1);
    }
  }

  ghost predicate Reaches(s: System, t: System) {
    exists k: nat :: Alone(s, k) == t
  }

  lemma Onwards(s: System, t: System, u: System)
    requires Reaches(s, t) && Reaches(t, u)
    ensures Reaches(s, u)
  {
    hide Alone;
    var j: nat :| Alone(s, j) == t;
    var k: nat :| Alone(t, k) == u;
    AloneInTwo(s, j, k);
  }

  lemma Here(s: System)
    ensures Reaches(s, s)
  {
    assert Alone(s, 0) == s;
  }

  /** One section. */
  lemma Go(s: System, t: System, section: Section, rest: seq<Section>) returns (u: System)
    requires Reaches(s, t) && t.main.program == [section] + rest
    ensures u == MainStep(t, section, rest) && Reaches(s, u)
  {
    hide MainStep;
    u := Next(t, Proceed);
    assert t.main.program[1..] == rest;
    assert Alone(t, 0) == t && Alone(t, 1) == u;
    hide Alone, Next;
    Onwards(s, t, u);
  }

  /** The same system with other engine, planner and program. */
  function With(s: System, e: Engine, p: Planner, program: seq<Section>): System {
    s.(e := e, p := p, main := s.main.(program := program))
  }

  lemma InvalidateAlone(s: System, t: System, rest: seq<Section>) returns (u: System)
    requires Reaches(s, t) && t.main.program == INVALIDATE + rest
    ensures Reaches(s, u)
    ensures u == With(t, t.e.NextGeneration().ClearActive(), t.p.Invalidate(t.e.generation + 1), rest)
  {
    hide Reaches;
    assert t.main.program == [Bumping] + ([ClearingActive, InvalidatingPlanner] + rest);
    u := Go(s, t, Bumping, [ClearingActive, InvalidatingPlanner] + rest);
    assert u.main.program == [ClearingActive] + ([InvalidatingPlanner] + rest);
    u := Go(s, u, ClearingActive, [InvalidatingPlanner] + rest);
    u := Go(s, u, InvalidatingPlanner, rest);
  }

  lemma ObserveAlone(s: System, t: System, snapshot: Snapshot, rest: seq<Section>) returns (u: System)
    requires Reaches(s, t) && t.main.program == [Observing(snapshot)] + rest
    ensures Reaches(s, u)
    ensures var e := t.e.Observe(snapshot);
            u == if t.e.ChangedBy(snapshot)
                 then With(t, e.NextGeneration().ClearActive(), t.p.Invalidate(t.e.generation + 1), rest)
                 else With(t, e, t.p, rest)
  {
    hide Reaches;
    u := Go(s, t, Observing(snapshot), rest);
    if t.e.ChangedBy(snapshot) {
      u := InvalidateAlone(s, u, rest);
    }
  }

  lemma FenceAlone(s: System, t: System, rest: seq<Section>) returns (u: System)
    requires Reaches(s, t) && t.main.program == [Bumping, InvalidatingPlanner] + rest
    ensures Reaches(s, u) && u == With(t, t.e.NextGeneration(), t.p.Invalidate(t.e.generation + 1), rest)
  {
    hide Reaches;
    assert t.main.program == [Bumping] + ([InvalidatingPlanner] + rest);
    u := Go(s, t, Bumping, [InvalidatingPlanner] + rest);
    u := Go(s, u, InvalidatingPlanner, rest);
  }

  lemma MintAlone(s: System, t: System, kind: Kind, named: bool, rest: seq<Section>) returns (u: System)
    requires Reaches(s, t) && t.main.program == [Minting(kind, named)] + rest
    ensures Reaches(s, u) && u.main.program == rest && u.main.lease == |t.e.minted| && u.p == t.p
    ensures u.e == t.e.Mint(Outcome(kind, if named then t.e.generation else 0, None))
  {
    hide Reaches;
    u := Go(s, t, Minting(kind, named), rest);
  }

  /** A request to the planner, whose slot is free. */
  lemma AskAlone(s: System, t: System, snapshot: Snapshot) returns (u: System)
    requires Reaches(s, t) && t.main.program == [Freezing(snapshot), Admitting(snapshot)]
    requires !t.e.closed ==> !t.p.closed && t.p.active.None? && t.p.generation <= t.e.generation
    ensures var e := t.e.Observe(snapshot); var r := Request(t.nextId, e.generation, e.lifetime, snapshot, 1);
            && Reaches(s, u)
            && (e.closed ==> u == With(t, e, t.p, [Minting(Unavailable, true), Delivering]))
            && (!e.closed ==> u.e == e.Admit(r) && u.p == t.p.Submit(r).0 && u.main.program == [])
  {
    hide Reaches;
    assert t.main.program == [Freezing(snapshot)] + [Admitting(snapshot)];
    u := Go(s, t, Freezing(snapshot), [Admitting(snapshot)]);
    assert u.main.program == [Admitting(snapshot)] + [];
    u := Go(s, u, Admitting(snapshot), []);
    if !t.e.closed {
      var r := u.main.program[0].request;
      assert u.main.program == [Submitting(r)] + [];
      u := Go(s, u, Submitting(r), []);
    }
  }
}

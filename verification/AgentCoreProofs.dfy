/** What any run of commands and stops guarantees about the fence, the sequences, clarifications and Missions. */
module AgentCoreProofs {
  import opened Wrappers
  import opened MissionValidator
  import opened AgentCoreState

  function Run(agent: string, policy: Policy, turns: seq<Turn>, n: nat): Core
    requires n <= |turns|
  {
    if n == 0 then NewCore(agent, policy) else Run(agent, policy, turns, n - 1).HandleTurn(turns[n - 1]).0
  }

  // ---- the fence

  /** The fence is shut exactly when the table of retired instances is full. */
  predicate Latch(c: Core) {
    && |c.retired| <= MAX_RETIRED_VOICE_INSTANCES
    && (c.latched <==> |c.retired| == MAX_RETIRED_VOICE_INSTANCES)
    && (c.current.Some? ==> c.current.value !in c.retired)
    && (c.current.None? ==> c.retired == {} && c.admitted == [])
  }

  /** Admitted commands come from the current instance or a retired one; within an instance sequences rise. */
  predicate Admissions(c: Core) {
    && (forall i :: 0 <= i < |c.admitted| ==>
          && (Some(c.admitted[i].0) == c.current || c.admitted[i].0 in c.retired)
          && (Some(c.admitted[i].0) == c.current ==> c.admitted[i].1 <= c.lastSeq))
    && (forall i, j :: 0 <= i < j < |c.admitted| && c.admitted[i].0 == c.admitted[j].0 ==>
          c.admitted[i].1 < c.admitted[j].1)
    && (forall i, j, k :: 0 <= i < j < k < |c.admitted| && c.admitted[i].0 == c.admitted[k].0 ==>
          c.admitted[j].0 == c.admitted[i].0)
    && (forall i, j :: 0 <= i < j < |c.admitted| && c.admitted[i].0 !in c.retired ==> c.admitted[j].0 !in c.retired)
  }

  predicate FenceInv(c: Core) {
    Latch(c) && Admissions(c)
  }

  /** The fence fields and the history of admissions are as they were. */
  predicate SameFence(c: Core, d: Core) {
    && d.current == c.current && d.lastSeq == c.lastSeq && d.retired == c.retired && d.latched == c.latched
    && d.admitted == c.admitted
  }

  lemma RetiringGrows(retired: set<string>, instance: string)
    requires instance !in retired
    ensures |retired + {instance}| == |retired| + 1
  {
    assert retired + {instance} - {instance} == retired;
  }

  /** A new instance takes over: the old one is retired, and nothing has been admitted from the new one. */
  lemma TakeOverKeeps(c: Core, e: Envelope)
    requires FenceInv(c) && c.current.Some? && c.current.value != e.instance && e.instance !in c.retired
    requires |c.retired| < MAX_RETIRED_VOICE_INSTANCES
    ensures var d := c.Retire(c.current.value).Adopt(e);
            FenceInv(d) && forall i :: 0 <= i < |d.admitted| ==> d.admitted[i].0 != e.instance
  {
    RetiringGrows(c.retired, c.current.value);
  }

  lemma FirstInstanceKeeps(c: Core, e: Envelope)
    requires FenceInv(c) && c.current.None?
    ensures FenceInv(c.Adopt(e).(admitted := c.admitted + [(e.instance, e.seqNo)]))
            && FenceInv(c.Adopt(e).(admitted := []))
  {
  }

  /** The current instance moves on in its sequence. */
  lemma NextSequenceKeeps(c: Core, e: Envelope)
    requires FenceInv(c) && c.current == Some(e.instance) && c.lastSeq <= e.seqNo
    ensures FenceInv(c.Adopt(e))
  {
  }

  lemma AdmittingKeeps(c: Core, e: Envelope)
    requires FenceInv(c) && c.current == Some(e.instance) && c.lastSeq == e.seqNo
    requires forall i :: 0 <= i < |c.admitted| && c.admitted[i].0 == e.instance ==> c.admitted[i].1 < e.seqNo
    ensures FenceInv(c.(admitted := c.admitted + [(e.instance, e.seqNo)]))
  {
    var d := c.(admitted := c.admitted + [(e.instance, e.seqNo)]);
    var n := |c.admitted|;
    forall i | 0 <= i < |d.admitted| ensures i < n ==> d.admitted[i] == c.admitted[i] {}
    assert d.admitted[n] == (e.instance, e.seqNo);
    assert Latch(d);
    hide Latch;
  }

  /** Past the fence a command's instance is the current one, and it is the newest command of that instance. */
  lemma FenceKeeps(c: Core, e: Envelope)
    requires FenceInv(c)
    ensures var (d, refusal) := c.Fence(e);
            && (refusal.Some? ==> FenceInv(d))
            && (refusal.None? ==> FenceInv(d.(admitted := d.admitted + [(e.instance, e.seqNo)])))
  {
    var (d, refusal) := c.Fence(e);
    if refusal.None? {
      if c.current.None? {
        FirstInstanceKeeps(c, e);
      } else if c.current.value == e.instance {
        NextSequenceKeeps(c, e);
        AdmittingKeeps(c.Adopt(e), e);
      } else {
        TakingOverAdmits(c, e);
      }
    }
    hide Admissions;
  }

  lemma TakingOverAdmits(c: Core, e: Envelope)
    requires FenceInv(c) && c.current.Some? && c.current.value != e.instance && c.Fence(e).1.None?
    ensures var d := c.Fence(e).0; FenceInv(d.(admitted := d.admitted + [(e.instance, e.seqNo)]))
  {
    TakeOverKeeps(c, e);
    hide FenceInv;
    var d, t := c.Fence(e).0, c.Retire(c.current.value).Adopt(e);
    AdmittingKeeps(t, e);
    SameFenceKeeps(t.(admitted := t.admitted + [(e.instance, e.seqNo)]), d.(admitted := d.admitted + [(e.instance, e.seqNo)]));
  }

  lemma StopKeeps(c: Core, e: Envelope)
    requires FenceInv(c)
    ensures FenceInv(c.ObserveStop(e))
  {
    hide FenceInv;
    var d := c.ObserveStop(e);
    if c.latched {
      SameFenceKeeps(c, d);
    } else if c.current.None? {
      NothingBeforeTheFirst(c);
      FirstInstanceKeeps(c, e);
      SameFenceKeeps(c.Adopt(e).(admitted := []), d);
    } else if c.current.value == e.instance {
      if c.lastSeq < e.seqNo {
        NextSequenceKeeps(c, e);
        SameFenceKeeps(c.Adopt(e), d);
      } else {
        SameFenceKeeps(c, d);
      }
    } else if e.instance !in c.retired && |c.retired| < MAX_RETIRED_VOICE_INSTANCES {
      TakeOverKeeps(c, e);
      SameFenceKeeps(c.Retire(c.current.value).Adopt(e), d);
    } else {
      SameFenceKeeps(c, d);
    }
  }

  lemma NothingBeforeTheFirst(c: Core)
    requires FenceInv(c) && c.current.None?
    ensures c.admitted == []
  {
  }

  lemma DecidingLeavesFence(c: Core, parse: Parse, e: Envelope, t: Token, now: real)
    ensures var d := c.Decide(parse, e, t, now).0;
            SameFence(c, d) && d.sequences == c.sequences && d.sourceSeq == c.sourceSeq && d.policy == c.policy
  {
    hide Validate, SiblingVerdict, Core.CommitPending;
    if parse.Missing? || parse.AskAgain? {
      CommittingLeavesFence(c, parse.intent, e, t, now);
    }
  }

  lemma CommittingLeavesFence(c: Core, i: Intent, e: Envelope, t: Token, now: real)
    ensures var d := c.CommitPending(i, e, t, now).0;
            SameFence(c, d) && d.sequences == c.sequences && d.sourceSeq == c.sourceSeq && d.policy == c.policy
  {
    hide SiblingVerdict;
  }

  lemma CommandLeavesFence(c: Core, e: Envelope, offered: Option<Snapshot>, now: real)
    ensures var d := c.Command(e, offered, now).0;
            SameFence(c, d) && d.sequences == c.sequences && d.sourceSeq == c.sourceSeq && d.policy == c.policy
  {
    hide Core.Understand, Core.Decide, PlacesVerdict, BoundedId, Uint64;
    if SnapshotVerdict(offered).Accepted? {
      DecidingLeavesFence(c.UseUp(e.session), c.Understand(e, offered.value), e, c.TokenFor(e, offered.value), now);
    }
  }

  lemma TurnKeepsFence(c: Core, t: Turn)
    requires FenceInv(c)
    ensures FenceInv(c.HandleTurn(t).0)
  {
    hide Core.Fence, Core.ObserveStop, Core.Command, FenceInv, ValidEnvelope;
    var d := c.ExpirePending(t.now);
    assert FenceInv(d) by { SameFenceKeeps(c, d); }
    if t.envelope.Some? && ValidEnvelope(t.envelope.value) {
      var e := t.envelope.value;
      StopKeeps(d, e);
      FenceKeeps(d, e);
      var (f, refusal) := d.Fence(e);
      if refusal.None? {
        var g := f.(admitted := f.admitted + [(e.instance, e.seqNo)]);
        if g.Allocate().Some? {
          var h := g.Allocate().value;
          SameFenceKeeps(g, h);
          CommandLeavesFence(h, e, t.snapshot, t.commitNow);
          SameFenceKeeps(h, h.Command(e, t.snapshot, t.commitNow).0);
        }
      }
    }
  }

  lemma SameFenceKeeps(c: Core, d: Core)
    requires FenceInv(c) && SameFence(c, d)
    ensures FenceInv(d)
  {
  }

  lemma {:induction false} FenceHolds(agent: string, policy: Policy, turns: seq<Turn>, n: nat)
    requires n <= |turns|
    ensures FenceInv(Run(agent, policy, turns, n))
  {
    if n == 0 {
    } else {
      hide FenceInv, Core.HandleTurn;
      FenceHolds(agent, policy, turns, n - 1);
      TurnKeepsFence(Run(agent, policy, turns, n - 1), turns[n - 1]);
    }
  }

  // ---- sequences

  predicate Sequences(c: Core) {
    && 0 <= c.sourceSeq <= MAX_UINT64 && 0 <= c.generation <= MAX_UINT64
    && (forall i, j :: 0 <= i < j < |c.sequences| ==> c.sequences[i] < c.sequences[j])
    && (forall i :: 0 <= i < |c.sequences| ==> 0 < c.sequences[i] <= c.sourceSeq)
  }

  ghost predicate SameSequences(c: Core, d: Core) {
    d.sourceSeq == c.sourceSeq && d.sequences == c.sequences && d.policy == c.policy
  }

  lemma FenceLeavesSequences(c: Core, e: Envelope)
    ensures SameSequences(c, c.Fence(e).0) && (Sequences(c) ==> Sequences(c.Fence(e).0))
  {
    hide Sequences;
    RotatingKeepsSequences(c, c.Fence(e).0);
  }

  lemma StopLeavesSequences(c: Core, e: Envelope)
    ensures SameSequences(c, c.ObserveStop(e)) && (Sequences(c) ==> Sequences(c.ObserveStop(e)))
  {
    hide Sequences;
    RotatingKeepsSequences(c, c.ObserveStop(e));
  }

  lemma RotatingKeepsSequences(c: Core, d: Core)
    requires SameSequences(c, d) && (d.generation == c.generation || d.generation == c.Rotate().generation)
    ensures Sequences(c) ==> Sequences(d)
  {
  }

  lemma TurnKeepsSequences(c: Core, t: Turn)
    requires Sequences(c)
    ensures Sequences(c.HandleTurn(t).0) && c.HandleTurn(t).0.policy == c.policy
  {
    hide Core.Fence, Core.ObserveStop, Core.Command, ValidEnvelope;
    var d := c.ExpirePending(t.now);
    if t.envelope.Some? && ValidEnvelope(t.envelope.value) {
      var e := t.envelope.value;
      FenceLeavesSequences(d, e);
      StopLeavesSequences(d, e);
      var f := d.Fence(e).0;
      var g := f.(admitted := f.admitted + [(e.instance, e.seqNo)]);
      if g.Allocate().Some? {
        CommandLeavesFence(g.Allocate().value, e, t.snapshot, t.commitNow);
        CommandKeepsGeneration(g.Allocate().value, e, t.snapshot, t.commitNow);
      }
    }
  }

  lemma CommandKeepsGeneration(c: Core, e: Envelope, offered: Option<Snapshot>, now: real)
    ensures c.Command(e, offered, now).0.generation == c.generation
  {
    hide Core.Understand, Validate, SiblingVerdict, PlacesVerdict, BoundedId, Uint64;
    if SnapshotVerdict(offered).Accepted? {
      DecidingKeepsGeneration(c.UseUp(e.session), c.Understand(e, offered.value), e, c.TokenFor(e, offered.value), now);
    }
    hide Core.Decide;
  }

  lemma DecidingKeepsGeneration(c: Core, parse: Parse, e: Envelope, t: Token, now: real)
    ensures c.Decide(parse, e, t, now).0.generation == c.generation
  {
    hide Validate, SiblingVerdict;
  }

  lemma {:induction false} SequencesHold(agent: string, policy: Policy, turns: seq<Turn>, n: nat)
    requires n <= |turns|
    ensures Sequences(Run(agent, policy, turns, n)) && Run(agent, policy, turns, n).policy == policy
  {
    if n == 0 {
    } else {
      hide Sequences, Core.HandleTurn;
      SequencesHold(agent, policy, turns, n - 1);
      TurnKeepsSequences(Run(agent, policy, turns, n - 1), turns[n - 1]);
    }
  }

  // ---- clarifications

  /** A stored clarification has passed its check and has not been used. */
  predicate PendingHolds(p: Pending, c: Core) {
    && SiblingVerdict(p.intent.prefix, p.intent.suffix, p.token, c.policy).Accepted?
    && p.id < c.asked && p.id !in c.answered
  }

  predicate Clarifications(c: Core) {
    && |c.pending| <= c.policy.clarificationCapacity
    && (forall s :: s in c.pending ==> PendingHolds(c.pending[s], c))
    && (forall s, u :: s in c.pending && u in c.pending && c.pending[s].id == c.pending[u].id ==> s == u)
    && (forall i, j :: 0 <= i < j < |c.answered| ==> c.answered[i] != c.answered[j])
    && (forall i :: 0 <= i < |c.answered| ==> c.answered[i] < c.asked)
  }

  lemma FewerKeys<K, V>(m: map<K, V>, n: map<K, V>)
    requires n.Keys <= m.Keys
    ensures |n| <= |m|
  {
    SubsetCardinality(n.Keys, m.Keys);
  }

  lemma {:induction false} SubsetCardinality<T>(a: set<T>, b: set<T>)
    requires a <= b
    ensures |a| <= |b|
  {
    if a != {} {
      var x :| x in a;
      SubsetCardinality(a - {x}, b - {x});
    }
  }

  /** Entries may go; nothing else about clarifications changes. */
  lemma FewerPending(c: Core, d: Core)
    requires Clarifications(c) && d.policy == c.policy && d.asked == c.asked && d.answered == c.answered
    requires forall s :: s in d.pending ==> s in c.pending && d.pending[s] == c.pending[s]
    ensures Clarifications(d)
  {
    FewerKeys(c.pending, d.pending);
  }

  lemma UsingUpKeeps(c: Core, session: string)
    requires Clarifications(c)
    ensures Clarifications(c.UseUp(session))
  {
    hide SiblingVerdict;
    FewerKeys(c.pending, c.pending - {session});
    var d := c.UseUp(session);
    forall s | s in d.pending ensures PendingHolds(d.pending[s], d) {
      assert PendingHolds(c.pending[s], c) && (session in c.pending ==> c.pending[s].id != c.pending[session].id);
    }
  }

  lemma StoringKeeps(c: Core, session: string, p: Pending)
    requires Clarifications(c) && session !in c.pending && |c.pending| < c.policy.clarificationCapacity
    requires p.id == c.asked && SiblingVerdict(p.intent.prefix, p.intent.suffix, p.token, c.policy).Accepted?
    ensures Clarifications(c.(pending := c.pending[session := p], asked := c.asked + 1))
  {
    hide SiblingVerdict;
    var d := c.(pending := c.pending[session := p], asked := c.asked + 1);
    assert d.pending.Keys == c.pending.Keys + {session};
    forall s | s in d.pending ensures PendingHolds(d.pending[s], d) {
      if s != session { assert PendingHolds(c.pending[s], c); }
    }
  }

  lemma CommittingKeeps(c: Core, i: Intent, e: Envelope, t: Token, now: real)
    requires Clarifications(c)
    ensures Clarifications(c.CommitPending(i, e, t, now).0)
  {
    hide SiblingVerdict, Clarifications;
    var d := c.(pending := c.pending - {e.session});
    FewerPending(c, d);
    if SiblingVerdict(i.prefix, i.suffix, t, c.policy).Accepted? && |d.pending| < c.policy.clarificationCapacity {
      StoringKeeps(d, e.session, Pending(i, now, t, c.asked));
    }
  }

  lemma DecidingKeeps(c: Core, parse: Parse, e: Envelope, t: Token, now: real)
    requires Clarifications(c)
    ensures Clarifications(c.Decide(parse, e, t, now).0)
  {
    hide Core.CommitPending, Clarifications, Validate;
    if parse.Missing? || parse.AskAgain? {
      CommittingKeeps(c, parse.intent, e, t, now);
    }
  }

  lemma CommandKeeps(c: Core, e: Envelope, offered: Option<Snapshot>, now: real)
    requires Clarifications(c)
    ensures Clarifications(c.Command(e, offered, now).0)
  {
    hide Core.Understand, Core.Decide, Clarifications, PlacesVerdict, BoundedId, Uint64, Core.UseUp;
    UsingUpKeeps(c, e.session);
    if SnapshotVerdict(offered).Accepted? {
      DecidingKeeps(c.UseUp(e.session), c.Understand(e, offered.value), e, c.TokenFor(e, offered.value), now);
    }
  }

  lemma FenceKeepsClarifications(c: Core, e: Envelope)
    requires Clarifications(c)
    ensures Clarifications(c.Fence(e).0) && Clarifications(c.ObserveStop(e))
  {
    hide Clarifications, Core.Fence, Core.ObserveStop;
    FenceOnlyForgets(c, e);
    StopForgets(c, e);
    FewerPending(c, c.Fence(e).0);
    FewerPending(c, c.ObserveStop(e));
  }

  lemma FenceOnlyForgets(c: Core, e: Envelope)
    ensures var d := c.Fence(e).0;
            && d.policy == c.policy && d.asked == c.asked && d.answered == c.answered
            && (d.pending == c.pending || d.pending == map[])
  {
  }

  lemma StopForgets(c: Core, e: Envelope)
    ensures var d := c.ObserveStop(e);
            d.policy == c.policy && d.asked == c.asked && d.answered == c.answered && d.pending == map[]
  {
  }

  lemma TurnKeepsClarifications(c: Core, t: Turn)
    requires Clarifications(c)
    ensures Clarifications(c.HandleTurn(t).0)
  {
    hide Core.Fence, Core.ObserveStop, Core.Command, Clarifications, ValidEnvelope;
    var d := c.ExpirePending(t.now);
    FewerPending(c, d);
    if t.envelope.Some? && ValidEnvelope(t.envelope.value) {
      var e := t.envelope.value;
      FenceKeepsClarifications(d, e);
      var f := d.Fence(e).0;
      var g := f.(admitted := f.admitted + [(e.instance, e.seqNo)]);
      FewerPending(f, g);
      if g.Allocate().Some? {
        var h := g.Allocate().value;
        FewerPending(g, h);
        CommandKeeps(h, e, t.snapshot, t.commitNow);
      }
    }
  }

  lemma NothingAsked(agent: string, policy: Policy)
    ensures Clarifications(NewCore(agent, policy))
  {
    hide PendingHolds;
  }

  lemma {:induction false} ClarificationsHold(agent: string, policy: Policy, turns: seq<Turn>, n: nat)
    requires n <= |turns|
    ensures Clarifications(Run(agent, policy, turns, n))
  {
    hide Clarifications, Core.HandleTurn, NewCore;
    if n == 0 {
      NothingAsked(agent, policy);
    } else {
      ClarificationsHold(agent, policy, turns, n - 1);
      TurnKeepsClarifications(Run(agent, policy, turns, n - 1), turns[n - 1]);
    }
  }

  // ---- the statements

  /** Commands past the fence have strictly increasing sequences within each Voice instance. */
  lemma {:induction false} AdmittedSequencesIncrease(agent: string, policy: Policy, turns: seq<Turn>, i: nat, j: nat)
    requires var a := Run(agent, policy, turns, |turns|).admitted; i < j < |a| && a[i].0 == a[j].0
    ensures var a := Run(agent, policy, turns, |turns|).admitted; a[i].1 < a[j].1
  {
    FenceHolds(agent, policy, turns, |turns|);
  }

  /** Once another instance has been admitted, an abandoned one never is again. */
  lemma {:induction false} AbandonedIsNeverReadmitted(agent: string, policy: Policy, turns: seq<Turn>, i: nat, j: nat, k: nat)
    requires var a := Run(agent, policy, turns, |turns|).admitted; i < j < k < |a| && a[i].0 != a[j].0
    ensures var a := Run(agent, policy, turns, |turns|).admitted; a[k].0 != a[i].0
  {
    FenceHolds(agent, policy, turns, |turns|);
  }

  /** The instances of the first `n` admitted commands. */
  function Instances(admitted: seq<(string, int)>, n: nat): set<string>
    requires n <= |admitted|
  {
    if n == 0 then {} else Instances(admitted, n - 1) + {admitted[n - 1].0}
  }

  lemma {:induction false} InstancesAreKnown(c: Core, n: nat)
    requires FenceInv(c) && n <= |c.admitted|
    ensures Instances(c.admitted, n) <= c.retired + if c.current.Some? then {c.current.value} else {}
  {
    if 0 < n {
      InstancesAreKnown(c, n - 1);
    }
  }

  /** The fence latches exactly when 64 instances are retired, and at most 65 instances are ever admitted. */
  lemma {:induction false} FenceIsBounded(agent: string, policy: Policy, turns: seq<Turn>)
    ensures var c := Run(agent, policy, turns, |turns|);
            && (c.latched <==> |c.retired| == MAX_RETIRED_VOICE_INSTANCES)
            && |Instances(c.admitted, |c.admitted|)| <= MAX_RETIRED_VOICE_INSTANCES + 1
  {
    FenceHolds(agent, policy, turns, |turns|);
    var c := Run(agent, policy, turns, |turns|);
    InstancesAreKnown(c, |c.admitted|);
    var known := c.retired + if c.current.Some? then {c.current.value} else {};
    SubsetCardinality(Instances(c.admitted, |c.admitted|), known);
    if c.current.Some? { RetiringGrows(c.retired, c.current.value); }
  }

  /** Source sequence numbers are never given out twice. */
  lemma {:induction false} SourceSequencesNeverRepeat(agent: string, policy: Policy, turns: seq<Turn>, i: nat, j: nat)
    requires i < j < |Run(agent, policy, turns, |turns|).sequences|
    ensures var q := Run(agent, policy, turns, |turns|).sequences; 0 < q[i] < q[j] <= MAX_UINT64
  {
    SequencesHold(agent, policy, turns, |turns|);
  }

  /** Every valid stop is answered as one in every state, and forgets every pending clarification. */
  lemma StopAlwaysStops(c: Core, t: Turn)
    requires t.envelope.Some? && ValidEnvelope(t.envelope.value)
    requires t.envelope.value.stop || t.envelope.value.reading.stopClause
    ensures var (d, decision) := c.HandleTurn(t); var e := t.envelope.value;
            && decision == StopDecision(e.turn, e.instance, e.seqNo)
            && d.pending == map[]
  {
    hide ValidEnvelope;
  }

  lemma FenceNeverStops(c: Core, e: Envelope)
    ensures c.Fence(e).1.Some? ==> !c.Fence(e).1.value.StopDecision?
  {
  }

  lemma CommandNeverStops(c: Core, e: Envelope, offered: Option<Snapshot>, now: real)
    ensures !c.Command(e, offered, now).1.StopDecision?
  {
    hide Core.Understand, Validate, SiblingVerdict, PlacesVerdict, BoundedId, Uint64, Core.UseUp;
  }

  /** The core decides a stop for valid envelopes of that kind or with a stop clause, and for no others. */
  lemma OnlyStopsStop(c: Core, t: Turn)
    ensures c.HandleTurn(t).1.StopDecision? <==>
              t.envelope.Some? && ValidEnvelope(t.envelope.value)
              && (t.envelope.value.stop || t.envelope.value.reading.stopClause)
  {
    hide ValidEnvelope, Core.Fence, Core.Command, Core.ObserveStop;
    if t.envelope.Some? {
      var e := t.envelope.value;
      FenceNeverStops(c.ExpirePending(t.now), e);
      var f := c.ExpirePending(t.now).Fence(e).0;
      var g := f.(admitted := f.admitted + [(e.instance, e.seqNo)]);
      if g.Allocate().Some? {
        CommandNeverStops(g.Allocate().value, e, t.snapshot, t.commitNow);
      }
    }
  }

  lemma DecidedMissionIsValid(c: Core, parse: Parse, e: Envelope, t: Token, now: real)
    requires c.Decide(parse, e, t, now).1.MissionDecision?
    ensures var d := c.Decide(parse, e, t, now).1; d.token == t && Validate(d.steps, t, c.policy).Accepted?
  {
    hide Validate, SiblingVerdict;
  }

  lemma CommandedMissionIsValid(c: Core, e: Envelope, offered: Option<Snapshot>, now: real)
    requires c.Command(e, offered, now).1.MissionDecision?
    ensures var d := c.Command(e, offered, now).1;
            d.token.sourceSeq == c.sourceSeq && Validate(d.steps, d.token, c.policy).Accepted?
  {
    hide Core.Understand, Core.Decide, Validate, PlacesVerdict, BoundedId, Uint64;
    DecidedMissionIsValid(c.UseUp(e.session), c.Understand(e, offered.value), e, c.TokenFor(e, offered.value), now);
  }

  /** A Mission leaves the core only validated against its own token, which carries a fresh source sequence. */
  lemma EveryMissionIsValid(c: Core, t: Turn)
    requires c.HandleTurn(t).1.MissionDecision?
    ensures var d := c.HandleTurn(t).1;
            Validate(d.steps, d.token, c.policy).Accepted? && d.token.sourceSeq == c.sourceSeq + 1
  {
    hide ValidEnvelope, Validate, Core.Command, Core.Fence;
    var e := t.envelope.value;
    var c' := c.ExpirePending(t.now);
    FenceLeavesSequences(c', e);
    FenceRefusals(c', e);
    var f := c'.Fence(e).0;
    var h := f.(admitted := f.admitted + [(e.instance, e.seqNo)]).Allocate().value;
    CommandedMissionIsValid(h, e, t.snapshot, t.commitNow);
  }

  lemma FenceRefusals(c: Core, e: Envelope)
    ensures c.Fence(e).1.Some? ==> !c.Fence(e).1.value.MissionDecision?
  {
  }

  /** Each clarification is used at most once, and the table stays within its capacity. */
  lemma {:induction false} ClarificationsAreUsedOnce(agent: string, policy: Policy, turns: seq<Turn>, i: nat, j: nat)
    requires i < j < |Run(agent, policy, turns, |turns|).answered|
    ensures var c := Run(agent, policy, turns, |turns|); c.answered[i] != c.answered[j]
  {
    ClarificationsHold(agent, policy, turns, |turns|);
  }

  lemma {:induction false} ClarificationTableIsBounded(agent: string, policy: Policy, turns: seq<Turn>)
    ensures |Run(agent, policy, turns, |turns|).pending| <= policy.clarificationCapacity
  {
    ClarificationsHold(agent, policy, turns, |turns|);
    SequencesHold(agent, policy, turns, |turns|);
  }

  /**
    In every reachable state a stored clarification is completed soundly: under the snapshot it
    was asked with, the completed Mission is accepted if and only if the answer alone is.
   */
  lemma {:induction false} StoredClarificationIsSound(
      agent: string, policy: Policy, turns: seq<Turn>, session: string, answer: Step, u: Token)
    requires session in Run(agent, policy, turns, |turns|).pending
    requires u.snapshot == Run(agent, policy, turns, |turns|).pending[session].token.snapshot
    ensures var i := Run(agent, policy, turns, |turns|).pending[session].intent;
            Validate(i.prefix + [answer] + i.suffix, u, policy).Accepted? <==> Validate([answer], u, policy).Accepted?
  {
    ClarificationsHold(agent, policy, turns, |turns|);
    SequencesHold(agent, policy, turns, |turns|);
    var p := Run(agent, policy, turns, |turns|).pending[session];
    assert PendingHolds(p, Run(agent, policy, turns, |turns|));
    ClarificationIsSound(p.intent.prefix, p.intent.suffix, answer, p.token, u, policy);
  }

  // ---- an answering turn

  /** The core once the turn's command has passed the fence and been given its numbers. */
  function Allocated(c: Core, t: Turn): Option<Core>
    requires t.envelope.Some?
  {
    var e := t.envelope.value;
    var (f, refusal) := c.ExpirePending(t.now).Fence(e);
    if refusal.Some? then None else f.(admitted := f.admitted + [(e.instance, e.seqNo)]).Allocate()
  }

  lemma AnswersComplete(r: Reading, i: Intent, s: Snapshot, p: Policy)
    requires AnswerPending(r, i, s, p).Complete?
    ensures AnswerPending(r, i, s, p) == Complete(i.prefix + [AnswerOf(r, i, p)] + i.suffix)
  {
  }

  /**
    The turn is an admitted command that says nothing of its own but answers its session's
    clarification, and nothing has changed in the world since the question was asked.
   */
  predicate Answers(c: Core, t: Turn) {
    && t.envelope.Some? && ValidEnvelope(t.envelope.value) && !t.envelope.value.stop
    && !t.envelope.value.reading.stopClause && !t.envelope.value.reading.cancel
    && Allocated(c, t).Some? && t.envelope.value.session in Allocated(c, t).value.pending
    && ParseText(t.envelope.value.reading).Unknown?
    && SnapshotVerdict(t.snapshot).Accepted?
    && var p := Allocated(c, t).value.pending[t.envelope.value.session];
       && t.snapshot == Some(p.token.snapshot)
       && AnswerPending(t.envelope.value.reading, p.intent, p.token.snapshot, c.policy).Complete?
  }

  lemma AnsweredCommand(h: Core, e: Envelope, s: Snapshot, now: real)
    requires Clarifications(h) && e.session in h.pending && !e.reading.cancel && ParseText(e.reading).Unknown?
    requires SnapshotVerdict(Some(s)).Accepted? && h.pending[e.session].token.snapshot == s
    requires AnswerPending(e.reading, h.pending[e.session].intent, s, h.policy).Complete?
    ensures var i := h.pending[e.session].intent; var answer := AnswerOf(e.reading, i, h.policy);
            var token := h.TokenFor(e, s); var d := h.Command(e, Some(s), now).1;
            if Validate([answer], token, h.policy).Accepted?
            then d == MissionDecision(i.prefix + [answer] + i.suffix, token) else d.ReplyDecision?
  {
    hide Validate, SiblingVerdict, ParseText, AnswerPending, AnswerOf, SnapshotVerdict, Core.TokenFor;
    var p := h.pending[e.session];
    AnswersComplete(e.reading, p.intent, s, h.policy);
    var answer, token := AnswerOf(e.reading, p.intent, h.policy), h.TokenFor(e, s);
    assert token.snapshot == s by { TokensCarryTheSnapshot(h, e, s); }
    assert PendingHolds(p, h);
    ClarificationIsSound(p.intent.prefix, p.intent.suffix, answer, p.token, token, h.policy);
  }

  lemma TokensCarryTheSnapshot(c: Core, e: Envelope, s: Snapshot)
    ensures c.TokenFor(e, s).snapshot == s
  {
  }

  lemma AllocatedKeeps(c: Core, t: Turn)
    requires Clarifications(c) && t.envelope.Some? && Allocated(c, t).Some?
    ensures Clarifications(Allocated(c, t).value) && Allocated(c, t).value.policy == c.policy
  {
    hide Clarifications, Core.Fence;
    var e, d := t.envelope.value, c.ExpirePending(t.now);
    FewerPending(c, d);
    FenceKeepsClarifications(d, e);
    FenceLeavesSequences(d, e);
    var f := d.Fence(e).0;
    var g := f.(admitted := f.admitted + [(e.instance, e.seqNo)]);
    FewerPending(f, g);
    FewerPending(g, g.Allocate().value);
  }

  lemma AnsweringIsCommanding(c: Core, t: Turn)
    requires t.envelope.Some? && ValidEnvelope(t.envelope.value) && !t.envelope.value.stop
    requires !t.envelope.value.reading.stopClause && Allocated(c, t).Some?
    ensures c.HandleTurn(t).1 == Allocated(c, t).value.Command(t.envelope.value, t.snapshot, t.commitNow).1
  {
    hide ValidEnvelope, Core.Fence, Core.Command, Core.ObserveStop;
  }

  /**
    In every run, a turn that answers a clarification under an unchanged snapshot becomes the
    Mission made of the known steps around the answer, if and only if the answer step alone is
    valid; otherwise it is told why not.
   */
  lemma {:induction false} AnsweringTurnCompletesTheMission(agent: string, policy: Policy, turns: seq<Turn>, t: Turn)
    requires Answers(Run(agent, policy, turns, |turns|), t)
    ensures var c := Run(agent, policy, turns, |turns|); var e := t.envelope.value; var h := Allocated(c, t).value;
            var i := h.pending[e.session].intent; var answer := AnswerOf(e.reading, i, policy);
            var token := h.TokenFor(e, t.snapshot.value); var d := c.HandleTurn(t).1;
            if Validate([answer], token, policy).Accepted?
            then d == MissionDecision(i.prefix + [answer] + i.suffix, token) else d.ReplyDecision?
  {
    hide Run, Validate, ParseText, AnswerPending, AnswerOf, SnapshotVerdict, ValidEnvelope, Core.HandleTurn,
      Core.Command,
      Core.TokenFor, Clarifications, Allocated;
    var c := Run(agent, policy, turns, |turns|);
    ClarificationsHold(agent, policy, turns, |turns|);
    SequencesHold(agent, policy, turns, |turns|);
    AllocatedKeeps(c, t);
    AnsweringIsCommanding(c, t);
    AnsweredCommand(Allocated(c, t).value, t.envelope.value, t.snapshot.value, t.commitNow);
  }
}

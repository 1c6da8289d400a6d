/**
  What each turn does to the fence, told on its fields, and what a stop means for every command
  that comes after it.
 */
module AgentCoreFence {
  import opened Wrappers
  import opened MissionValidator
  import opened AgentCoreState
  import opened AgentCoreProofs
  import opened AgentCoreReadings
  import opened AgentCoreDecisions

  /** The turn is a valid stop of this envelope. */
  predicate Stops(t: Turn, e: Envelope) {
    t.envelope == Some(e) && ValidEnvelope(e) && (e.stop || e.reading.stopClause)
  }

  /** The envelope's instance is the current one from now on, at this sequence number. */
  predicate Adopted(c: Core, e: Envelope, d: Core) {
    && d.current == Some(e.instance) && d.lastSeq == e.seqNo
    && d.retired == (if TakesOver(c, e) then c.retired + {c.current.value} else c.retired)
  }

  predicate FenceStays(c: Core, d: Core) {
    d.current == c.current && d.lastSeq == c.lastSeq && d.retired == c.retired
  }

  /** A stop is taken note of unless its instance is behind, retired or one too many. */
  predicate NotesStop(c: Core, e: Envelope) {
    && !c.latched
    && (c.current == Some(e.instance) ==> c.lastSeq < e.seqNo)
    && (TakesOver(c, e) ==> e.instance !in c.retired && |c.retired| < 64)
  }

  /** What any turn does to the fence, to the numbers given out and to the commands let through. */
  ghost predicate FenceSide(c: Core, t: Turn, d: Core) {
    if e: Envelope :| Stops(t, e) then
      && (if NotesStop(c, e) then Adopted(c, e, d) else FenceStays(c, d))
      && d.admitted == c.admitted && d.sourceSeq == c.sourceSeq && d.pending == map[]
      && d.generation == (if c.generation < MAX_UINT64 then c.generation + 1 else c.generation)
    else if e: Envelope :| Commands(t, e) then
      && (if Passes(c, e) then Adopted(c, e, d) else FenceStays(c, d))
      && d.admitted == (if Passes(c, e) then c.admitted + [(e.instance, e.seqNo)] else c.admitted)
      && d.sourceSeq == (if IsServed(c, e) then c.sourceSeq + 1 else c.sourceSeq)
      && (IsServed(c, e) ==> d.generation == NextGeneration(c, e))
    else FenceStays(c, d) && d.admitted == c.admitted && d.sourceSeq == c.sourceSeq && d.generation == c.generation
  }

  lemma StopFields(c: Core, e: Envelope)
    ensures var d := c.ObserveStop(e); if NotesStop(c, e) then Adopted(c, e, d) else FenceStays(c, d)
  {
    if c.current.Some? && c.current.value == e.instance {
      hide Core.Retire;
    }
  }

  lemma StopNumbers(c: Core, e: Envelope)
    ensures var d := c.ObserveStop(e);
            && d.admitted == c.admitted && d.sourceSeq == c.sourceSeq && d.pending == map[]
            && d.generation == (if c.generation < MAX_UINT64 then c.generation + 1 else c.generation)
  {
  }

  lemma StopTurn(c: Core, t: Turn, e: Envelope)
    requires Stops(t, e)
    ensures FenceSide(c, t, c.HandleTurn(t).0)
  {
    hide ValidEnvelope, Core.Fence, Core.Command, Core.ObserveStop, Adopted, FenceStays, NotesStop;
    var x := c.ExpirePending(t.now);
    StopFields(x, e);
    StopNumbers(x, e);
    SameAnswers(c, x, e);
    SameStops(c, x, e);
    assert c.HandleTurn(t).0 == x.ObserveStop(e);
  }

  lemma SameStops(c: Core, x: Core, e: Envelope)
    requires x == c.(pending := x.pending)
    ensures NotesStop(x, e) == NotesStop(c, e) && forall d :: FenceStays(x, d) == FenceStays(c, d)
  {
  }

  lemma FenceFields(c: Core, e: Envelope)
    ensures var (f, refusal) := c.Fence(e);
            && (refusal.None? <==> Passes(c, e)) && (if Passes(c, e) then Adopted(c, e, f) else FenceStays(c, f))
            && f.admitted == c.admitted && f.sourceSeq == c.sourceSeq
            && (Passes(c, e) ==> f.generation + 1 == NextGeneration(c, e))
  {
  }

  lemma CommandTurn(c: Core, t: Turn, e: Envelope)
    requires Commands(t, e)
    ensures FenceSide(c, t, c.HandleTurn(t).0)
  {
    hide ValidEnvelope, Core.Fence, Core.Command, Adopted, NextGeneration, Passes;
    var x := c.ExpirePending(t.now);
    FenceFields(x, e);
    SameAnswers(c, x, e);
    var f := x.Fence(e).0;
    var g := f.(admitted := f.admitted + [(e.instance, e.seqNo)]);
    if g.Allocate().Some? {
      CommandLeavesFence(g.Allocate().value, e, t.snapshot, t.commitNow);
      CommandKeepsGeneration(g.Allocate().value, e, t.snapshot, t.commitNow);
      AdoptedStays(c, e, f, c.HandleTurn(t).0);
    } else if Passes(c, e) {
      AdoptedStays(c, e, f, c.HandleTurn(t).0);
    }
  }

  lemma SameAnswers(c: Core, x: Core, e: Envelope)
    requires x == c.(pending := x.pending)
    ensures Passes(x, e) == Passes(c, e) && NextGeneration(x, e) == NextGeneration(c, e)
    ensures forall d :: Adopted(x, e, d) == Adopted(c, e, d)
  {
  }

  lemma AdoptedStays(c: Core, e: Envelope, f: Core, d: Core)
    requires d.current == f.current && d.lastSeq == f.lastSeq && d.retired == f.retired
    ensures Adopted(c, e, f) == Adopted(c, e, d)
  {
  }

  /** In every state, every turn does to the fence exactly what the table says. */
  lemma EveryTurnKeepsTheFenceTable(c: Core, t: Turn)
    ensures FenceSide(c, t, c.HandleTurn(t).0)
  {
    hide Core.HandleTurn, ValidEnvelope, FenceSide;
    if t.envelope.Some? && ValidEnvelope(t.envelope.value) {
      var e := t.envelope.value;
      if e.stop || e.reading.stopClause { StopTurn(c, t, e); } else { CommandTurn(c, t, e); }
    } else {
      EmptyTurn(c, t);
    }
  }

  lemma EmptyTurn(c: Core, t: Turn)
    requires t.envelope.None? || !ValidEnvelope(t.envelope.value)
    ensures FenceSide(c, t, c.HandleTurn(t).0)
  {
    hide ValidEnvelope;
  }

  // ---- a stop outranks what came before it

  /** No command of the instance up to sequence number `n` can pass. */
  predicate Shut(c: Core, instance: string, n: int) {
    c.latched || instance in c.retired || (c.current == Some(instance) && n <= c.lastSeq)
  }

  lemma StopShuts(c: Core, t: Turn, e: Envelope)
    requires FenceInv(c) && Stops(t, e) && FenceInv(c.HandleTurn(t).0)
    ensures Shut(c.HandleTurn(t).0, e.instance, e.seqNo)
  {
    hide Core.HandleTurn, ValidEnvelope, Admissions;
    EveryTurnKeepsTheFenceTable(c, t);
  }

  lemma ShutStays(c: Core, t: Turn, instance: string, n: int)
    requires FenceInv(c) && FenceInv(c.HandleTurn(t).0) && Shut(c, instance, n)
    ensures Shut(c.HandleTurn(t).0, instance, n)
  {
    hide Core.HandleTurn, ValidEnvelope, Admissions;
    EveryTurnKeepsTheFenceTable(c, t);
  }

  lemma {:induction false} ShutForever(
      agent: string, policy: Policy, turns: seq<Turn>, i: nat, j: nat, instance: string, n: int)
    requires i <= j <= |turns| && Shut(Run(agent, policy, turns, i), instance, n)
    ensures Shut(Run(agent, policy, turns, j), instance, n)
  {
    hide Core.HandleTurn, FenceInv, Shut;
    if i < j {
      ShutForever(agent, policy, turns, i, j - 1, instance, n);
      FenceHolds(agent, policy, turns, j - 1);
      FenceHolds(agent, policy, turns, j);
      ShutStays(Run(agent, policy, turns, j - 1), turns[j - 1], instance, n);
    }
  }

  /**
    In every run, once a valid stop has been handled, no command of its Voice instance with the
    same or an older sequence number passes the fence, however late it arrives.
   */
  lemma {:induction false} StopOutranksOlderCommands(
      agent: string, policy: Policy, turns: seq<Turn>, i: nat, j: nat, stop: Envelope, command: Envelope)
    requires i < j < |turns| && Stops(turns[i], stop) && Commands(turns[j], command)
    requires command.instance == stop.instance && command.seqNo <= stop.seqNo
    ensures !Passes(Run(agent, policy, turns, j), command)
    ensures Run(agent, policy, turns, j + 1).admitted == Run(agent, policy, turns, j).admitted
  {
    hide Core.HandleTurn, FenceInv, ValidEnvelope;
    FenceHolds(agent, policy, turns, i);
    FenceHolds(agent, policy, turns, i + 1);
    StopShuts(Run(agent, policy, turns, i), turns[i], stop);
    ShutForever(agent, policy, turns, i + 1, j, stop.instance, stop.seqNo);
    CurrentIsNotRetired(agent, policy, turns, j);
    EveryTurnKeepsTheFenceTable(Run(agent, policy, turns, j), turns[j]);
  }

  lemma {:induction false} CurrentIsNotRetired(agent: string, policy: Policy, turns: seq<Turn>, j: nat)
    requires j <= |turns|
    ensures var c := Run(agent, policy, turns, j); c.current.Some? ==> c.current.value !in c.retired
    ensures var c := Run(agent, policy, turns, j); c.current.None? ==> c.retired == {}
  {
    FenceHolds(agent, policy, turns, j);
  }

  // ---- what a refused command is told

  /** The answer that a command gets which the fence does not let through. */
  predicate ToldWhy(c: Core, e: Envelope, d: Decision) {
    if !c.latched && c.current == Some(e.instance) then d == Ignored("duplicate_or_replayed_command")
    else if !c.latched && e.instance in c.retired then d == Ignored("retired_voice_instance")
    else d == ReplyDecision("voice_instance_capacity_exhausted")
  }

  /**
    A command that the fence does not let through is ignored as a replay or as from a retired
    instance, or told that the fence is shut; one that finds no number left is told so.
   */
  lemma RefusedCommandIsTold(c: Core, t: Turn, e: Envelope)
    requires Commands(t, e) && !IsServed(c, e)
    ensures var d := c.HandleTurn(t).1;
            if !Passes(c, e) then ToldWhy(c, e, d) else d == ReplyDecision("source_sequence_exhausted")
  {
    hide ValidEnvelope, Core.Command;
  }
}

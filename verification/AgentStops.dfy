/**
  When a turn makes the engine emit a stop, a Mission or a cancel, or ask the planner: the core's
  decision and the deny list together.
 */
module AgentStops {
  import opened Wrappers
  import Core = AgentCoreState
  import Engine = AgentEngineRuns
  import State = AgentEngineState
  import Theorems = AgentEngineTheorems
  import Proofs = AgentCoreProofs
  import Decisions = AgentCoreDecisions
  import Validator = MissionValidator

  /** How the engine takes the core's decision; `owned` says whether the Agent has a Mission to cancel. */
  function Taken(d: Core.Decision, owned: bool): Engine.Decision {
    match d
    case Ignored(_) => Engine.Ignored
    case StopDecision(_, _, _) => Engine.StopNow
    case MissionDecision(_, _) => Engine.Immediate(State.Mission, true)
    case CancelDecision(_, _) => if owned then Engine.Immediate(State.Cancel, true) else Engine.Immediate(State.Speak, false)
    case ClarifyDecision(_, _) => Engine.Immediate(State.Speak, true)
    case ReplyDecision(_) => Engine.Immediate(State.Speak, true)
    case PlannerNeeded(_) => Engine.NeedsPlanner
  }

  /** The deny list is for commands: a turn that is a stop by kind is never denied. */
  predicate Denied(t: Core.Turn, phrase: bool) {
    phrase && t.envelope.Some? && !t.envelope.value.stop
  }

  ghost predicate EmitsStop(c: Core.Core, t: Core.Turn, phrase: bool, owned: bool, offered: Option<State.Snapshot>) {
    exists named :: Engine.Minting(State.Halt, named)
                    in Engine.Program(Engine.Turn(Taken(c.HandleTurn(t).1, owned), Denied(t, phrase), offered))
  }

  /**
    In every state of the core, a turn has a stop emitted if and only if its envelope is valid and
    it is a stop by kind, or has a stop clause and names no denied capability.
   */
  lemma StopIsEmittedIff(c: Core.Core, t: Core.Turn, phrase: bool, owned: bool, offered: Option<State.Snapshot>)
    ensures EmitsStop(c, t, phrase, owned, offered) <==>
              t.envelope.Some? && Core.ValidEnvelope(t.envelope.value)
              && (t.envelope.value.stop || (t.envelope.value.reading.stopClause && !phrase))
  {
    hide Core.ValidEnvelope;
    Theorems.StopIsEmittedUnlessDenied(Taken(c.HandleTurn(t).1, owned), Denied(t, phrase), offered);
    Proofs.OnlyStopsStop(c, t);
  }

  // ---- Missions, cancels and the planner

  /** The program of the turn. */
  function ProgramOf(c: Core.Core, t: Core.Turn, phrase: bool, owned: bool, offered: Option<State.Snapshot>)
    : seq<Engine.Section>
  {
    Engine.Program(Engine.Turn(Taken(c.HandleTurn(t).1, owned), Denied(t, phrase), offered))
  }

  /**
    What the program emits is what the engine takes the decision for, unless it is denied; the planner
    is asked for the rest.
   */
  lemma ProgramsEmit(decision: Engine.Decision, denied: bool, offered: Option<State.Snapshot>, what: State.Effect)
    requires !what.Speak?
    ensures var p := Engine.Program(Engine.Turn(decision, denied, offered));
            && ((exists named :: Engine.Minting(State.Ordinary(what), named) in p)
                <==> decision.Immediate? && decision.what == what && !denied)
            && ((exists s: State.Snapshot :: Engine.Admitting(s) in p) <==> decision.NeedsPlanner? && !denied && offered.Some?)
            && (forall s: State.Snapshot :: Engine.Admitting(s) in p ==> offered == Some(s))
  {
    var p := Engine.Program(Engine.Turn(decision, denied, offered));
    if decision.Immediate? && decision.what == what && !denied {
      assert Engine.Minting(State.Ordinary(what), decision.named) in p;
    }
    if decision.NeedsPlanner? && !denied && offered.Some? {
      assert Engine.Admitting(offered.value) in p;
    }
  }

  /** The turn's text is a command that the core serves, with these steps, and that the deny list lets pass. */
  ghost predicate MeansMission(c: Core.Core, t: Core.Turn, phrase: bool, steps: seq<Validator.Step>) {
    && t.envelope.Some? && Decisions.Commands(t, t.envelope.value) && Decisions.IsServed(c, t.envelope.value) && !phrase
    && !t.envelope.value.reading.cancel && t.snapshot.Some? && Core.SnapshotVerdict(t.snapshot).Accepted?
    && Decisions.IsUnderstood(c, t.envelope.value, t.snapshot.value, t.now, steps)
    && Validator.Validate(steps, Decisions.NewToken(c, t.envelope.value, t.snapshot.value), c.policy).Accepted?
  }

  lemma OnlyServedCommandsCount(c: Core.Core, t: Core.Turn)
    ensures var d := c.HandleTurn(t).1;
            d.MissionDecision? || d.CancelDecision? || d.PlannerNeeded? ==>
              t.envelope.Some? && Decisions.Commands(t, t.envelope.value) && Decisions.IsServed(c, t.envelope.value)
  {
    hide Core.Core.HandleTurn, Core.ValidEnvelope, Decisions.IsServed;
    if !(t.envelope.Some? && Decisions.Commands(t, t.envelope.value) && Decisions.IsServed(c, t.envelope.value)) {
      assert forall e :: Decisions.Commands(t, e) ==> t.envelope == Some(e);
      Decisions.UnservedTurns(c, t);
    }
  }

  /** A Mission is emitted exactly when the turn means one that is valid and no denied capability is named. */
  lemma MissionIsEmittedIff(c: Core.Core, t: Core.Turn, phrase: bool, owned: bool, offered: Option<State.Snapshot>)
    ensures (exists named :: Engine.Minting(State.Ordinary(State.Mission), named) in ProgramOf(c, t, phrase, owned, offered))
            <==> exists steps :: MeansMission(c, t, phrase, steps)
  {
    hide Core.Core.HandleTurn, Core.ValidEnvelope, Core.SnapshotVerdict, Validator.Validate, Decisions.IsUnderstood,
      Decisions.IsServed, Decisions.NewToken;
    var d := c.HandleTurn(t).1;
    ProgramsEmit(Taken(d, owned), Denied(t, phrase), offered, State.Mission);
    OnlyServedCommandsCount(c, t);
    if t.envelope.Some? && Decisions.Commands(t, t.envelope.value) && Decisions.IsServed(c, t.envelope.value) {
      var e := t.envelope.value;
      Decisions.ServedCommandGets(c, t, e);
      Decisions.AcceptedIsOffered(t.snapshot);
      assert Denied(t, phrase) <==> phrase;
      if d.MissionDecision? && !phrase {
        Proofs.EveryMissionIsValid(c, t);
        assert MeansMission(c, t, phrase, d.steps);
      }
    }
  }

  /** A cancel is emitted exactly for a served command that asks for one, while the Agent owns a Mission. */
  lemma CancelIsEmittedIff(c: Core.Core, t: Core.Turn, phrase: bool, owned: bool, offered: Option<State.Snapshot>)
    ensures (exists named :: Engine.Minting(State.Ordinary(State.Cancel), named) in ProgramOf(c, t, phrase, owned, offered))
            <==> && owned && !phrase && t.envelope.Some? && Decisions.Commands(t, t.envelope.value)
                 && Decisions.IsServed(c, t.envelope.value) && t.envelope.value.reading.cancel
  {
    hide Core.Core.HandleTurn, Core.ValidEnvelope, Core.SnapshotVerdict, Decisions.IsServed;
    ProgramsEmit(Taken(c.HandleTurn(t).1, owned), Denied(t, phrase), offered, State.Cancel);
    OnlyServedCommandsCount(c, t);
    if t.envelope.Some? && Decisions.Commands(t, t.envelope.value) && Decisions.IsServed(c, t.envelope.value) {
      Decisions.ServedCommandGets(c, t, t.envelope.value);
    }
  }

  /**
    The planner is asked exactly about a served command whose text is one unknown clause that answers no
    open question.
   */
  lemma PlannerIsAskedIff(c: Core.Core, t: Core.Turn, phrase: bool, owned: bool, offered: State.Snapshot)
    ensures Engine.Admitting(offered) in ProgramOf(c, t, phrase, owned, Some(offered))
            <==> && !phrase && t.envelope.Some? && Decisions.Commands(t, t.envelope.value)
                 && Decisions.IsServed(c, t.envelope.value) && Core.SnapshotVerdict(t.snapshot).Accepted?
                 && var r := t.envelope.value.reading;
                    && !r.cancel && !r.empty && |r.clauses| == 1 && r.clauses[0] == Some(Core.UnknownClause)
                    && !Decisions.IsAsked(c, t.envelope.value, t.now)
  {
    hide Core.Core.HandleTurn, Core.ValidEnvelope, Core.SnapshotVerdict, Decisions.IsServed, Decisions.IsAsked;
    ProgramsEmit(Taken(c.HandleTurn(t).1, owned), Denied(t, phrase), Some(offered), State.Mission);
    OnlyServedCommandsCount(c, t);
    if t.envelope.Some? && Decisions.Commands(t, t.envelope.value) && Decisions.IsServed(c, t.envelope.value) {
      Decisions.ServedCommandGets(c, t, t.envelope.value);
    }
  }

  /** The turn has speech emitted and delivered. */
  ghost predicate EmitsSpeech(p: seq<Engine.Section>) {
    Engine.Delivering in p && exists named :: Engine.Minting(State.Ordinary(State.Speak), named) in p
  }

  lemma ProgramsSpeak(decision: Engine.Decision, denied: bool, offered: Option<State.Snapshot>)
    ensures EmitsSpeech(Engine.Program(Engine.Turn(decision, denied, offered)))
            <==> !decision.Ignored? && (denied || (decision.Immediate? && decision.what.Speak?))
  {
    var p := Engine.Program(Engine.Turn(decision, denied, offered));
    if !decision.Ignored? && denied {
      assert Engine.Minting(State.Ordinary(State.Speak), true) in p && Engine.Delivering in p;
    } else if decision.Immediate? && decision.what.Speak? {
      assert Engine.Minting(State.Ordinary(State.Speak), decision.named) in p && Engine.Delivering in p;
    }
  }

  /**
    A turn is answered with words alone exactly when it is not ignored and names a denied
    capability, is asked a question, is refused with a reason, or asks to cancel a Mission that the Agent does not own.
   */
  lemma SpeechIsEmittedIff(c: Core.Core, t: Core.Turn, phrase: bool, owned: bool, offered: Option<State.Snapshot>)
    ensures var d := c.HandleTurn(t).1;
            EmitsSpeech(ProgramOf(c, t, phrase, owned, offered))
            <==> !d.Ignored? && (|| Denied(t, phrase) || d.ClarifyDecision? || d.ReplyDecision?
                                 || (d.CancelDecision? && !owned))
  {
    hide Core.Core.HandleTurn;
    ProgramsSpeak(Taken(c.HandleTurn(t).1, owned), Denied(t, phrase), offered);
  }
}

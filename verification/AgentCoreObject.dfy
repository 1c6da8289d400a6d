/** The core object: the fence fields and the clarification table updated in place, and the validator's loop. */
module AgentCoreObject {
  import opened Wrappers
  import opened MissionValidator
  import opened AgentCoreState
  import opened AgentCoreProofs

  /** The validator's walk over the steps, stopping at the first rejection. */
  method ValidateSteps(steps: seq<Step>, t: Token, p: Policy) returns (v: Verdict)
    ensures v == Validate(steps, t, p)
  {
    v := TokenVerdict(t);
    if v.Rejected? {
      return;
    }
    if !(1 <= |steps| <= 3) {
      return Rejected("invalid_step_count");
    }
    if t.snapshot.maxSteps < |steps| {
      return Rejected("step_count_exceeds_snapshot");
    }
    if p.maxSteps < |steps| {
      return Rejected("step_count_exceeds_policy");
    }
    for i := 0 to |steps|
      invariant StepsVerdict(steps, i, t.snapshot, p) == StepsVerdict(steps, 0, t.snapshot, p)
    {
      var step := StepVerdict(steps[i], t.snapshot, p);
      if step.Rejected? {
        return step;
      }
    }
    return Accepted;
  }

  class AgentCore {
    const agent: string
    const policy: Policy
    var sourceSeq: int
    var generation: int
    var current: Option<string>
    var lastSeq: int
    var retired: set<string>
    var latched: bool
    var pending: map<string, Pending>
    ghost var admitted: seq<(string, int)>
    ghost var sequences: seq<int>
    var asked: nat
    ghost var answered: seq<nat>

    ghost function View(): Core
      reads this
    {
      Core(agent, policy, sourceSeq, generation, current, lastSeq, retired, latched, pending,
           admitted, sequences, asked, answered)
    }

    /** The fence, the sequence numbers and the table of clarifications are as every run keeps them. */
    ghost predicate Valid()
      reads this
    {
      FenceInv(View()) && Sequences(View()) && Clarifications(View())
    }

    constructor (agent: string, policy: Policy)
      requires BoundedId(agent)
      ensures Valid() && View() == NewCore(agent, policy)
    {
      this.agent, this.policy := agent, policy;
      sourceSeq, generation, current, lastSeq := 0, 0, None, -1;
      retired, latched, pending := {}, false, map[];
      admitted, sequences, asked, answered := [], [], 0, [];
    }

    method ExpirePending(now: real)
      modifies this`pending
      ensures View() == old(View()).ExpirePending(now)
    {
      var sessions := pending.Keys;
      while sessions != {}
        invariant sessions <= old(pending).Keys && pending.Keys <= old(pending).Keys
        invariant forall s :: s in old(pending) ==>
          && (s in pending <==> s in sessions || now < old(pending)[s].createdAt + policy.clarificationTimeout)
          && (s in pending ==> pending[s] == old(pending)[s])
        decreases |sessions|
      {
        var s :| s in sessions;
        sessions := sessions - {s};
        if pending[s].createdAt + policy.clarificationTimeout <= now {
          pending := pending - {s};
        }
      }
      assert pending == old(View()).ExpirePending(now).pending;
    }

    method RotateGeneration()
      modifies this`generation
      ensures View() == old(View()).Rotate()
    {
      if generation < MAX_UINT64 {
        generation := generation + 1;
      }
    }

    method FenceCommand(e: Envelope) returns (refusal: Option<Decision>)
      modifies this
      ensures (View(), refusal) == old(View()).Fence(e)
    {
      if latched {
        return Some(ReplyDecision("voice_instance_capacity_exhausted"));
      }
      if current.None? {
        current, lastSeq := Some(e.instance), e.seqNo;
        return None;
      }
      if e.instance == current.value {
        if e.seqNo <= lastSeq {
          return Some(Ignored("duplicate_or_replayed_command"));
        }
        lastSeq := e.seqNo;
        return None;
      }
      if e.instance in retired {
        return Some(Ignored("retired_voice_instance"));
      }
      if MAX_RETIRED_VOICE_INSTANCES <= |retired| {
        latched := true;
        return Some(ReplyDecision("voice_instance_capacity_exhausted"));
      }
      retired := retired + {current.value};
      current, lastSeq := Some(e.instance), e.seqNo;
      pending := map[];
      RotateGeneration();
      if MAX_RETIRED_VOICE_INSTANCES <= |retired| {
        latched := true;
      }
      return None;
    }

    method ObserveStopVoice(e: Envelope)
      modifies this
      ensures View() == old(View()).ObserveStop(e)
    {
      if !latched {
        if current.None? {
          current, lastSeq := Some(e.instance), e.seqNo;
        } else if e.instance == current.value {
          lastSeq := if lastSeq < e.seqNo then e.seqNo else lastSeq;
        } else if e.instance !in retired && |retired| < MAX_RETIRED_VOICE_INSTANCES {
          retired := retired + {current.value};
          current, lastSeq := Some(e.instance), e.seqNo;
          if MAX_RETIRED_VOICE_INSTANCES <= |retired| {
            latched := true;
          }
        }
      }
      pending := map[];
      RotateGeneration();
    }

    method AllocateCommand() returns (given: bool)
      modifies this
      ensures given == old(View()).Allocate().Some?
      ensures View() == if given then old(View()).Allocate().value else old(View())
    {
      if MAX_UINT64 <= sourceSeq || MAX_UINT64 <= generation {
        return false;
      }
      sourceSeq := sourceSeq + 1;
      generation := generation + 1;
      sequences := sequences + [sourceSeq];
      return true;
    }

    /** Checks the known steps, then replaces the session's clarification. */
    method CommitPending(i: Intent, e: Envelope, t: Token, now: real) returns (refusal: Option<Decision>)
      modifies this
      ensures (View(), refusal) == old(View()).CommitPending(i, e, t, now)
    {
      hide Validate;
      pending := pending - {e.session};
      var siblings := i.prefix + i.suffix;
      if siblings != [] {
        var v := ValidateSteps(siblings + [siblings[0]], t, policy);
        if v.Rejected? {
          return Some(ReplyDecision(v.reason));
        }
      }
      if policy.clarificationCapacity <= |pending| {
        return Some(ReplyDecision("clarification_capacity_exhausted"));
      }
      pending := pending[e.session := Pending(i, now, t, asked)];
      asked := asked + 1;
      return None;
    }

    method Decide(parse: Parse, e: Envelope, t: Token, now: real) returns (d: Decision)
      modifies this
      ensures (View(), d) == old(View()).Decide(parse, e, t, now)
    {
      match parse
      case CancelTask => d := CancelDecision(t.sourceSeq, e.session);
      case Invalid(reason) => d := ReplyDecision(reason);
      case Unknown => d := PlannerNeeded(t);
      case Complete(steps) =>
        var v := ValidateSteps(steps, t, policy);
        d := if v.Rejected? then ReplyDecision(v.reason) else MissionDecision(steps, t);
      case Missing(i) =>
        var refusal := CommitPending(i, e, t, now);
        d := match refusal case Some(r) => r case None => ClarifyDecision(e.session, i.parameter);
      case AskAgain(i) =>
        var refusal := CommitPending(i, e, t, now);
        d := match refusal case Some(r) => r case None => ClarifyDecision(e.session, i.parameter);
    }

    /**
      One turn. Stops are decided for exactly the valid stop envelopes and stop clauses, in every
      state; a Mission is decided only validated against its own token with the next source
      sequence; and the fence, the sequences and the clarifications keep what they promise.
     */
    method HandleTurn(turn: Turn) returns (d: Decision)
      requires Valid()
      modifies this
      ensures Valid() && (View(), d) == old(View()).HandleTurn(turn)
      ensures d.StopDecision? <==>
                turn.envelope.Some? && ValidEnvelope(turn.envelope.value)
                && (turn.envelope.value.stop || turn.envelope.value.reading.stopClause)
      ensures d.MissionDecision? ==>
                Validate(d.steps, d.token, policy).Accepted? && d.token.sourceSeq == old(sourceSeq) + 1
    {
      hide FenceInv, Sequences, Clarifications, Validate, Core.HandleTurn;
      ghost var c := View();
      TurnKeepsFence(c, turn);
      TurnKeepsSequences(c, turn);
      TurnKeepsClarifications(c, turn);
      OnlyStopsStop(c, turn);
      d := Decided(turn);
      if d.MissionDecision? {
        EveryMissionIsValid(c, turn);
      }
    }

    method Decided(turn: Turn) returns (d: Decision)
      modifies this
      ensures (View(), d) == old(View()).HandleTurn(turn)
    {
      ExpirePending(turn.now);
      if turn.envelope.None? || !ValidEnvelope(turn.envelope.value) {
        return Ignored("invalid_envelope");
      }
      var e := turn.envelope.value;
      if e.stop || e.reading.stopClause {
        ObserveStopVoice(e);
        return StopDecision(e.turn, e.instance, e.seqNo);
      }
      var refusal := FenceCommand(e);
      if refusal.Some? {
        return refusal.value;
      }
      admitted := admitted + [(e.instance, e.seqNo)];
      var given := AllocateCommand();
      if !given {
        return ReplyDecision("source_sequence_exhausted");
      }
      d := Command(e, turn.snapshot, turn.commitNow);
    }

    method Command(e: Envelope, offered: Option<Snapshot>, now: real) returns (d: Decision)
      modifies this
      ensures (View(), d) == old(View()).Command(e, offered, now)
    {
      var waiting := if e.session in pending then Some(pending[e.session]) else None;
      if waiting.Some? {
        answered := answered + [waiting.value.id];
      }
      pending := pending - {e.session};
      if e.reading.cancel {
        return CancelDecision(sourceSeq, e.session);
      }
      var v := SnapshotVerdict(offered);
      if v.Rejected? {
        return ReplyDecision(v.reason);
      }
      var t := Token(agent, sourceSeq, e.instance, e.seqNo, e.session, e.turn, generation, offered.value);
      var parse := ParseText(e.reading);
      if parse.Unknown? && waiting.Some? {
        parse := AnswerPending(e.reading, waiting.value.intent, offered.value, policy);
      }
      d := Decide(parse, e, t, now);
    }
  }
}

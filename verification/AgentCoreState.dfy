/**
  The Agent core: the fence over Voice instances and sequences, the command allocation, and the
  table of pending clarifications. Recognising clauses in text is left to the turn; combining
  clauses, answering and deciding are modelled.
 */
module AgentCoreState {
  import opened Wrappers
  import opened MissionValidator

  const MAX_RETIRED_VOICE_INSTANCES: nat := 64

  datatype Parameter = Distance | Angle | Place | Map

  datatype Intent = Intent(parameter: Parameter, sign: int, prefix: seq<Step>, suffix: seq<Step>)

  /** A stored clarification: when it was made, for which token, and the how-manieth it was. */
  datatype Pending = Pending(intent: Intent, createdAt: real, token: Token, id: nat)

  datatype Clause =
    | StepClause(step: Step)
    | MissingClause(parameter: Parameter, sign: int)
    | InvalidClause(reason: string)
    | CancelClause
    | UnknownClause

  /** A number read out of the text of an answer. */
  datatype Quantity = NoMatch | BadNumber | Quantity(value: real)

  /** What the text of a turn reads as: clause by clause, and as an answer to each kind of question. */
  datatype Reading = Reading(
    stopClause: bool,
    empty: bool,
    cancel: bool,
    clauses: seq<Option<Clause>>,   // `None` for an empty clause
    distance: Quantity,
    degrees: Quantity,
    wireAngle: real,                // the single-precision angle of `degrees`
    place: string,                  // empty if the text holds a space
    mapId: string)

  datatype Envelope = Envelope(instance: string, seqNo: int, session: string, turn: string, stop: bool,
                               textLength: nat, confidence: Number, reading: Reading)

  /** One turn: the envelope as received, the snapshot offered with it, and the clock readings made. */
  datatype Turn = Turn(envelope: Option<Envelope>, snapshot: Option<Snapshot>, now: real, commitNow: real)

  datatype Decision =
    | MissionDecision(steps: seq<Step>, token: Token)
    | CancelDecision(sourceSeq: int, session: string)
    | StopDecision(requestId: string, instance: string, seqNo: int)
    | ClarifyDecision(session: string, parameter: Parameter)
    | ReplyDecision(reason: string)
    | PlannerNeeded(token: Token)
    | Ignored(reason: string)

  datatype Parse =
    | Complete(steps: seq<Step>)
    | Missing(intent: Intent)
    | Invalid(reason: string)
    | Unknown
    | CancelTask
    | AskAgain(intent: Intent)

  // ---- reading a turn

  predicate ValidEnvelope(e: Envelope) {
    && BoundedId(e.instance) && Uint64(e.seqNo) && BoundedId(e.session) && BoundedId(e.turn) && e.textLength <= 512
    && e.confidence.Finite? && 0.0 <= e.confidence.value <= 1.0
  }

  function SnapshotVerdict(o: Option<Snapshot>): Verdict {
    match o
    case None => Rejected("runtime_snapshot_missing")
    case Some(s) =>
      if !BoundedId(s.runtimeInstance) then Rejected("invalid_runtime_instance_id")
      else if !Uint64(s.admissionEpoch) || s.admissionEpoch == 0 then Rejected("invalid_admission_epoch")
      else if s.operatingMode != MAPPING && s.operatingMode != NAVIGATION then Rejected("invalid_operating_mode")
      else if s.availability != AVAILABLE then Rejected("runtime_not_available")
      else if s.gateState != GATE_INHIBITED then Rejected("gate_not_inhibited")
      else if !(1 <= s.maxSteps <= 3) then Rejected("invalid_max_steps")
      else if !(0 <= s.activeStep <= 0xFFFF_FFFF) then Rejected("invalid_active_step")
      else if !Uint8(s.supportedSteps) || 15 < s.supportedSteps then Rejected("invalid_capability_mask")
      else PlacesVerdict(s.places)
  }

  /** The known steps of some clauses, in order. */
  function StepsOf(clauses: seq<Option<Clause>>, lo: nat, hi: nat): seq<Step>
    requires lo <= hi <= |clauses|
  {
    if lo == hi then []
    else
      var front := StepsOf(clauses, lo, hi - 1);
      if clauses[hi - 1].Some? && clauses[hi - 1].value.StepClause? then front + [clauses[hi - 1].value.step] else front
  }

  predicate Has(clauses: seq<Option<Clause>>, i: nat, p: Clause -> bool) {
    i < |clauses| && clauses[i].Some? && p(clauses[i].value)
  }

  /** The first clause at or after `i` with the property, or the length if there is none. */
  function First(clauses: seq<Option<Clause>>, i: nat, p: Clause -> bool): (k: nat)
    requires i <= |clauses|
    ensures i <= k <= |clauses|
    ensures k < |clauses| ==> Has(clauses, k, p)
    ensures forall j :: i <= j < k ==> !Has(clauses, j, p)
    decreases |clauses| - i
  {
    if i == |clauses| || Has(clauses, i, p) then i else First(clauses, i + 1, p)
  }

  function ParseText(r: Reading): Parse {
    var cs := r.clauses;
    var n := |cs|;
    if r.empty then Invalid("empty_command")
    else if r.cancel then CancelTask
    else if 3 < n then Invalid("too_many_steps")
    else if exists i :: 0 <= i < n && cs[i].None? then Invalid("empty_clause")
    else
      var unknown := First(cs, 0, (c: Clause) => c.UnknownClause?);
      var invalid := First(cs, 0, (c: Clause) => c.InvalidClause?);
      var missing := First(cs, 0, (c: Clause) => c.MissingClause?);
      if unknown < n && 1 < n then Invalid("mixed_unknown_rule")
      else if invalid < n then Invalid(cs[invalid].value.reason)
      else if First(cs, 0, (c: Clause) => c.CancelClause?) < n then Invalid("mixed_cancel")
      else if unknown < n then Unknown
      else if missing == n then Complete(StepsOf(cs, 0, n))
      else if First(cs, missing + 1, (c: Clause) => c.MissingClause?) < n then Invalid("multiple_missing_parameters")
      else
        var c := cs[missing].value;
        Missing(Intent(c.parameter, c.sign, StepsOf(cs, 0, missing), StepsOf(cs, missing + 1, n)))
  }

  /** The step that an answer reads as, for a text that answers the question. */
  function AnswerOf(r: Reading, i: Intent, p: Policy): Step {
    match i.parameter
    case Distance =>
      Step(MOVE_DISTANCE, Finite(if r.distance.Quantity? then i.sign as real * r.distance.value else 0.0), ZERO, "")
    case Angle =>
      Step(ROTATE_ANGLE, ZERO,
           Finite(if !r.degrees.Quantity? then 0.0
                  else if r.degrees.value == 360.0 then i.sign as real * p.runtimeRotateMax
                  else i.sign as real * r.wireAngle), "")
    case Place => Step(NAVIGATE_TO, ZERO, ZERO, r.place)
    case Map => Step(SAVE_MAP, ZERO, ZERO, r.mapId)
  }

  function AnswerPending(r: Reading, i: Intent, s: Snapshot, p: Policy): Parse {
    var completed := Complete(i.prefix + [AnswerOf(r, i, p)] + i.suffix);
    match i.parameter
    case Distance =>
      (match r.distance
       case NoMatch => AskAgain(i)
       case BadNumber => Invalid("invalid_number")
       case Quantity(_) => completed)
    case Angle =>
      (match r.degrees
       case NoMatch => AskAgain(i)
       case BadNumber => Invalid("invalid_number")
       case Quantity(degrees) =>
         if degrees < 0.0 || 360.0 < degrees then Invalid("angle_out_of_range") else completed)
    case Place =>
      if r.place == "" then AskAgain(i)
      else if !ValidLogicalId(r.place) then Invalid("invalid_place_id")
      else if r.place !in s.places then Invalid("unknown_place")
      else completed
    case Map =>
      if r.mapId == "" then AskAgain(i)
      else if !ValidLogicalId(r.mapId) then Invalid("invalid_map_id")
      else completed
  }

  // ---- the state

  /** The fields, and the history of admitted commands, allocated sequences and clarifications used. */
  datatype Core = Core(
    agent: string,
    policy: Policy,
    sourceSeq: int,
    generation: int,
    current: Option<string>,
    lastSeq: int,
    retired: set<string>,
    latched: bool,
    pending: map<string, Pending>,
    admitted: seq<(string, int)>,
    sequences: seq<int>,
    asked: nat,
    answered: seq<nat>
  ) {
    function ExpirePending(now: real): Core {
      this.(pending := (map s | s in pending && now < pending[s].createdAt + policy.clarificationTimeout :: pending[s]))
    }

    function Rotate(): Core {
      if generation < MAX_UINT64 then this.(generation := generation + 1) else this
    }

    function Adopt(e: Envelope): Core {
      this.(current := Some(e.instance), lastSeq := e.seqNo)
    }

    function Retire(instance: string): Core {
      var r := retired + {instance};
      this.(retired := r, latched := latched || MAX_RETIRED_VOICE_INSTANCES <= |r|)
    }

    /** Whether a command passes; `None` means that it does. */
    function Fence(e: Envelope): (Core, Option<Decision>) {
      var refusal := Some(ReplyDecision("voice_instance_capacity_exhausted"));
      if latched then (this, refusal)
      else if current.None? then (this.Adopt(e), None)
      else if current.value == e.instance then
        if e.seqNo <= lastSeq then (this, Some(Ignored("duplicate_or_replayed_command"))) else (this.Adopt(e), None)
      else if e.instance in retired then (this, Some(Ignored("retired_voice_instance")))
      else if MAX_RETIRED_VOICE_INSTANCES <= |retired| then (this.(latched := true), refusal)
      else (Retire(current.value).Adopt(e).(pending := map[]).Rotate(), None)
    }

    function ObserveStop(e: Envelope): Core {
      var c :=
        if latched then this
        else if current.None? then this.Adopt(e)
        else if current.value == e.instance then this.(lastSeq := if lastSeq < e.seqNo then e.seqNo else lastSeq)
        else if e.instance !in retired && |retired| < MAX_RETIRED_VOICE_INSTANCES
        then Retire(current.value).Adopt(e)
        else this;
      c.(pending := map[]).Rotate()
    }

    function Allocate(): Option<Core> {
      if MAX_UINT64 <= sourceSeq || MAX_UINT64 <= generation then None
      else Some(this.(sourceSeq := sourceSeq + 1, generation := generation + 1, sequences := sequences + [sourceSeq + 1]))
    }

    function TokenFor(e: Envelope, s: Snapshot): Token {
      Token(agent, sourceSeq, e.instance, e.seqNo, e.session, e.turn, generation, s)
    }

    function CommitPending(i: Intent, e: Envelope, t: Token, now: real): (Core, Option<Decision>) {
      var c := this.(pending := pending - {e.session});
      var v := SiblingVerdict(i.prefix, i.suffix, t, policy);
      if v.Rejected? then (c, Some(ReplyDecision(v.reason)))
      else if policy.clarificationCapacity <= |c.pending| then (c, Some(ReplyDecision("clarification_capacity_exhausted")))
      else (c.(pending := c.pending[e.session := Pending(i, now, t, asked)], asked := asked + 1), None)
    }

    function Ask(i: Intent, e: Envelope, t: Token, now: real): (Core, Decision) {
      var (c, refusal) := CommitPending(i, e, t, now);
      (c, match refusal case Some(d) => d case None => ClarifyDecision(e.session, i.parameter))
    }

    function Decide(parse: Parse, e: Envelope, t: Token, now: real): (Core, Decision) {
      match parse
      case CancelTask => (this, CancelDecision(t.sourceSeq, e.session))
      case Missing(i) => Ask(i, e, t, now)
      case AskAgain(i) => Ask(i, e, t, now)
      case Invalid(reason) => (this, ReplyDecision(reason))
      case Unknown => (this, PlannerNeeded(t))
      case Complete(steps) =>
        var v := Validate(steps, t, policy);
        (this, if v.Rejected? then ReplyDecision(v.reason) else MissionDecision(steps, t))
    }

    /** The session's clarification, if there is one, is used up whatever follows. */
    function UseUp(session: string): Core {
      this.(pending := pending - {session},
            answered := if session in pending then answered + [pending[session].id] else answered)
    }

    /** What the text comes to, read on its own or, failing that, as the answer that was asked for. */
    function Understand(e: Envelope, s: Snapshot): Parse {
      var parse := ParseText(e.reading);
      if parse.Unknown? && e.session in pending
      then AnswerPending(e.reading, pending[e.session].intent, s, policy) else parse
    }

    /** A command past the fence with its sequence allocated. */
    function Command(e: Envelope, offered: Option<Snapshot>, now: real): (Core, Decision) {
      var c := UseUp(e.session);
      var v := SnapshotVerdict(offered);
      if e.reading.cancel then (c, CancelDecision(sourceSeq, e.session))
      else if v.Rejected? then (c, ReplyDecision(v.reason))
      else c.Decide(Understand(e, offered.value), e, TokenFor(e, offered.value), now)
    }

    function HandleTurn(t: Turn): (Core, Decision) {
      var c := ExpirePending(t.now);
      if t.envelope.None? || !ValidEnvelope(t.envelope.value) then (c, Ignored("invalid_envelope"))
      else
        var e := t.envelope.value;
        if e.stop || e.reading.stopClause then (c.ObserveStop(e), StopDecision(e.turn, e.instance, e.seqNo))
        else
          var (f, refusal) := c.Fence(e);
          if refusal.Some? then (f, refusal.value)
          else
            var g := f.(admitted := f.admitted + [(e.instance, e.seqNo)]);
            match g.Allocate()
            case None => (g, ReplyDecision("source_sequence_exhausted"))
            case Some(h) => h.Command(e, t.snapshot, t.commitNow)
    }
  }

  function NewCore(agent: string, policy: Policy): Core {
    Core(agent, policy, 0, 0, None, -1, {}, false, map[], [], [], 0, [])
  }
}

/** The semantic validator that every Mission passes, whether it comes from a rule or a planner. */
module MissionValidator {
  import opened Wrappers

  const MAX_UINT64: nat := 0xFFFF_FFFF_FFFF_FFFF
  const MAX_ID_LENGTH: nat := 36
  const MAX_PLACES: nat := 32
  const MAPPING: int := 1
  const NAVIGATION: int := 2
  const AVAILABLE: int := 1
  const GATE_INHIBITED: int := 0
  const MOVE_DISTANCE: int := 1
  const ROTATE_ANGLE: int := 2
  const NAVIGATE_TO: int := 3
  const SAVE_MAP: int := 4

  /** A floating-point value that need not be finite. */
  datatype Number = NotFinite | Finite(value: real)

  const ZERO := Finite(0.0)

  datatype Step = Step(kind: int, distance: Number, angle: Number, target: string)

  /** `wire` is the rounding to a single-precision value; it is not interpreted here. */
  datatype Policy = Policy(
    maxSteps: int,
    moveMin: real,
    moveMax: real,
    rotateMin: real,
    rotateMax: real,
    runtimeRotateMax: real,
    clarificationTimeout: real,
    clarificationCapacity: nat,
    wire: real -> Option<real>)

  /** The Runtime's side of a plan: what a step is judged by. */
  datatype Snapshot = Snapshot(
    runtimeInstance: string,
    admissionEpoch: int,
    operatingMode: int,
    availability: int,
    gateState: int,
    activeStep: int,
    supportedSteps: int,
    maxSteps: int,
    places: seq<string>)

  /** The identity of one command and the snapshot it was planned against. */
  datatype Token = Token(
    sourceInstance: string,
    sourceSeq: int,
    voiceInstance: string,
    voiceSeq: int,
    session: string,
    turn: string,
    generation: int,
    snapshot: Snapshot)

  datatype Verdict = Accepted | Rejected(reason: string)

  predicate BoundedId(id: string) {
    0 < |id| <= MAX_ID_LENGTH
  }

  predicate Uint64(n: int) {
    0 <= n <= MAX_UINT64
  }

  predicate Uint8(n: int) {
    0 <= n <= 255
  }

  predicate ValidLogicalId(id: string) {
    && 0 < |id| <= 32 && 'a' <= id[0] <= 'z'
    && forall i :: 0 < i < |id| ==> 'a' <= id[i] <= 'z' || '0' <= id[i] <= '9' || id[i] == '_' || id[i] == '-'
  }

  predicate Distinct(ids: seq<string>) {
    forall i, j :: 0 <= i < j < |ids| ==> ids[i] != ids[j]
  }

  function PlacesVerdict(places: seq<string>): Verdict {
    if MAX_PLACES < |places| then Rejected("too_many_named_places")
    else if !Distinct(places) then Rejected("duplicate_named_place")
    else if exists i :: 0 <= i < |places| && !ValidLogicalId(places[i]) then Rejected("invalid_named_place_id")
    else Accepted
  }

  function TokenVerdict(t: Token): Verdict {
    var s := t.snapshot;
    if !BoundedId(t.sourceInstance) then Rejected("invalid_source_instance_id")
    else if !Uint64(t.sourceSeq) || t.sourceSeq == 0 then Rejected("invalid_source_sequence")
    else if !BoundedId(t.voiceInstance) then Rejected("invalid_voice_instance_id")
    else if !Uint64(t.voiceSeq) then Rejected("invalid_voice_sequence")
    else if !BoundedId(t.session) then Rejected("invalid_session_id")
    else if !BoundedId(t.turn) then Rejected("invalid_turn_id")
    else if !Uint64(t.generation) || t.generation == 0 then Rejected("invalid_local_generation")
    else if !BoundedId(s.runtimeInstance) then Rejected("invalid_runtime_instance_id")
    else if !Uint64(s.admissionEpoch) || s.admissionEpoch == 0 then Rejected("invalid_admission_epoch")
    else if s.operatingMode != MAPPING && s.operatingMode != NAVIGATION then Rejected("invalid_operating_mode")
    else if !Uint8(s.supportedSteps) || 15 < s.supportedSteps then Rejected("invalid_capability_mask")
    else if !(1 <= s.maxSteps <= 3) then Rejected("invalid_max_steps")
    else if s.availability != AVAILABLE then Rejected("runtime_not_available")
    else if s.gateState != GATE_INHIBITED then Rejected("gate_not_inhibited")
    else PlacesVerdict(s.places)
  }

  function Abs(x: real): real {
    if x < 0.0 then -x else x
  }

  predicate WithinSignedRange(v: Number, lo: real, hi: real) {
    v.Finite? && lo <= Abs(v.value) <= hi && v.value != 0.0
  }

  predicate WithinAngleWireRange(v: Number, p: Policy) {
    v.Finite? &&
    match (p.wire(v.value), p.wire(p.rotateMin), p.wire(p.rotateMax))
    case (Some(w), Some(lo), Some(hi)) =>
      lo <= Abs(w) <= (if p.runtimeRotateMax < hi then p.runtimeRotateMax else hi) && w != 0.0
    case _ => false
  }

  predicate Supports(mask: int, kind: int)
    requires 0 <= mask && MOVE_DISTANCE <= kind <= SAVE_MAP
  {
    var bit := if kind == MOVE_DISTANCE then 1 else if kind == ROTATE_ANGLE then 2 else if kind == NAVIGATE_TO then 4 else 8;
    mask / bit % 2 == 1
  }

  function UnionVerdict(step: Step, s: Snapshot, p: Policy): Verdict {
    if step.kind == MOVE_DISTANCE then
      if step.angle != ZERO || step.target != "" then Rejected("invalid_union")
      else if !WithinSignedRange(step.distance, p.moveMin, p.moveMax) then Rejected("distance_out_of_range")
      else Accepted
    else if step.kind == ROTATE_ANGLE then
      if step.distance != ZERO || step.target != "" then Rejected("invalid_union")
      else if !WithinAngleWireRange(step.angle, p) then Rejected("angle_out_of_range")
      else Accepted
    else if step.distance != ZERO || step.angle != ZERO then Rejected("invalid_union")
    else if step.kind == NAVIGATE_TO then
      if s.operatingMode != NAVIGATION then Rejected("mode_mismatch")
      else if !ValidLogicalId(step.target) then Rejected("invalid_place_id")
      else if step.target !in s.places then Rejected("unknown_place")
      else Accepted
    else
      if s.operatingMode != MAPPING then Rejected("mode_mismatch")
      else if !ValidLogicalId(step.target) then Rejected("invalid_map_id")
      else Accepted
  }

  function StepVerdict(step: Step, s: Snapshot, p: Policy): Verdict
    requires 0 <= s.supportedSteps
  {
    if !(MOVE_DISTANCE <= step.kind <= SAVE_MAP) then Rejected("unknown_step_kind")
    else if step.distance.NotFinite? || step.angle.NotFinite? then Rejected("non_finite_step")
    else
      var v := UnionVerdict(step, s, p);
      if v.Rejected? then v
      else if !Supports(s.supportedSteps, step.kind) then Rejected("unsupported_step")
      else Accepted
  }

  /** The first rejection among the steps from `i` on. */
  function StepsVerdict(steps: seq<Step>, i: nat, s: Snapshot, p: Policy): Verdict
    requires i <= |steps| && 0 <= s.supportedSteps
    decreases |steps| - i
  {
    if i == |steps| then Accepted
    else
      var v := StepVerdict(steps[i], s, p);
      if v.Rejected? then v else StepsVerdict(steps, i + 1, s, p)
  }

  function Validate(steps: seq<Step>, t: Token, p: Policy): Verdict {
    var token := TokenVerdict(t);
    if token.Rejected? then token
    else if !(1 <= |steps| <= 3) then Rejected("invalid_step_count")
    else if t.snapshot.maxSteps < |steps| then Rejected("step_count_exceeds_snapshot")
    else if p.maxSteps < |steps| then Rejected("step_count_exceeds_policy")
    else StepsVerdict(steps, 0, t.snapshot, p)
  }

  /** The steps are accepted exactly when each of them is. */
  lemma {:induction false} StepsAcceptedIndividually(steps: seq<Step>, i: nat, s: Snapshot, p: Policy)
    requires i <= |steps| && 0 <= s.supportedSteps
    ensures StepsVerdict(steps, i, s, p).Accepted?
        <==> forall k :: i <= k < |steps| ==> StepVerdict(steps[k], s, p).Accepted?
    decreases |steps| - i
  {
    if i < |steps| {
      StepsAcceptedIndividually(steps, i + 1, s, p);
    }
  }

  /** A Mission is accepted when its token is, its length fits every bound, and every step is. */
  lemma AcceptedMeans(steps: seq<Step>, t: Token, p: Policy)
    ensures Validate(steps, t, p).Accepted? <==>
              && TokenVerdict(t).Accepted?
              && 1 <= |steps| <= 3 && |steps| <= t.snapshot.maxSteps && |steps| <= p.maxSteps
              && forall k :: 0 <= k < |steps| ==>
                   t.snapshot.supportedSteps >= 0 && StepVerdict(steps[k], t.snapshot, p).Accepted?
  {
    if TokenVerdict(t).Accepted? {
      StepsAcceptedIndividually(steps, 0, t.snapshot, p);
    }
  }

  /** The check made before a clarification is stored: the known steps, with one of them standing in for the answer. */
  function SiblingVerdict(prefix: seq<Step>, suffix: seq<Step>, t: Token, p: Policy): Verdict {
    var siblings := prefix + suffix;
    if siblings == [] then Accepted else Validate(siblings + [siblings[0]], t, p)
  }

  /**
    A clarification that passed its check is completed soundly: under the same snapshot the whole
    Mission is accepted if and only if the answer on its own is.
   */
  lemma ClarificationIsSound(prefix: seq<Step>, suffix: seq<Step>, answer: Step, t: Token, u: Token, p: Policy)
    requires SiblingVerdict(prefix, suffix, t, p).Accepted? && u.snapshot == t.snapshot
    ensures Validate(prefix + [answer] + suffix, u, p).Accepted? <==> Validate([answer], u, p).Accepted?
  {
    var siblings, whole := prefix + suffix, prefix + [answer] + suffix;
    AcceptedMeans(whole, u, p);
    AcceptedMeans([answer], u, p);
    if siblings == [] {
      assert whole == [answer];
    } else {
      AcceptedMeans(siblings + [siblings[0]], t, p);
      assert whole[|prefix|] == answer;
      assert [answer][0] == answer;
      forall k | 0 <= k < |whole| && k != |prefix|
        ensures StepVerdict(whole[k], t.snapshot, p).Accepted?
      {
        var j := if k < |prefix| then k else k - 1;
        assert whole[k] == (siblings + [siblings[0]])[j];
      }
    }
  }
}

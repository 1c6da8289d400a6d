/** What an accepted Mission, and an accepted snapshot, are made of: every bound, mode and place by its value. */
module MissionMeaning {
  import opened Wrappers
  import opened MissionValidator
  import opened AgentCoreState

  /** Neither zero nor, taken without its sign, out of bounds. */
  predicate NonZeroWithin(v: real, lo: real, hi: real) {
    v != 0.0 && (0.0 < v ==> lo <= v <= hi) && (v < 0.0 ==> lo <= -v <= hi)
  }

  /** A drive straight ahead or back, within the policy's distances. */
  predicate IsMove(step: Step, s: Snapshot, p: Policy) {
    && step.kind == 1 && step.angle == Finite(0.0) && step.target == ""
    && step.distance.Finite? && NonZeroWithin(step.distance.value, p.moveMin, p.moveMax)
    && s.supportedSteps % 2 == 1
  }

  /** A turn whose single-precision angle is within the policy's and the Runtime's. */
  predicate IsTurn(step: Step, s: Snapshot, p: Policy) {
    && step.kind == 2 && step.distance == Finite(0.0) && step.target == ""
    && step.angle.Finite? && p.wire(step.angle.value).Some? && p.wire(p.rotateMin).Some? && p.wire(p.rotateMax).Some?
    && NonZeroWithin(p.wire(step.angle.value).value, p.wire(p.rotateMin).value, p.wire(p.rotateMax).value)
    && -p.runtimeRotateMax <= p.wire(step.angle.value).value <= p.runtimeRotateMax
    && s.supportedSteps / 2 % 2 == 1
  }

  /** A drive to a place that the Runtime knows, while it navigates. */
  predicate IsVisit(step: Step, s: Snapshot) {
    && step.kind == 3 && step.distance == Finite(0.0) && step.angle == Finite(0.0)
    && s.operatingMode == 2 && step.target in s.places && ValidLogicalId(step.target)
    && s.supportedSteps / 4 % 2 == 1
  }

  /** The saving of a map under a well-formed name, while the Runtime maps. */
  predicate IsSave(step: Step, s: Snapshot) {
    && step.kind == 4 && step.distance == Finite(0.0) && step.angle == Finite(0.0)
    && s.operatingMode == 1 && ValidLogicalId(step.target)
    && s.supportedSteps / 8 % 2 == 1
  }

  /** A step is accepted exactly when it is one of the four kinds, in full. */
  lemma AcceptedStepMeans(step: Step, s: Snapshot, p: Policy)
    requires 0 <= s.supportedSteps
    ensures StepVerdict(step, s, p).Accepted?
        <==> IsMove(step, s, p) || IsTurn(step, s, p) || IsVisit(step, s) || IsSave(step, s)
  {
    hide ValidLogicalId;
    if step.kind == ROTATE_ANGLE && step.angle.Finite? { AngleRange(step.angle.value, p); }
  }

  lemma AngleRange(v: real, p: Policy)
    ensures WithinAngleWireRange(Finite(v), p) <==>
              && p.wire(v).Some? && p.wire(p.rotateMin).Some? && p.wire(p.rotateMax).Some?
              && NonZeroWithin(p.wire(v).value, p.wire(p.rotateMin).value, p.wire(p.rotateMax).value)
              && -p.runtimeRotateMax <= p.wire(v).value <= p.runtimeRotateMax
  {
  }

  /** At most 32 places, all different and well-formed. */
  predicate GoodPlaces(places: seq<string>) {
    && |places| <= 32
    && (forall i, j :: 0 <= i < j < |places| ==> places[i] != places[j])
    && (forall i :: 0 <= i < |places| ==> ValidLogicalId(places[i]))
  }

  /** The Runtime can take a Mission. */
  predicate GoodRuntime(s: Snapshot) {
    && 1 <= |s.runtimeInstance| <= 36 && 1 <= s.admissionEpoch <= 0xFFFF_FFFF_FFFF_FFFF
    && (s.operatingMode == 1 || s.operatingMode == 2) && s.availability == 1 && s.gateState == 0
    && 1 <= s.maxSteps <= 3 && 0 <= s.supportedSteps <= 15 && GoodPlaces(s.places)
  }

  lemma GoodPlacesAccepted(places: seq<string>)
    ensures PlacesVerdict(places).Accepted? <==> GoodPlaces(places)
  {
    hide ValidLogicalId;
  }

  /** A snapshot is accepted exactly when there is one, its Runtime is good and its active step is a 32-bit count. */
  lemma AcceptedSnapshotMeans(offered: Option<Snapshot>)
    ensures SnapshotVerdict(offered).Accepted?
        <==> offered.Some? && GoodRuntime(offered.value) && 0 <= offered.value.activeStep <= 0xFFFF_FFFF
  {
    hide PlacesVerdict, GoodPlaces;
    if offered.Some? { GoodPlacesAccepted(offered.value.places); }
  }

  /** The command is named in full. */
  predicate GoodNames(t: Token) {
    && 1 <= |t.sourceInstance| <= 36 && 1 <= |t.voiceInstance| <= 36 && 1 <= |t.session| <= 36 && 1 <= |t.turn| <= 36
    && 1 <= t.sourceSeq <= 0xFFFF_FFFF_FFFF_FFFF && 0 <= t.voiceSeq <= 0xFFFF_FFFF_FFFF_FFFF
    && 1 <= t.generation <= 0xFFFF_FFFF_FFFF_FFFF
  }

  lemma AcceptedTokenMeans(t: Token)
    ensures TokenVerdict(t).Accepted? <==> GoodNames(t) && GoodRuntime(t.snapshot)
  {
    hide PlacesVerdict, GoodPlaces;
    GoodPlacesAccepted(t.snapshot.places);
  }

  /**
    A Mission is accepted exactly when its command is named, its Runtime is good, it has one to
    three steps within both bounds, and each is a drive, a turn, a visit or a save that the Runtime supports.
   */
  lemma AcceptedMissionMeans(steps: seq<Step>, t: Token, p: Policy)
    ensures Validate(steps, t, p).Accepted? <==>
              && GoodNames(t) && GoodRuntime(t.snapshot)
              && 1 <= |steps| <= 3 && |steps| <= t.snapshot.maxSteps && |steps| <= p.maxSteps
              && forall k :: 0 <= k < |steps| ==>
                   || IsMove(steps[k], t.snapshot, p) || IsTurn(steps[k], t.snapshot, p)
                   || IsVisit(steps[k], t.snapshot) || IsSave(steps[k], t.snapshot)
  {
    hide StepVerdict, TokenVerdict, Validate, GoodNames, GoodPlaces, IsMove, IsTurn, IsVisit, IsSave;
    AcceptedMeans(steps, t, p);
    AcceptedTokenMeans(t);
    if GoodRuntime(t.snapshot) {
      forall k | 0 <= k < |steps|
        ensures StepVerdict(steps[k], t.snapshot, p).Accepted?
            <==> || IsMove(steps[k], t.snapshot, p) || IsTurn(steps[k], t.snapshot, p)
                 || IsVisit(steps[k], t.snapshot) || IsSave(steps[k], t.snapshot)
      {
        AcceptedStepMeans(steps[k], t.snapshot, p);
      }
    }
  }
}

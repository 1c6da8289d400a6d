/**
  The safe-stationary barrier: a small state machine over observations and clock readings, and
  what it means, in terms of the whole log, that it reports readiness.
 */
module MotionReadiness {
  import opened Wrappers

  const HOLD: real := 2.0
  const FRESHNESS: real := 0.1
  const RUNTIME_AVAILABLE: int := 1
  const GATE_INHIBITED: int := 0
  const MOTION_GATE_INHIBITED: int := 0
  const NO_ACTIVE_STEP: int := 0xFFFF_FFFF

  datatype Observation =
    | Runtime(availability: int, gateState: int, activeStep: int)
    | MotionGate(state: int, motionInhibited: bool, zeroSelected: bool, zeroPublishSeq: int)
    | ControllerActive(active: bool)
    | Odometry(linear: real, angular: real)
    | Query

  /**
    The clock readings of one call, in the order it makes them: when odometry comes in, when its
    freshness is checked, when a safe window is begun, and when a query asks how long it has lasted.
   */
  datatype Readings = Readings(received: real, checked: real, begun: real, asked: real)

  datatype Call = Call(o: Observation, at: Readings)

  datatype Flags = Flags(
    runtimeAvailable: bool,
    runtimeGateInhibited: bool,
    motionGateInhibited: bool,
    noActiveStep: bool,
    controllerActive: bool,
    controllerObserved: bool,
    controllerZero: bool,
    odometryStationary: bool)

  datatype State = State(flags: Flags, odometryAt: Option<real>, safeSince: Option<real>)

  const NEW_STATE := State(Flags(false, false, false, false, false, false, false, false), None, None)

  function Abs(x: real): real {
    if x < 0.0 then -x else x
  }

  predicate Stationary(linear: real, angular: real) {
    Abs(linear) <= 0.01 && Abs(angular) <= 0.02
  }

  function Observed(f: Flags, o: Observation): Flags {
    match o
    case Runtime(availability, gateState, activeStep) =>
      f.(runtimeAvailable := availability == RUNTIME_AVAILABLE, runtimeGateInhibited := gateState == GATE_INHIBITED,
         noActiveStep := activeStep == NO_ACTIVE_STEP)
    case MotionGate(state, motionInhibited, zeroSelected, zeroPublishSeq) =>
      f.(motionGateInhibited := state == MOTION_GATE_INHIBITED && motionInhibited,
         controllerObserved := 0 < zeroPublishSeq, controllerZero := zeroSelected && 0 < zeroPublishSeq)
    case ControllerActive(active) => f.(controllerActive := active)
    case Odometry(linear, angular) => f.(odometryStationary := Stationary(linear, angular))
    case Query => f
  }

  predicate SafeFlags(f: Flags) {
    && f.runtimeAvailable && f.runtimeGateInhibited && f.motionGateInhibited && f.noActiveStep
    && f.controllerActive && f.controllerObserved && f.controllerZero && f.odometryStationary
  }

  predicate Fresh(odometryAt: Option<real>, now: real) {
    odometryAt.Some? && now - odometryAt.value <= FRESHNESS
  }

  function Refresh(s: State, at: Readings): State {
    if !(SafeFlags(s.flags) && Fresh(s.odometryAt, at.checked)) then s.(safeSince := None)
    else if s.safeSince.None? then s.(safeSince := Some(at.begun))
    else s
  }

  function Next(s: State, c: Call): State {
    var t := s.(flags := Observed(s.flags, c.o));
    if c.o.Odometry? then
      var restarted := s.odometryAt.Some? && FRESHNESS < c.at.received - s.odometryAt.value;
      Refresh(t.(odometryAt := Some(c.at.received), safeSince := if restarted then Some(c.at.received) else s.safeSince), c.at)
    else Refresh(t, c.at)
  }

  /** The answer to a query that has just been processed. */
  predicate Ready(s: State, hold: real, at: Readings) {
    s.safeSince.Some? && hold <= at.asked - s.safeSince.value
  }

  function Run(log: seq<Call>, n: nat): State
    requires n <= |log|
  {
    if n == 0 then NEW_STATE else Next(Run(log, n - 1), log[n - 1])
  }

  // ---- the log

  /**
    The clock never goes back, within a call or from one call to the next. A reading that a call
    does not make may be taken to be any value in between.
   */
  predicate Monotone(log: seq<Call>) {
    && (forall k :: 0 <= k < |log| ==> var at := log[k].at; at.received <= at.checked <= at.begun <= at.asked)
    && (forall j, k :: 0 <= j < k < |log| ==> log[j].at.asked <= log[k].at.received)
  }

  /** The flags that the first `n` calls leave. */
  function FlagsAfter(log: seq<Call>, n: nat): Flags
    requires n <= |log|
  {
    if n == 0 then NEW_STATE.flags else Observed(FlagsAfter(log, n - 1), log[n - 1].o)
  }

  /** When the newest odometry among the first `n` calls came in. */
  function OdometryAfter(log: seq<Call>, n: nat): Option<real>
    requires n <= |log|
  {
    if n == 0 then None
    else if log[n - 1].o.Odometry? then Some(log[n - 1].at.received)
    else OdometryAfter(log, n - 1)
  }

  /** When call `k` takes effect: odometry on arrival, anything else when freshness is checked. */
  function TakesEffect(log: seq<Call>, k: nat): real
    requires k < |log|
  {
    if log[k].o.Odometry? then log[k].at.received else log[k].at.checked
  }

  /** Call `k` has found every observed condition safe and the newest odometry fresh. */
  predicate SafeAt(log: seq<Call>, k: nat)
    requires k < |log|
  {
    SafeFlags(FlagsAfter(log, k + 1)) && Fresh(OdometryAfter(log, k + 1), log[k].at.checked)
  }

  /** The odometry known before call `k` is still fresh when that call takes effect. */
  predicate CarriedOver(log: seq<Call>, k: nat)
    requires k < |log|
  {
    Fresh(OdometryAfter(log, k), TakesEffect(log, k))
  }

  /** From call `m` to call `n - 1` everything stays safe, and odometry never goes stale in between. */
  predicate Unbroken(log: seq<Call>, m: nat, n: nat)
    requires n <= |log|
  {
    && m < n
    && (forall k :: m <= k < n ==> SafeAt(log, k))
    && (forall k :: m < k < n ==> CarriedOver(log, k))
  }

  /** When a window that starts with call `m` is taken to begin: on arrival if late odometry restarts it. */
  function Begins(log: seq<Call>, m: nat): real
    requires m < |log|
  {
    if log[m].o.Odometry? && OdometryAfter(log, m).Some? && !CarriedOver(log, m) then log[m].at.received else log[m].at.begun
  }

  /** The window that the state stands for after `n` calls: unbroken, and not extensible to an earlier start. */
  predicate Tracks(log: seq<Call>, n: nat, start: Option<nat>)
    requires n <= |log|
  {
    match start
    case None => forall m :: 0 <= m < n ==> !Unbroken(log, m, n)
    case Some(m) => m < n && Unbroken(log, m, n) && forall k :: 0 <= k < m ==> !Unbroken(log, k, n)
  }

  predicate Agrees(log: seq<Call>, n: nat, start: Option<nat>)
    requires n <= |log|
  {
    var s := Run(log, n);
    && s.flags == FlagsAfter(log, n) && s.odometryAt == OdometryAfter(log, n)
    && Tracks(log, n, start)
    && (start.Some? ==> start.value < |log|)
    && s.safeSince == (if start.None? then None else Some(Begins(log, start.value)))
  }

  /** A window survives one more call exactly when that call is safe and odometry was carried over to it. */
  lemma UnbrokenExtends(log: seq<Call>, m: nat, n: nat)
    requires n < |log|
    ensures m < n ==> (Unbroken(log, m, n + 1) <==> Unbroken(log, m, n) && SafeAt(log, n) && CarriedOver(log, n))
    ensures Unbroken(log, n, n + 1) <==> SafeAt(log, n)
  {
    if Unbroken(log, m, n + 1) && m < n {
      assert SafeAt(log, n) && CarriedOver(log, n);
    }
  }

  /** The window after one more call. */
  function NextStart(log: seq<Call>, n: nat, start: Option<nat>): Option<nat>
    requires n < |log|
  {
    if !SafeAt(log, n) then None
    else if start.Some? && CarriedOver(log, n) then start
    else Some(n)
  }

  lemma TracksNext(log: seq<Call>, n: nat, start: Option<nat>)
    requires n < |log| && Tracks(log, n, start)
    ensures Tracks(log, n + 1, NextStart(log, n, start))
  {
    var next, after := NextStart(log, n, start), n + 1;
    var bound := if next.None? then after else next.value;
    UnbrokenExtends(log, n, n);
    forall m: nat | m < bound ensures !Unbroken(log, m, after) {
      UnbrokenExtends(log, m, n);
    }
    if next.Some? {
      UnbrokenExtends(log, next.value, n);
    }
  }

  /** A call that is safe and carried over keeps the start; any other safe call begins a window of its own. */
  lemma StepAgrees(log: seq<Call>, n: nat, start: Option<nat>)
    requires n < |log| && Agrees(log, n, start)
    ensures Agrees(log, n + 1, NextStart(log, n, start))
  {
    TracksNext(log, n, start);
    if start.Some? {
      SafeBefore(log, n, start.value);
    }
    hide Unbroken;
    assert Run(log, n + 1) == Next(Run(log, n), log[n]);
    assert Tracks(log, n + 1, NextStart(log, n, start));
  }

  /** Inside a window odometry has come in. */
  lemma {:induction false} SafeBefore(log: seq<Call>, n: nat, m: nat)
    requires 0 < n <= |log| && Unbroken(log, m, n)
    ensures OdometryAfter(log, n).Some?
  {
    assert SafeAt(log, n - 1);
  }

  lemma {:induction false} StateTracksTheLog(log: seq<Call>, n: nat) returns (start: Option<nat>)
    requires n <= |log|
    ensures Agrees(log, n, start)
  {
    if n == 0 {
      start := None;
    } else {
      var before := StateTracksTheLog(log, n - 1);
      StepAgrees(log, n - 1, before);
      start := NextStart(log, n - 1, before);
    }
  }

  /** The moment at which the last call of the log asks. */
  function Asked(log: seq<Call>): real
    requires log != []
  {
    log[|log| - 1].at.asked
  }

  /** An unbroken window from call `m` to the end of the log, at least as long as the hold when the last call asks. */
  predicate HeldFrom(log: seq<Call>, m: nat, hold: real)
    requires log != []
  {
    m < |log| && Unbroken(log, m, |log|) && hold <= Asked(log) - Begins(log, m)
  }

  /**
    For a clock that never goes back, any number of readings in a call and any order of
    observations: a query answers that motion is ready if and only if an unbroken safe window has
    been held, from its beginning to the moment of asking, for at least the hold.
   */
  lemma {:induction false} ReadyIffHeld(log: seq<Call>, hold: real)
    requires log != [] && Monotone(log)
    ensures Ready(Run(log, |log|), hold, log[|log| - 1].at) <==> exists m :: HeldFrom(log, m, hold)
  {
    var start := StateTracksTheLog(log, |log|);
    if start.Some? {
      forall m | 0 <= m < |log| && Unbroken(log, m, |log|) ensures Begins(log, start.value) <= Begins(log, m) {
      }
      if Ready(Run(log, |log|), hold, log[|log| - 1].at) { assert HeldFrom(log, start.value, hold); }
    }
  }

  // ---- what a held window means, moment by moment

  /** The moment lies between call `k` taking effect and the next call doing so, or the last call asking. */
  predicate During(log: seq<Call>, k: nat, moment: real)
    requires k < |log|
  {
    TakesEffect(log, k) <= moment <= if k + 1 < |log| then TakesEffect(log, k + 1) else Asked(log)
  }

  /** At every moment from call `m` to the moment of asking every condition is safe and odometry is fresh. */
  ghost predicate SafeThroughout(log: seq<Call>, m: nat)
    requires log != []
  {
    forall k: nat, moment: real :: m <= k < |log| && During(log, k, moment) ==>
      SafeFlags(FlagsAfter(log, k + 1)) && Fresh(OdometryAfter(log, k + 1), moment)
  }

  /** An unbroken window is safe at every moment if and only if odometry is still fresh at the moment of asking. */
  lemma {:induction false} WindowIsSafeThroughoutIff(log: seq<Call>, m: nat)
    requires Monotone(log) && m < |log| && Unbroken(log, m, |log|)
    ensures SafeThroughout(log, m) <==> Fresh(OdometryAfter(log, |log|), Asked(log))
  {
    var last := |log| - 1;
    if Fresh(OdometryAfter(log, |log|), Asked(log)) {
      forall k: nat, moment: real | m <= k < |log| && During(log, k, moment)
        ensures SafeFlags(FlagsAfter(log, k + 1)) && Fresh(OdometryAfter(log, k + 1), moment)
      {
        assert SafeAt(log, k);
        if k < last { assert CarriedOver(log, k + 1); }
      }
    } else {
      assert During(log, last, Asked(log));
    }
  }

  /**
    An answer that motion is ready stands for a window of at least the hold in which every
    condition was safe and odometry never older than its limit, up to the moment of asking, if and
    only if the newest odometry is still fresh at that moment.
   */
  lemma {:induction false} ReadinessIsTruthfulIff(log: seq<Call>, hold: real)
    requires log != [] && Monotone(log) && Ready(Run(log, |log|), hold, log[|log| - 1].at)
    ensures (exists m :: HeldFrom(log, m, hold) && SafeThroughout(log, m))
            <==> Fresh(OdometryAfter(log, |log|), Asked(log))
  {
    hide SafeThroughout, Fresh, Monotone;
    ReadyIffHeld(log, hold);
    var m :| HeldFrom(log, m, hold);
    forall k: nat | HeldFrom(log, k, hold)
      ensures SafeThroughout(log, k) <==> Fresh(OdometryAfter(log, |log|), Asked(log))
    {
      WindowIsSafeThroughoutIff(log, k);
    }
  }

  /** Every call reads the clock once. */
  predicate OneReadingPerCall(log: seq<Call>) {
    forall k :: 0 <= k < |log| ==> var at := log[k].at; at.received == at.checked == at.begun == at.asked
  }

  /**
    With one reading per call readiness is always truthful, and is reported for every window held safely
    throughout.
   */
  lemma {:induction false} ReadyIffHeldSafe(log: seq<Call>, hold: real)
    requires log != [] && Monotone(log) && OneReadingPerCall(log)
    ensures Ready(Run(log, |log|), hold, log[|log| - 1].at)
            <==> exists m :: HeldFrom(log, m, hold) && SafeThroughout(log, m)
  {
    hide SafeThroughout, Monotone;
    ReadyIffHeld(log, hold);
    forall m: nat | HeldFrom(log, m, hold) ensures SafeThroughout(log, m) {
      assert SafeAt(log, |log| - 1);
      WindowIsSafeThroughoutIff(log, m);
    }
  }

  const ZERO_TIME := Readings(0.0, 0.0, 0.0, 0.0)

  /**
    Everything is observed to be safe at time zero, and then a query is made whose last reading comes
    two seconds late.
   */
  const SLOW_QUERY: seq<Call> :=
    [Call(Runtime(RUNTIME_AVAILABLE, GATE_INHIBITED, NO_ACTIVE_STEP), ZERO_TIME),
     Call(MotionGate(MOTION_GATE_INHIBITED, true, true, 1), ZERO_TIME),
     Call(ControllerActive(true), ZERO_TIME),
     Call(Odometry(0.0, 0.0), ZERO_TIME),
     Call(Query, Readings(0.1, 0.1, 0.1, 2.0))]

  /** The query reports readiness although the newest odometry is two seconds old by then. */
  lemma SeparateReadingsCanMislead()
    ensures Monotone(SLOW_QUERY) && Ready(Run(SLOW_QUERY, 5), HOLD, SLOW_QUERY[4].at)
    ensures !exists m :: HeldFrom(SLOW_QUERY, m, HOLD) && SafeThroughout(SLOW_QUERY, m)
  {
    assert Run(SLOW_QUERY, 0) == NEW_STATE;
    assert Run(SLOW_QUERY, 1) == State(Flags(true, true, false, true, false, false, false, false), None, None);
    assert Run(SLOW_QUERY, 2) == State(Flags(true, true, true, true, false, true, true, false), None, None);
    assert Run(SLOW_QUERY, 3) == State(Flags(true, true, true, true, true, true, true, false), None, None);
    var safe := State(Flags(true, true, true, true, true, true, true, true), Some(0.0), Some(0.0));
    assert Run(SLOW_QUERY, 4) == safe;
    assert Run(SLOW_QUERY, 5) == safe;
    assert OdometryAfter(SLOW_QUERY, 4) == Some(0.0);
    assert !Fresh(OdometryAfter(SLOW_QUERY, 5), Asked(SLOW_QUERY));
    ReadinessIsTruthfulIff(SLOW_QUERY, HOLD);
  }

  // ---- the object

  lemma {:induction false} EarlierRunsStay(log: seq<Call>, c: Call, n: nat)
    requires n <= |log|
    ensures Run(log + [c], n) == Run(log, n)
  {
    hide Next;
    if 0 < n {
      EarlierRunsStay(log, c, n - 1);
    }
  }

  class MotionReadinessState {
    const hold: real
    var flags: Flags
    var odometryAt: Option<real>
    var safeSince: Option<real>
    ghost var log: seq<Call>

    ghost function View(): State
      reads this
    {
      State(flags, odometryAt, safeSince)
    }

    /** The fields are what the whole log of calls makes of them. */
    ghost predicate Valid()
      reads this
    {
      0.0 < hold && View() == Run(log, |log|)
    }

    constructor (hold: real)
      requires 0.0 < hold
      ensures Valid() && log == [] && this.hold == hold
    {
      this.hold := hold;
      flags, odometryAt, safeSince, log := NEW_STATE.flags, None, None, [];
    }

    method RefreshBarrier(at: Readings)
      modifies this`safeSince
      ensures View() == Refresh(old(View()), at)
    {
      if !(SafeFlags(flags) && Fresh(odometryAt, at.checked)) {
        safeSince := None;
      } else if safeSince.None? {
        safeSince := Some(at.begun);
      }
    }

    /** The call that has just changed the fields is the next one of the log. */
    ghost method Record(c: Call)
      requires View() == Next(Run(log, |log|), c) && 0.0 < hold
      modifies this`log
      ensures Valid() && log == old(log) + [c]
    {
      EarlierRunsStay(log, c, |log|);
      log := log + [c];
    }

    method ObserveOdometry(linear: real, angular: real, at: Readings)
      requires Valid()
      modifies this
      ensures Valid() && log == old(log) + [Call(Odometry(linear, angular), at)]
    {
      if odometryAt.Some? && FRESHNESS < at.received - odometryAt.value {
        safeSince := Some(at.received);
      }
      odometryAt := Some(at.received);
      flags := flags.(odometryStationary := Stationary(linear, angular));
      RefreshBarrier(at);
      Record(Call(Odometry(linear, angular), at));
    }

    /** Any other observation: its flags, then the barrier. */
    method Observe(o: Observation, at: Readings)
      requires Valid() && !o.Odometry?
      modifies this
      ensures Valid() && log == old(log) + [Call(o, at)]
    {
      flags := Observed(flags, o);
      RefreshBarrier(at);
      Record(Call(o, at));
    }

    /** Ready if and only if, over the whole log, a safe window has been held long enough. */
    method IsReady(at: Readings) returns (ready: bool)
      requires Valid()
      modifies this
      ensures Valid() && log == old(log) + [Call(Query, at)]
      ensures Monotone(log) ==> (ready <==> exists m :: HeldFrom(log, m, hold))
    {
      RefreshBarrier(at);
      Record(Call(Query, at));
      ready := safeSince.Some? && hold <= at.asked - safeSince.value;
      if Monotone(log) {
        ReadyIffHeld(log, hold);
      }
    }
  }
}

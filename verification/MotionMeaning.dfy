/** What the barrier's flags mean in terms of the newest observation of each kind, value by value. */
module MotionMeaning {
  import opened Wrappers
  import opened MotionReadiness

  datatype Sort = RuntimeSort | GateSort | ControllerSort | OdometrySort | NoSort

  function SortOf(o: Observation): Sort {
    match o
    case Runtime(_, _, _) => RuntimeSort
    case MotionGate(_, _, _, _) => GateSort
    case ControllerActive(_) => ControllerSort
    case Odometry(_, _) => OdometrySort
    case Query => NoSort
  }

  /** Call `k` is the newest of its sort among the first `n` calls. */
  predicate Newest(log: seq<Call>, n: nat, k: nat, sort: Sort)
    requires n <= |log|
  {
    k < n && SortOf(log[k].o) == sort && forall j :: k < j < n ==> SortOf(log[j].o) != sort
  }

  /**
    What the observation says is safe: the Runtime available, inhibited and without an active step;
    the motion gate inhibited, with zero selected and published at least once; the controller
    active; the robot slower than a centimetre and a fiftieth of a radian per second.
   */
  predicate SaysSafe(o: Observation) {
    match o
    case Runtime(availability, gateState, activeStep) => availability == 1 && gateState == 0 && activeStep == 0xFFFF_FFFF
    case MotionGate(state, motionInhibited, zeroSelected, zeroPublishSeq) =>
      state == 0 && motionInhibited && zeroSelected && 1 <= zeroPublishSeq
    case ControllerActive(active) => active
    case Odometry(linear, angular) => -0.01 <= linear <= 0.01 && -0.02 <= angular <= 0.02
    case Query => true
  }

  /** The newest observation of the sort, which there is, says safe. */
  predicate NewestIsSafe(log: seq<Call>, n: nat, sort: Sort)
    requires n <= |log|
  {
    exists k :: 0 <= k < n && Newest(log, n, k, sort) && SaysSafe(log[k].o)
  }

  /** The flags that observations of the sort set. */
  predicate FlagsOf(f: Flags, sort: Sort) {
    match sort
    case RuntimeSort => f.runtimeAvailable && f.runtimeGateInhibited && f.noActiveStep
    case GateSort => f.motionGateInhibited && f.controllerObserved && f.controllerZero
    case ControllerSort => f.controllerActive
    case OdometrySort => f.odometryStationary
    case NoSort => true
  }

  lemma ObservingSets(f: Flags, o: Observation, sort: Sort)
    ensures sort != NoSort ==>
              (FlagsOf(Observed(f, o), sort) <==> if SortOf(o) == sort then SaysSafe(o) else FlagsOf(f, sort))
  {
  }

  lemma NewestMovesOn(log: seq<Call>, n: nat, k: nat, sort: Sort)
    requires n < |log|
    ensures Newest(log, n + 1, k, sort) <==>
              if SortOf(log[n].o) == sort then k == n else Newest(log, n, k, sort)
  {
  }

  lemma {:induction false} FlagsFollowTheNewest(log: seq<Call>, n: nat, sort: Sort)
    requires n <= |log| && sort != NoSort
    ensures FlagsOf(FlagsAfter(log, n), sort) <==> NewestIsSafe(log, n, sort)
  {
    if 0 < n {
      hide FlagsOf, Observed, SaysSafe, Newest;
      FlagsFollowTheNewest(log, n - 1, sort);
      ObservingSets(FlagsAfter(log, n - 1), log[n - 1].o, sort);
      forall k: nat ensures Newest(log, n, k, sort) <==>
                              if SortOf(log[n - 1].o) == sort then k == n - 1 else Newest(log, n - 1, k, sort)
      {
        NewestMovesOn(log, n - 1, k, sort);
      }
    }
  }

  /** Every flag is safe exactly when of each sort there has been an observation and the newest says safe. */
  lemma {:induction false} SafeFlagsMean(log: seq<Call>, n: nat)
    requires n <= |log|
    ensures SafeFlags(FlagsAfter(log, n)) <==>
              && NewestIsSafe(log, n, RuntimeSort) && NewestIsSafe(log, n, GateSort)
              && NewestIsSafe(log, n, ControllerSort) && NewestIsSafe(log, n, OdometrySort)
  {
    hide FlagsAfter, NewestIsSafe;
    FlagsFollowTheNewest(log, n, RuntimeSort);
    FlagsFollowTheNewest(log, n, GateSort);
    FlagsFollowTheNewest(log, n, ControllerSort);
    FlagsFollowTheNewest(log, n, OdometrySort);
  }

  lemma {:induction false} OdometryIsTheNewest(log: seq<Call>, n: nat, k: nat)
    requires n <= |log| && Newest(log, n, k, OdometrySort)
    ensures OdometryAfter(log, n) == Some(log[k].at.received)
  {
    if k < n - 1 {
      assert SortOf(log[n - 1].o) != OdometrySort;
      OdometryIsTheNewest(log, n - 1, k);
    }
  }

  /**
    A call finds everything safe exactly when of each sort there has been an observation and the
    newest says safe, and the newest odometry came in at most a tenth of a second before the check.
   */
  lemma {:induction false} SafeCallMeans(log: seq<Call>, k: nat)
    requires k < |log|
    ensures SafeAt(log, k) <==>
              && NewestIsSafe(log, k + 1, RuntimeSort) && NewestIsSafe(log, k + 1, GateSort)
              && NewestIsSafe(log, k + 1, ControllerSort)
              && exists j :: 0 <= j <= k && Newest(log, k + 1, j, OdometrySort) && SaysSafe(log[j].o)
                             && log[k].at.checked - log[j].at.received <= 0.1
  {
    hide FlagsAfter, OdometryAfter, SaysSafe, Newest;
    SafeFlagsMean(log, k + 1);
    forall j: nat | j <= k && Newest(log, k + 1, j, OdometrySort)
      ensures OdometryAfter(log, k + 1) == Some(log[j].at.received)
    {
      OdometryIsTheNewest(log, k + 1, j);
    }
  }
}

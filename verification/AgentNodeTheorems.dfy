/** What every run of the node guarantees about Mission and Speak handles, and what its send deadline does not. */
module AgentNodeTheorems {
  import opened Wrappers
  import opened AgentNodeState
  import opened AgentNodeRuns

  /** A cancel of the goal has gone out: an attempt was made and did not raise. */
  predicate CancelSent(attempts: seq<bool>) {
    true in attempts
  }

  lemma OneAttempt(attempts: seq<bool>)
    requires |attempts| <= 1
    ensures CancelSent(attempts) <==> attempts == [true]
    ensures |attempts| == 1 ==> (CancelSent(attempts) <==> attempts != [false])
  {
    if attempts != [] {
      assert attempts == [attempts[0]];
      assert true in [attempts[0]] <==> attempts[0];
    }
  }

  /**
    Of every accepted Mission handle a cancel is attempted at most once. The handle is the current
    slot's, has finished or has been sent its cancel, if and only if it is not one whose only
    attempt, made on a late acceptance, raised.
   */
  lemma {:induction false} MissionHandlesAreAccountedFor(hs: seq<Happening>, i: nat)
    requires i < |Run(hs, |hs|).slots|
    ensures var n := Run(hs, |hs|); var m := n.slots[i];
            && |m.attempts| <= 1
            && (m.accepted && n.slot == Some(i) ==> m.hasHandle && !m.finished)
            && (m.accepted && n.slot != Some(i) && !m.finished ==> |m.attempts| == 1)
            && (m.accepted ==> (n.slot == Some(i) || m.finished || CancelSent(m.attempts)
                                <==> n.slot == Some(i) || m.finished || m.attempts != [false]))
  {
    ReachableNodesKeep(hs, |hs|);
    assert SlotHolds(Run(hs, |hs|).slots[i], Run(hs, |hs|).slot == Some(i));
    OneAttempt(Run(hs, |hs|).slots[i].attempts);
  }

  /** The same of every accepted Speak handle and the current operation. */
  lemma {:induction false} SpeakHandlesAreAccountedFor(hs: seq<Happening>, i: nat)
    requires i < |Run(hs, |hs|).operations|
    ensures var n := Run(hs, |hs|); var o := n.operations[i];
            && |o.attempts| <= 1
            && (o.accepted && n.speaking != Some(i) && !o.finished ==> |o.attempts| == 1)
            && (o.accepted ==> (n.speaking == Some(i) || o.finished || CancelSent(o.attempts)
                                <==> n.speaking == Some(i) || o.finished || o.attempts != [false]))
  {
    ReachableNodesKeep(hs, |hs|);
    assert OperationHolds(Run(hs, |hs|).operations[i], Run(hs, |hs|).speaking == Some(i));
    OneAttempt(Run(hs, |hs|).operations[i].attempts);
  }

  /** An accepted Mission that has neither finished nor been sent a cancel. */
  predicate Running(m: Slot) {
    m.accepted && !m.finished && !CancelSent(m.attempts)
  }

  /** The goal was not accepted, has finished, or has been sent its cancel, unless the only attempt raised. */
  predicate Settled(m: Slot) {
    Running(m) <==> m.accepted && !m.finished && m.attempts == [false]
  }

  /** Two Missions run side by side only if the one that is no longer current is a late one whose cancel raised. */
  lemma {:induction false} OneMissionRuns(hs: seq<Happening>, i: nat, j: nat)
    requires i < |Run(hs, |hs|).slots| && j < |Run(hs, |hs|).slots| && i != j
    requires Running(Run(hs, |hs|).slots[i]) && Running(Run(hs, |hs|).slots[j])
    ensures var n := Run(hs, |hs|);
            || (n.slot != Some(i) && n.slots[i].attempts == [false])
            || (n.slot != Some(j) && n.slots[j].attempts == [false])
  {
    MissionHandlesAreAccountedFor(hs, i);
    MissionHandlesAreAccountedFor(hs, j);
  }

  /** Speak goals carry strictly increasing source sequence numbers up to the largest, at most one per operation. */
  lemma {:induction false} SpeakSequencesNeverRepeat(hs: seq<Happening>, i: nat, j: nat)
    requires i < j < |Run(hs, |hs|).goals|
    ensures var n := Run(hs, |hs|);
            && 0 < n.goals[i] < n.goals[j] <= MAX_UINT64
            && n.goals[j] - 1 < |n.operations| && n.operations[n.goals[j] - 1].sourceSeq == n.goals[j]
  {
    ReachableNodesKeep(hs, |hs|);
    assert Goals(Run(hs, |hs|));
  }

  /** Whatever is being said or stopped belongs to the newest delivered turn. */
  lemma {:induction false} SpeechBelongsToTheNewestTurn(hs: seq<Happening>)
    ensures var n := Run(hs, |hs|);
            && (n.speaking.Some? ==> n.speaking.value < |n.operations| && n.operations[n.speaking.value].turn == n.turn)
            && (n.stop.Some? ==> n.stop.value < |n.stopTurns| && n.stopTurns[n.stop.value] == n.turn)
  {
    ReachableNodesKeep(hs, |hs|);
  }

  // ---- a Mission goal goes out only when no slot is live

  /** No slot has been added, and no goal sent for an old one. */
  predicate SameGoals(n: Node, m: Node) {
    && |m.slots| == |n.slots|
    && forall i :: 0 <= i < |n.slots| ==> m.slots[i].sent == n.slots[i].sent
  }

  lemma SpeakKeepsSlots(n: Node, turn: nat, w: World)
    ensures n.Speak(turn, w).slots == n.slots && n.Speak(turn, w).slot == n.slot
    ensures n.RetireSpeak(w).slots == n.slots && n.RetireSpeak(w).slot == n.slot
    ensures n.Speak(turn, w).turn == n.turn && n.RetireSpeak(w).turn == n.turn
  {
  }

  lemma SpeakForSlotKeepsSlots(n: Node, i: nat, w: World)
    requires i < |n.slots|
    ensures n.SpeakForSlot(i, w).slots == n.slots && n.SpeakForSlot(i, w).slot == n.slot
    ensures n.SpeakForSlot(i, w).turn == n.turn
  {
    hide Node.Speak;
    SpeakKeepsSlots(n, n.turn, w);
  }

  lemma SlotSet(n: Node, i: nat, m: Slot)
    requires i < |n.slots| && m.sent == n.slots[i].sent
    ensures SameGoals(n, n.SetSlot(i, m)) && |n.SetSlot(i, m).slots| == |n.slots|
  {
  }

  lemma GoalsAgree(n: Node, m: Node, t: Node)
    requires SameGoals(n, m) && SameGoals(m, t)
    ensures SameGoals(n, t)
  {
  }

  lemma SameSlotsSameGoals(n: Node, m: Node)
    requires m.slots == n.slots
    ensures SameGoals(n, m)
  {
  }

  lemma GivingUpSendsNothing(n: Node, i: nat, w: World)
    requires i < |n.slots|
    ensures SameGoals(n, n.MissionSendFailure(i, w)) && SameGoals(n, n.ClearSlot(i).SpeakForSlot(i, w))
  {
    hide Node.SpeakForSlot;
    SpeakForSlotKeepsSlots(n.ClearSlot(i), i, w);
  }

  lemma CancelFailureSendsNothing(n: Node, i: nat, w: World)
    requires i < |n.slots|
    ensures SameGoals(n, n.CancelFailure(i, w))
  {
    hide Node.SpeakForSlot, SameGoals;
    SameSlotsSameGoals(n, n);
    var m := n.slots[i].(cancelTimer := false, state := Active, cancelFailureSpoken := true);
    SlotSet(n, i, m);
    var t := n.SetSlot(i, m);
    SpeakForSlotKeepsSlots(t, i, w);
    SameSlotsSameGoals(t, t.SpeakForSlot(i, w));
    GoalsAgree(n, t, t.SpeakForSlot(i, w));
  }

  lemma CancelSendsNothing(n: Node, i: nat, w: World)
    requires i < |n.slots|
    ensures SameGoals(n, n.RequestMissionCancel(i, w))
  {
    hide Node.CancelFailure, Node.SetSlot, SameGoals;
    SameSlotsSameGoals(n, n);
    var m := n.slots[i];
    var m' := m.(cancelStarted := true, attempts := m.attempts + [w.cancelSends],
                 cancelTimer := m.cancelTimer || w.cancelSends, cancelAwaited := m.cancelAwaited || w.cancelSends);
    SlotSet(n, i, m');
    CancelFailureSendsNothing(n.SetSlot(i, m'), i, w);
    GoalsAgree(n, n.SetSlot(i, m'), n.SetSlot(i, m').CancelFailure(i, w));
  }

  lemma AcceptanceSendsNothing(n: Node, i: nat, held: Slot, w: World)
    requires i < |n.slots| && held.sent == n.slots[i].sent
    ensures SameGoals(n, n.SetSlot(i, held)) && SameGoals(n, n.SetSlot(i, held).RequestMissionCancel(i, w))
  {
    hide Node.RequestMissionCancel, SameGoals;
    SlotSet(n, i, held);
    CancelSendsNothing(n.SetSlot(i, held), i, w);
    GoalsAgree(n, n.SetSlot(i, held), n.SetSlot(i, held).RequestMissionCancel(i, w));
  }

  lemma RefusalSendsNothing(n: Node, i: nat, m: Slot, w: World)
    requires i < |n.slots| && m.sent == n.slots[i].sent
    ensures SameGoals(n, n.SetSlot(i, m)) && SameGoals(n, n.SetSlot(i, m).MissionSendFailure(i, w))
  {
    hide Node.MissionSendFailure, SameGoals;
    SlotSet(n, i, m);
    GivingUpSendsNothing(n.SetSlot(i, m), i, w);
    GoalsAgree(n, n.SetSlot(i, m), n.SetSlot(i, m).MissionSendFailure(i, w));
  }

  lemma MissionResponseSendsNothing(n: Node, i: nat, a: Answer, w: World)
    requires i < |n.slots|
    ensures SameGoals(n, n.MissionResponse(i, a, w))
  {
    hide Node.MissionSendFailure, Node.RequestMissionCancel, Node.SetSlot, SameGoals;
    var m := n.slots[i].(responded := true, accepted := a.Accepted?);
    var held := m.(sendTimer := false, hasHandle := true, resultAwaited := w.attaches,
                   state := if m.cancelRequested then CancelPending else Active);
    SetTwice(n, i, m, m.(attempts := m.attempts + [w.cancelSends]));
    SetTwice(n, i, m, held);
    RefusalSendsNothing(n, i, m, w);
    AcceptanceSendsNothing(n, i, m.(attempts := m.attempts + [w.cancelSends]), w);
    AcceptanceSendsNothing(n, i, held, w);
  }

  lemma GivingUpOrCancelFailing(n: Node, i: nat, m: Slot, w: World)
    requires i < |n.slots| && m.sent == n.slots[i].sent
    ensures SameGoals(n, n.SetSlot(i, m)) && SameGoals(n, n.SetSlot(i, m).ClearSlot(i).SpeakForSlot(i, w))
    ensures SameGoals(n, n.SetSlot(i, m).CancelFailure(i, w))
  {
    hide Node.SpeakForSlot, Node.CancelFailure, SameGoals;
    var t := n.SetSlot(i, m);
    SlotSet(n, i, m);
    GivingUpSendsNothing(t, i, w);
    GoalsAgree(n, t, t.ClearSlot(i).SpeakForSlot(i, w));
    CancelFailureSendsNothing(t, i, w);
    GoalsAgree(n, t, t.CancelFailure(i, w));
  }

  lemma OtherSlotCallbacksSendNothing(n: Node, i: nat, confirmed: bool, w: World)
    requires i < |n.slots|
    ensures SameGoals(n, n.MissionSendTimeout(i, w)) && SameGoals(n, n.MissionResult(i, w))
    ensures SameGoals(n, n.MissionCancelResponse(i, confirmed, w)) && SameGoals(n, n.MissionCancelTimeout(i, w))
  {
    hide Node.SpeakForSlot, Node.CancelFailure, Node.ClearSlot, SameGoals;
    var m := n.slots[i];
    GivingUpOrCancelFailing(n, i, m.(sendTimer := false), w);
    GivingUpOrCancelFailing(n, i, m.(finished := true), w);
    GivingUpOrCancelFailing(n, i, m.(cancelAwaited := false), w);
    GivingUpOrCancelFailing(n, i, m.(cancelTimer := false), w);
    assert |n.SetSlot(i, m.(cancelAwaited := false)).slots| == |n.slots|;
    SlotSet(n.SetSlot(i, m.(cancelAwaited := false)), i, m.(cancelAwaited := false, cancelTimer := false));
    GoalsAgree(n, n.SetSlot(i, m.(cancelAwaited := false)),
               n.SetSlot(i, m.(cancelAwaited := false)).SetSlot(i, m.(cancelAwaited := false, cancelTimer := false)));
  }

  lemma SpeechSendsNoMission(n: Node, e: Event, w: World)
    requires Enabled(n, e)
    requires e.StopEnded? || e.SpeakRechecked? || e.SpeakAnswered? || e.SpeakDeadline? || e.SpeakEnded? || e.NodeDestroyed?
    ensures Next(n, e, w).slots == n.slots && Next(n, e, w).slot == n.slot
  {
    hide Node.Speak, Node.RetireSpeak;
    SpeakKeepsSlots(n, 0, w);
    if e.StopEnded? { SpeakKeepsSlots(n.(stop := None), n.stopTurns[e.i], w); }
  }

  lemma CallbacksSendNoMission(n: Node, e: Event, w: World)
    requires Enabled(n, e) && !e.Delivered?
    ensures SameGoals(n, Next(n, e, w))
  {
    hide Node.MissionResponse, Node.MissionSendTimeout, Node.MissionCancelResponse, Node.MissionCancelTimeout,
      Node.MissionResult;
    match e
    case MissionAnswered(i, a) => MissionResponseSendsNothing(n, i, a, w);
    case MissionDeadline(i) => OtherSlotCallbacksSendNothing(n, i, true, w);
    case CancelAnswered(i, confirmed) => OtherSlotCallbacksSendNothing(n, i, confirmed, w);
    case CancelDeadline(i) => OtherSlotCallbacksSendNothing(n, i, true, w);
    case MissionEnded(i) => OtherSlotCallbacksSendNothing(n, i, true, w);
    case _ => SpeechSendsNoMission(n, e, w);
  }

  /** A Mission goal is sent only by delivering a Mission while no slot is live and every earlier handle is settled. */
  lemma {:induction false} MissionsStartOnlyWhenFree(hs: seq<Happening>, e: Event, w: World)
    ensures var n := Run(hs, |hs|); var t := Next(n, e, w);
            SameGoals(n, t)
            || (e.Delivered? && e.d.Mission? && n.slot.None? && |t.slots| == |n.slots| + 1
                && (forall i :: 0 <= i < |n.slots| ==> t.slots[i] == n.slots[i])
                && (forall i :: 0 <= i < |n.slots| ==> Settled(n.slots[i])))
  {
    var n := Run(hs, |hs|);
    ReachableNodesKeep(hs, |hs|);
    if Enabled(n, e) {
      if e.Delivered? {
        DeliveredMissions(n, e.g, e.d, w);
        forall i | 0 <= i < |n.slots| && n.slot != Some(i) ensures Settled(n.slots[i]) {
          assert SlotHolds(n.slots[i], n.slot == Some(i));
          OneAttempt(n.slots[i].attempts);
        }
      } else {
        CallbacksSendNoMission(n, e, w);
      }
    }
  }

  /** Either nothing was sent, or a Mission was, in a new slot beside the old ones. */
  predicate StartsAtMostOne(n: Node, d: Demand, t: Node) {
    || SameGoals(n, t)
    || (d.Mission? && n.slot.None? && |t.slots| == |n.slots| + 1
        && (forall i :: 0 <= i < |n.slots| ==> t.slots[i] == n.slots[i]))
  }

  lemma HandledMission(r: Node, g: nat, w: World)
    ensures StartsAtMostOne(r, Mission, r.HandleMission(g, w))
  {
    hide Node.Speak, Node.MissionSendFailure;
    SpeakKeepsSlots(r, g, w);
    if r.slot.None? && !w.missionSends {
      FailedMission(r.(slot := Some(|r.slots|), slots := r.slots + [NewSlot(g)]), |r.slots|, w);
    }
  }

  lemma HandledCancel(r: Node, named: Option<nat>, g: nat, w: World)
    ensures SameGoals(r, r.HandleCancel(named, g, w))
  {
    hide Node.Speak, Node.RequestMissionCancel, SameGoals;
    SpeakKeepsSlots(r, g, w);
    SameSlotsSameGoals(r, r.Speak(g, w));
    if r.slot.Some? && r.slot.value < |r.slots| {
      var m := r.slots[r.slot.value];
      AcceptanceSendsNothing(r, r.slot.value, m.(terminalTurn := g, cancelRequested := true,
                                                 state := if m.cancelRequested then m.state else CancelPending), w);
    }
  }

  lemma HandledStop(r: Node, g: nat, w: World)
    ensures r.HandleStop(g, w).slots == r.slots && r.HandleStop(g, w).slot == r.slot
  {
    hide Node.Speak;
    SpeakKeepsSlots(r.(stop := None, stopTurns := r.stopTurns + [g]), g, w);
  }

  lemma DeliveredMissions(n: Node, g: nat, d: Demand, w: World)
    ensures StartsAtMostOne(n, d, n.Deliver(g, d, w))
  {
    hide Node.Speak, Node.RetireSpeak, Node.HandleMission, Node.HandleCancel, Node.HandleStop;
    SpeakKeepsSlots(n.(turn := Later(n.turn, g), stop := None), g, w);
    var r := n.(turn := Later(n.turn, g), stop := None).RetireSpeak(w);
    match d
    case Mission => HandledMission(r, g, w);
    case Cancel(named) => HandledCancel(r, named, g, w);
    case Stop => HandledStop(r, g, w);
    case _ => SpeakKeepsSlots(r, g, w);
  }

  lemma FailedMission(m: Node, i: nat, w: World)
    requires i < |m.slots|
    ensures |m.MissionSendFailure(i, w).slots| == |m.slots|
    ensures forall k :: 0 <= k < |m.slots| && k != i ==> m.MissionSendFailure(i, w).slots[k] == m.slots[k]
  {
    hide Node.SpeakForSlot;
    SpeakForSlotKeepsSlots(m.ClearSlot(i), i, w);
  }

  // ---- the send deadline

  /** The goal of slot `i` has been sent and not answered. */
  predicate Unanswered(n: Node, i: nat) {
    n.slot == Some(i) && i < |n.slots| && n.slots[i].sent && !n.slots[i].responded
  }

  /** When the deadline of an unanswered goal fires, the slot is given up if and only if no cancel was requested. */
  lemma {:induction false} DeadlineClearsUnlessCancelled(hs: seq<Happening>, i: nat, w: World)
    requires Unanswered(Run(hs, |hs|), i) && Run(hs, |hs|).slots[i].sendTimer
    ensures var n := Run(hs, |hs|);
            Next(n, MissionDeadline(i), w).slot.None? <==> !n.slots[i].cancelRequested
  {
    var n := Run(hs, |hs|);
    ReachableNodesKeep(hs, |hs|);
    assert SlotHolds(n.slots[i], true);
    SpeakForSlotKeepsSlots(n.SetSlot(i, n.slots[i].(sendTimer := false)).ClearSlot(i), i, w);
  }

  /** The cancel of slot `i` is waiting for a goal response. */
  predicate Stuck(n: Node, i: nat) {
    Unanswered(n, i) && n.slots[i].cancelRequested
  }

  lemma StuckStays(n: Node, i: nat, e: Event, w: World)
    requires Inv(n) && Stuck(n, i) && !(e.MissionAnswered? && e.i == i)
    ensures Stuck(Next(n, e, w), i)
  {
    assert SlotHolds(n.slots[i], true);
    if Enabled(n, e) {
      if e.Delivered? {
        DeliveryLeavesItStuck(n, i, e.g, e.d, w);
      } else if e.MissionAnswered? || e.MissionDeadline? || e.CancelAnswered? || e.CancelDeadline? || e.MissionEnded? {
        hide Node.Speak, Node.RetireSpeak;
      } else {
        SpeechSendsNoMission(n, e, w);
      }
    }
  }

  /** A cancel that names the stuck slot, like one that does not, leaves it stuck. */
  lemma CancelLeavesItStuck(r: Node, i: nat, named: Option<nat>, g: nat, w: World)
    requires Stuck(r, i)
    ensures Stuck(r.HandleCancel(named, g, w), i)
  {
    hide Node.Speak, Node.RequestMissionCancel;
    SpeakKeepsSlots(r, g, w);
  }

  lemma DeliveryLeavesItStuck(n: Node, i: nat, g: nat, d: Demand, w: World)
    requires Stuck(n, i)
    ensures Stuck(n.Deliver(g, d, w), i)
  {
    hide Node.Speak, Node.RetireSpeak, Node.HandleCancel;
    SpeakKeepsSlots(n.(turn := Later(n.turn, g), stop := None), g, w);
    var r := n.(turn := Later(n.turn, g), stop := None).RetireSpeak(w);
    if d.Cancel? { CancelLeavesItStuck(r, i, d.slot, g, w); }
    SpeakKeepsSlots(r, g, w);
    SpeakKeepsSlots(r.(stop := None, stopTurns := r.stopTurns + [g]), g, w);
  }

  /** After a cancel before acceptance no deadline gives the slot up: only the goal's own response can. */
  lemma {:induction false} CancelBeforeAcceptanceHoldsTheSlot(hs: seq<Happening>, k: nat, m: nat, i: nat)
    requires k <= m <= |hs| && Stuck(Run(hs, k), i)
    requires forall j :: k <= j < m ==> !(hs[j].e.MissionAnswered? && hs[j].e.i == i)
    ensures Stuck(Run(hs, m), i)
  {
    hide Next, Inv;
    if k < m {
      CancelBeforeAcceptanceHoldsTheSlot(hs, k, m - 1, i);
      ReachableNodesKeep(hs, m - 1);
      StuckStays(Run(hs, m - 1), i, hs[m - 1].e, hs[m - 1].w);
    }
  }

  const FINE := World(true, true, false, true, true, true, true, true)

  /** A Mission, then a cancel before its goal is answered, then the deadline: the slot is still held. */
  lemma DeadlineCanMissTheSlot()
    ensures var hs := [Happening(Delivered(1, Mission), FINE), Happening(Delivered(2, Cancel(Some(0))), FINE),
                       Happening(MissionDeadline(0), FINE)];
            Stuck(Run(hs, 3), 0) && !Run(hs, 3).slots[0].sendTimer
  {
    var hs := [Happening(Delivered(1, Mission), FINE), Happening(Delivered(2, Cancel(Some(0))), FINE),
               Happening(MissionDeadline(0), FINE)];
    assert Run(hs, 0) == NEW_NODE;
    var a := Run(hs, 1);
    assert a == NEW_NODE.(turn := 1, slot := Some(0), slots := [NewSlot(1).(sent := true, sendTimer := true)]);
    var b := Run(hs, 2);
    assert b == a.(turn := 2, slots := [NewSlot(2).(sent := true, sendTimer := true, cancelRequested := true,
                                                    state := CancelPending)]);
  }

  const FAILING := FINE.(cancelSends := false)

  /**
    A Mission whose acceptance comes after its deadline, and the cancel of that late goal raises:
    it goes on running beside the next Mission.
   */
  lemma LateMissionCanRunBesideTheNext()
    ensures var hs := [Happening(Delivered(1, Mission), FINE), Happening(MissionDeadline(0), FINE),
                       Happening(Delivered(2, Mission), FINE), Happening(MissionAnswered(1, Accepted), FINE),
                       Happening(MissionAnswered(0, Accepted), FAILING)];
            var n := Run(hs, 5);
            && n.slot == Some(1) && |n.slots| == 2 && Running(n.slots[0]) && Running(n.slots[1])
            && n.slots[0].attempts == [false]
  {
    hide Node.Speak, Node.RetireSpeak;
    var hs := [Happening(Delivered(1, Mission), FINE), Happening(MissionDeadline(0), FINE),
               Happening(Delivered(2, Mission), FINE), Happening(MissionAnswered(1, Accepted), FINE),
               Happening(MissionAnswered(0, Accepted), FAILING)];
    var sent := NewSlot(1).(sent := true, sendTimer := true);
    assert Run(hs, 0) == NEW_NODE;
    SpeakKeepsSlots(NEW_NODE.(turn := 1, stop := None), 1, FINE);
    var a := Run(hs, 1);
    assert a.slots == [sent] && a.slot == Some(0);
    SpeakForSlotKeepsSlots(a.SetSlot(0, sent.(sendTimer := false)).ClearSlot(0), 0, FINE);
    var b := Run(hs, 2);
    assert b.slots == [sent.(sendTimer := false)] && b.slot.None?;
    SpeakKeepsSlots(b.(turn := Later(b.turn, 2), stop := None), 2, FINE);
    var c := Run(hs, 3);
    assert c.slots == [sent.(sendTimer := false), NewSlot(2).(sent := true, sendTimer := true)] && c.slot == Some(1);
    var d := Run(hs, 4);
    assert d.slots[0] == c.slots[0] && d.slots[1].accepted;
    OneAttempt([false]);
    OneAttempt([]);
  }
}

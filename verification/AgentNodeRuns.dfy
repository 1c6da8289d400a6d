/**
  Every order of deliveries, late futures and timers. A future completes at most once, a timer
  fires only while it is armed or after its operation has been given up, and deliveries carry
  ever newer turn generations.
 */
module AgentNodeRuns {
  import opened Wrappers
  import opened AgentNodeState

  datatype Event =
    | Delivered(g: nat, d: Demand)
    | MissionAnswered(i: nat, a: Answer)
    | MissionDeadline(i: nat)
    | CancelAnswered(i: nat, confirmed: bool)
    | CancelDeadline(i: nat)
    | MissionEnded(i: nat)
    | StopEnded(i: nat)
    | SpeakRechecked(i: nat)
    | SpeakAnswered(i: nat, a: Answer)
    | SpeakDeadline(i: nat)
    | SpeakEnded(i: nat)
    | NodeDestroyed

  predicate Enabled(n: Node, e: Event) {
    match e
    case Delivered(g, _) => n.turn < g
    case MissionAnswered(i, _) => i < |n.slots| && n.slots[i].sent && !n.slots[i].responded
    case MissionDeadline(i) => i < |n.slots| && (n.slots[i].sendTimer || n.slot != Some(i))
    case CancelAnswered(i, _) => i < |n.slots| && n.slots[i].cancelAwaited
    case CancelDeadline(i) => i < |n.slots| && (n.slots[i].cancelTimer || n.slot != Some(i))
    case MissionEnded(i) => i < |n.slots| && n.slots[i].resultAwaited && !n.slots[i].finished
    case StopEnded(i) => i < |n.stopTurns|
    case SpeakRechecked(i) => i < |n.operations| && (n.operations[i].timer.Recheck? || n.speaking != Some(i))
    case SpeakAnswered(i, _) => i < |n.operations| && n.operations[i].sent && !n.operations[i].responded
    case SpeakDeadline(i) => i < |n.operations| && (n.operations[i].timer.SendDeadline? || n.speaking != Some(i))
    case SpeakEnded(i) => i < |n.operations| && n.operations[i].resultAwaited && !n.operations[i].finished
    case NodeDestroyed => true
  }

  function Next(n: Node, e: Event, w: World): Node {
    if !Enabled(n, e) then n
    else
      match e
      case Delivered(g, d) => n.Deliver(g, d, w)
      case MissionAnswered(i, a) => n.MissionResponse(i, a, w)
      case MissionDeadline(i) => n.MissionSendTimeout(i, w)
      case CancelAnswered(i, confirmed) => n.MissionCancelResponse(i, confirmed, w)
      case CancelDeadline(i) => n.MissionCancelTimeout(i, w)
      case MissionEnded(i) => n.MissionResult(i, w)
      case StopEnded(i) => n.EndStop(i, w)
      case SpeakRechecked(i) => n.SpeakRecheck(i, w)
      case SpeakAnswered(i, a) => n.SpeakResponse(i, a, w)
      case SpeakDeadline(i) => n.SpeakSendTimeout(i)
      case SpeakEnded(i) => n.SpeakResult(i)
      case NodeDestroyed => n.RetireSpeak(w)
  }

  datatype Happening = Happening(e: Event, w: World)

  function Run(hs: seq<Happening>, n: nat): Node
    requires n <= |hs|
  {
    if n == 0 then NEW_NODE else Next(Run(hs, n - 1), hs[n - 1].e, hs[n - 1].w)
  }

  // ---- Mission slots

  /**
    A slot's goal: if accepted it is current, finished, or its cancel has been attempted, and attempted
    at most once.
   */
  predicate SlotHolds(m: Slot, current: bool) {
    && |m.attempts| <= 1
    && (m.accepted ==> m.responded) && (m.responded ==> m.sent)
    && (m.hasHandle ==> m.accepted && !m.state.SendPending? && (m.cancelStarted <==> |m.attempts| == 1))
    && (!m.hasHandle ==> !m.cancelStarted && !m.resultAwaited && !m.cancelAwaited && !m.cancelTimer)
    && (!m.accepted ==> m.attempts == []) && (m.cancelStarted ==> m.cancelRequested)
    && (m.resultAwaited ==> m.accepted) && (m.finished ==> m.accepted)
    && (current && m.accepted ==> m.hasHandle && !m.finished)
    && (current && !m.accepted ==> m.state == (if m.cancelRequested then CancelPending else SendPending))
    && (m.accepted && !m.finished && !current ==> |m.attempts| == 1)
  }

  predicate Slots(n: Node) {
    && (n.slot.Some? ==> n.slot.value < |n.slots|)
    && (forall i :: 0 <= i < |n.slots| ==> SlotHolds(n.slots[i], n.slot == Some(i)))
  }

  // ---- Speak operations

  predicate OperationHolds(o: Operation, current: bool) {
    && |o.attempts| <= 1
    && (o.accepted ==> o.responded) && (o.responded ==> o.sent) && (o.sent ==> o.sendStarted)
    && (o.hasHandle ==> o.accepted)
    && (o.cancelStarted <==> |o.attempts| == 1) && (!o.accepted ==> o.attempts == [])
    && (o.resultAwaited ==> o.accepted) && (o.finished ==> o.accepted)
    && (o.timer.SendDeadline? ==> o.sent && !o.accepted) && (o.timer.Recheck? ==> !o.sendStarted)
    && (current ==> !o.stale && !o.cancelOnAccept && (o.accepted ==> o.hasHandle && !o.finished && o.timer.NoTimer?))
    && (!current ==> o.timer.NoTimer?)
    && (o.accepted && !o.finished && !current ==> |o.attempts| == 1)
  }

  predicate Operations(n: Node) {
    && (n.speaking.Some? ==> n.speaking.value == |n.operations| - 1)
    && (forall i :: 0 <= i < |n.operations| ==>
          OperationHolds(n.operations[i], n.speaking == Some(i)) && n.operations[i].sourceSeq == i + 1)
    && n.speakSeq == |n.operations| <= MAX_UINT64
    && (n.speaking.Some? ==> n.operations[n.speaking.value].turn == n.turn)
  }

  /** Goals go out in strictly increasing source sequence, at most one per operation. */
  predicate Goals(n: Node) {
    && |n.operations| == n.speakSeq
    && (forall i, j :: 0 <= i < j < |n.goals| ==> n.goals[i] < n.goals[j])
    && (forall i :: 0 <= i < |n.goals| ==> 0 < n.goals[i] <= n.speakSeq && n.operations[n.goals[i] - 1].sendStarted)
  }

  predicate Speech(n: Node) {
    Operations(n) && Goals(n)
  }

  /** Only the speaking side has changed. */
  predicate SpeechOnly(n: Node, m: Node) {
    m.slot == n.slot && m.slots == n.slots && m.turn == n.turn && m.stop == n.stop && m.stopTurns == n.stopTurns
  }

  /** Replacing one operation, and possibly giving it up. */
  lemma OperationChanged(n: Node, i: nat, o: Operation, speaking: Option<nat>, goals: seq<nat>)
    requires Speech(n) && i < |n.operations| && (speaking == n.speaking || (n.speaking == Some(i) && speaking.None?))
    requires OperationHolds(o, speaking == Some(i)) && o.sourceSeq == n.operations[i].sourceSeq
    requires o.turn == n.operations[i].turn && (n.operations[i].sendStarted ==> o.sendStarted)
    requires goals == n.goals || (goals == n.goals + [o.sourceSeq] && speaking == Some(i)
                                  && o.sendStarted && !n.operations[i].sendStarted)
    ensures Speech(n.(speaking := speaking, goals := goals).SetOperation(i, o))
  {
    var m := n.(speaking := speaking, goals := goals).SetOperation(i, o);
    assert forall k :: 0 <= k < |n.goals| && n.goals[k] == o.sourceSeq ==> n.operations[i].sendStarted;
  }

  lemma RetireKeeps(n: Node, w: World)
    requires Speech(n)
    ensures Speech(n.RetireSpeak(w)) && SpeechOnly(n, n.RetireSpeak(w)) && n.RetireSpeak(w).speaking.None?
  {
    hide Speech;
    if n.speaking.Some? {
      CurrentIsLast(n);
      var i := n.speaking.value;
      var o := n.operations[i].(stale := true, cancelOnAccept := true, timer := NoTimer);
      var o' := if o.hasHandle && !o.cancelStarted
                then o.(cancelStarted := true, attempts := o.attempts + [w.speakCancelSends]) else o;
      OperationChanged(n, i, o', None, n.goals);
      assert n.RetireSpeak(w) == n.(speaking := None, goals := n.goals).SetOperation(i, o');
    }
  }

  lemma CurrentIsLast(n: Node)
    requires Speech(n)
    ensures n.speaking.Some? ==>
              n.speaking.value == |n.operations| - 1 && OperationHolds(n.operations[n.speaking.value], true)
  {
  }

  lemma SendKeeps(n: Node, i: nat, w: World)
    requires Speech(n) && i < |n.operations|
    ensures Speech(n.SendSpeak(i, w)) && SpeechOnly(n, n.SendSpeak(i, w))
  {
    var o := n.operations[i];
    assert OperationHolds(o, n.speaking == Some(i));
    hide Speech;
    if n.speaking == Some(i) && !o.stale && !o.sendStarted {
      if w.speakSends {
        OperationChanged(n, i, o.(sendStarted := true, sent := true, timer := SendDeadline), n.speaking,
                         n.goals + [o.sourceSeq]);
      } else {
        var given := o.(sendStarted := true, timer := NoTimer);
        OperationChanged(n, i, given, None, n.goals);
        assert n.SendSpeak(i, w) == n.(speaking := None, goals := n.goals).SetOperation(i, given);
      }
    }
  }

  lemma AwaitKeeps(n: Node, i: nat, w: World)
    requires Speech(n) && n.speaking == Some(i) && i < |n.operations| && !n.operations[i].sendStarted
    ensures Speech(n.AwaitServer(i, w)) && SpeechOnly(n, n.AwaitServer(i, w))
  {
  }

  function Fresh(n: Node): Node {
    n.(speakSeq := n.speakSeq + 1, speaking := Some(|n.operations|),
       operations := n.operations + [NewOperation(n.turn, n.speakSeq + 1)])
  }

  lemma FreshKeeps(n: Node)
    requires Speech(n) && n.speaking.None? && n.speakSeq < MAX_UINT64
    ensures Speech(Fresh(n))
  {
  }

  lemma SpeakKeeps(n: Node, w: World)
    requires Speech(n)
    ensures Speech(n.Speak(n.turn, w)) && SpeechOnly(n, n.Speak(n.turn, w))
  {
    hide Goals, Operations;
    if n.speakSeq < MAX_UINT64 {
      RetireKeeps(n, w);
      var r := n.RetireSpeak(w);
      assert r.speakSeq == n.speakSeq;
      FreshKeeps(r);
      var m := Fresh(r);
      if w.speakReady { SendKeeps(m, |r.operations|, w); } else { AwaitKeeps(m, |r.operations|, w); }
    }
  }

  lemma RecheckKeeps(n: Node, i: nat, w: World)
    requires Speech(n) && i < |n.operations|
    ensures Speech(n.SpeakRecheck(i, w)) && SpeechOnly(n, n.SpeakRecheck(i, w))
  {
    var o := n.operations[i];
    if n.speaking == Some(i) && !o.stale && !o.sendStarted {
      var m := n.SetOperation(i, o.(timer := NoTimer));
      assert Speech(m);
      if w.late {
        AwaitKeeps(m, i, w);
      } else if w.speakReady {
        SendKeeps(m, i, w);
      } else {
        AwaitKeeps(m, i, w);
      }
    }
  }

  lemma AnsweredKeeps(n: Node, i: nat, a: Answer, w: World)
    requires Speech(n) && Enabled(n, SpeakAnswered(i, a))
    ensures Speech(n.SpeakResponse(i, a, w)) && SpeechOnly(n, n.SpeakResponse(i, a, w))
  {
    hide Goals;
    assert OperationHolds(n.operations[i], n.speaking == Some(i));
    var m := n.SpeakResponse(i, a, w);
    assert m == n.(speaking := m.speaking, goals := n.goals).SetOperation(i, m.operations[i]);
    OperationChanged(n, i, m.operations[i], m.speaking, n.goals);
  }

  lemma DeadlineKeeps(n: Node, i: nat)
    requires Speech(n) && Enabled(n, SpeakDeadline(i))
    ensures Speech(n.SpeakSendTimeout(i)) && SpeechOnly(n, n.SpeakSendTimeout(i))
  {
    if n.speaking == Some(i) {
      OperationChanged(n, i, n.operations[i].(timer := NoTimer, stale := true), None, n.goals);
    }
  }

  lemma EndedKeeps(n: Node, i: nat)
    requires Speech(n) && Enabled(n, SpeakEnded(i))
    ensures Speech(n.SpeakResult(i)) && SpeechOnly(n, n.SpeakResult(i))
  {
    OperationChanged(n, i, n.operations[i].(finished := true), if n.speaking == Some(i) then None else n.speaking, n.goals);
  }

  // ---- slots

  lemma SpeakForSlotKeeps(n: Node, i: nat, w: World)
    requires Speech(n) && i < |n.slots|
    ensures Speech(n.SpeakForSlot(i, w)) && SpeechOnly(n, n.SpeakForSlot(i, w))
  {
    SpeakKeeps(n, w);
  }

  predicate Inv(n: Node) {
    Slots(n) && Speech(n) && (n.stop.Some? ==> n.stop.value < |n.stopTurns| && n.stopTurns[n.stop.value] == n.turn)
  }

  /** The Mission side and speech hold; turns and the stop operation are as they were. */
  predicate Kept(n: Node, m: Node) {
    Slots(m) && Speech(m) && m.turn == n.turn && m.stop == n.stop && m.stopTurns == n.stopTurns
  }

  /** Changing one slot, and possibly giving it up. */
  lemma SlotChanged(n: Node, i: nat, m: Slot, slot: Option<nat>)
    requires Slots(n) && Speech(n) && i < |n.slots| && (slot == n.slot || (n.slot == Some(i) && slot.None?))
    requires SlotHolds(m, slot == Some(i))
    ensures Kept(n, n.(slot := slot).SetSlot(i, m))
  {
  }

  /** Gives the slot up and, if its turn is still the newest, says so. */
  lemma GivingUpKeeps(n: Node, i: nat, w: World)
    requires Slots(n) && Speech(n) && i < |n.slots| && n.slot == Some(i)
    requires SlotHolds(n.slots[i].(sendTimer := false, cancelTimer := false), false)
    ensures Kept(n, n.ClearSlot(i).SpeakForSlot(i, w)) && Kept(n, n.MissionSendFailure(i, w))
  {
    hide Node.SpeakForSlot, Operations, Goals;
    SlotChanged(n, i, n.slots[i].(sendTimer := false, cancelTimer := false), None);
    SpeakForSlotKeeps(n.ClearSlot(i), i, w);
  }

  lemma FailureKeeps(n: Node, i: nat, w: World)
    requires Slots(n) && Speech(n) && i < |n.slots|
    requires n.slot == Some(i) ==> SlotHolds(n.slots[i].(sendTimer := false, cancelTimer := false), false)
    ensures Kept(n, n.MissionSendFailure(i, w))
  {
    if n.slot == Some(i) {
      hide Node.MissionSendFailure, Operations, Goals;
      GivingUpKeeps(n, i, w);
    }
  }

  lemma CancelFailureKeeps(n: Node, i: nat, w: World)
    requires Slots(n) && Speech(n) && i < |n.slots| && (n.slot == Some(i) ==> n.slots[i].hasHandle)
    ensures Kept(n, n.CancelFailure(i, w))
  {
    hide Node.SpeakForSlot, Operations, Goals;
    if n.slot == Some(i) {
      var m := n.slots[i].(cancelTimer := false, state := Active, cancelFailureSpoken := true);
      SlotChanged(n, i, m, n.slot);
      SpeakForSlotKeeps(n.SetSlot(i, m), i, w);
    }
  }

  lemma RequestCancelKeeps(n: Node, i: nat, w: World)
    requires Slots(n) && Speech(n) && i < |n.slots| && n.slots[i].cancelRequested
    ensures Kept(n, n.RequestMissionCancel(i, w))
  {
    hide Node.CancelFailure, Operations, Goals;
    var m := n.slots[i];
    assert SlotHolds(m, n.slot == Some(i));
    if n.slot == Some(i) && m.hasHandle && !m.cancelStarted {
      var m' := m.(cancelStarted := true, attempts := m.attempts + [w.cancelSends],
                   cancelTimer := m.cancelTimer || w.cancelSends, cancelAwaited := m.cancelAwaited || w.cancelSends);
      SlotChanged(n, i, m', n.slot);
      CancelFailureKeeps(n.SetSlot(i, m'), i, w);
    }
  }

  lemma SetTwice(n: Node, i: nat, m: Slot, m': Slot)
    requires i < |n.slots|
    ensures n.SetSlot(i, m).SetSlot(i, m') == n.SetSlot(i, m')
  {
  }

  lemma MissionResponseKeeps(n: Node, i: nat, a: Answer, w: World)
    requires Slots(n) && Speech(n) && Enabled(n, MissionAnswered(i, a))
    ensures Kept(n, n.MissionResponse(i, a, w))
  {
    hide Node.MissionSendFailure, Node.RequestMissionCancel, Operations, Goals;
    assert SlotHolds(n.slots[i], n.slot == Some(i));
    var m := n.slots[i].(responded := true, accepted := a.Accepted?);
    if a.Refused? {
      SlotChanged(n, i, m, n.slot);
      FailureKeeps(n.SetSlot(i, m), i, w);
    } else if n.slot != Some(i) {
      SetTwice(n, i, m, m.(attempts := m.attempts + [w.cancelSends]));
      SlotChanged(n, i, m.(attempts := m.attempts + [w.cancelSends]), n.slot);
    } else {
      var held := m.(sendTimer := false, hasHandle := true, resultAwaited := w.attaches,
                     state := if m.cancelRequested then CancelPending else Active);
      SetTwice(n, i, m, held);
      SlotChanged(n, i, held, n.slot);
      if m.cancelRequested { RequestCancelKeeps(n.SetSlot(i, held), i, w); }
    }
  }

  lemma MissionTimeoutKeeps(n: Node, i: nat, w: World)
    requires Slots(n) && Speech(n) && i < |n.slots|
    ensures Kept(n, n.MissionSendTimeout(i, w))
  {
    hide Node.SpeakForSlot, Operations, Goals;
    var m := n.slots[i].(sendTimer := false);
    assert SlotHolds(n.slots[i], n.slot == Some(i));
    SlotChanged(n, i, m, n.slot);
    if n.slot == Some(i) && m.state == SendPending {
      GivingUpKeeps(n.SetSlot(i, m), i, w);
    }
  }

  lemma CancelAnswerKeeps(n: Node, i: nat, confirmed: bool, w: World)
    requires Slots(n) && Speech(n) && Enabled(n, CancelAnswered(i, confirmed))
    ensures Kept(n, n.MissionCancelResponse(i, confirmed, w))
  {
    hide Node.CancelFailure, Operations, Goals;
    var m := n.slots[i].(cancelAwaited := false);
    assert SlotHolds(n.slots[i], n.slot == Some(i));
    if n.slot == Some(i) && confirmed {
      SlotChanged(n, i, m.(cancelTimer := false), n.slot);
      assert n.MissionCancelResponse(i, confirmed, w) == n.SetSlot(i, m.(cancelTimer := false));
    } else {
      SlotChanged(n, i, m, n.slot);
      if n.slot == Some(i) { CancelFailureKeeps(n.SetSlot(i, m), i, w); }
    }
  }

  lemma CancelTimeoutKeeps(n: Node, i: nat, w: World)
    requires Slots(n) && Speech(n) && Enabled(n, CancelDeadline(i))
    ensures Kept(n, n.MissionCancelTimeout(i, w))
  {
    hide Node.CancelFailure, Operations, Goals;
    var m := n.slots[i].(cancelTimer := false);
    assert SlotHolds(n.slots[i], n.slot == Some(i));
    SlotChanged(n, i, m, n.slot);
    CancelFailureKeeps(n.SetSlot(i, m), i, w);
  }

  lemma MissionResultKeeps(n: Node, i: nat, w: World)
    requires Slots(n) && Speech(n) && Enabled(n, MissionEnded(i))
    ensures Kept(n, n.MissionResult(i, w))
  {
    hide Node.SpeakForSlot, Operations, Goals;
    assert SlotHolds(n.slots[i], n.slot == Some(i));
    var m := n.slots[i].(finished := true);
    if n.slot == Some(i) {
      var cleared := m.(sendTimer := false, cancelTimer := false);
      SlotChanged(n, i, cleared, None);
      var t := n.SetSlot(i, m).ClearSlot(i);
      assert t == n.(slot := None).SetSlot(i, cleared);
      SpeakForSlotKeeps(t, i, w);
    } else {
      SlotChanged(n, i, m, n.slot);
    }
  }

  lemma HandleMissionKeeps(n: Node, w: World)
    requires Slots(n) && Speech(n)
    ensures Kept(n, n.HandleMission(n.turn, w))
  {
    hide Operations, Goals, Node.Speak, Node.MissionSendFailure;
    if n.slot.Some? {
      SpeakKeeps(n, w);
    } else {
      var i := |n.slots|;
      var m := n.(slot := Some(i), slots := n.slots + [NewSlot(n.turn)]);
      SpeechIgnoresSlots(n, m);
      assert Slots(m);
      if w.missionSends {
        SlotChanged(m, i, NewSlot(n.turn).(sent := true, sendTimer := true), m.slot);
      } else {
        GivingUpKeeps(m, i, w);
      }
    }
  }

  lemma SpeechIgnoresSlots(n: Node, m: Node)
    requires Speech(n) && m == n.(slot := m.slot, slots := m.slots)
    ensures Speech(m)
  {
  }

  lemma HandleCancelKeeps(n: Node, named: Option<nat>, w: World)
    requires Slots(n) && Speech(n)
    ensures Kept(n, n.HandleCancel(named, n.turn, w))
  {
    if n.slot.None? || named != n.slot {
      SpeakKeeps(n, w);
    } else {
      var i := n.slot.value;
      assert SlotHolds(n.slots[i], true);
      var m := n.slots[i];
      var m' := m.(terminalTurn := n.turn, cancelRequested := true,
                   state := if m.cancelRequested then m.state else CancelPending);
      SlotChanged(n, i, m', n.slot);
      if !m.cancelRequested { RequestCancelKeeps(n.SetSlot(i, m'), i, w); }
    }
  }

  // ---- every event

  lemma DeliveredKeeps(n: Node, g: nat, d: Demand, w: World)
    requires Inv(n) && n.turn < g
    ensures Inv(n.Deliver(g, d, w)) && n.Deliver(g, d, w).turn == g
  {
    hide Node.Speak, Node.HandleMission, Node.HandleCancel, Operations, Goals;
    RetireKeeps(n, w);
    var r := n.RetireSpeak(w).(turn := g, stop := None);
    assert r == n.(turn := g, stop := None).RetireSpeak(w) by { RetireIgnoresTurn(n, g, w); }
    assert Speech(r) by { TurnWhileSilent(n.RetireSpeak(w), r); }
    match d
    case Mission => HandleMissionKeeps(r, w);
    case Cancel(named) => HandleCancelKeeps(r, named, w);
    case Stop =>
      var t := r.(stop := Some(|r.stopTurns|), stopTurns := r.stopTurns + [g]);
      assert Speech(t) by { TurnWhileSilent(r, t); }
      if !w.stopSends { StopKeeps(t, |r.stopTurns|, w); }
    case Say => SpeakKeeps(r, w);
    case Nothing =>
  }

  lemma RetireIgnoresTurn(n: Node, g: nat, w: World)
    ensures n.RetireSpeak(w).(turn := g, stop := None) == n.(turn := g, stop := None).RetireSpeak(w)
  {
  }

  lemma TurnWhileSilent(n: Node, m: Node)
    requires Speech(n) && n.speaking.None? && m.speaking.None?
    requires m.operations == n.operations && m.speakSeq == n.speakSeq && m.goals == n.goals
    ensures Speech(m)
  {
  }

  lemma StopKeeps(n: Node, i: nat, w: World)
    requires Inv(n) && i < |n.stopTurns|
    ensures Inv(n.EndStop(i, w)) && n.EndStop(i, w).turn == n.turn
  {
    if n.stop == Some(i) {
      hide Operations, Goals;
      var t := n.(stop := None);
      assert Speech(t) by { SpeechIgnoresStop(n); }
      SpeakKeeps(t, w);
    }
  }

  lemma SpeechIgnoresStop(n: Node)
    requires Speech(n)
    ensures Speech(n.(stop := None))
  {
  }

  lemma InvKept(n: Node, e: Event, w: World)
    requires Inv(n)
    ensures Inv(Next(n, e, w)) && n.turn <= Next(n, e, w).turn
  {
    hide Operations, Goals, Slots, Node.Deliver, Node.MissionResponse, Node.MissionSendTimeout,
      Node.MissionCancelResponse, Node.MissionCancelTimeout, Node.MissionResult, Node.EndStop,
      Node.SpeakRecheck, Node.SpeakResponse, Node.SpeakSendTimeout, Node.SpeakResult, Node.RetireSpeak;
    if Enabled(n, e) {
      match e
      case Delivered(g, d) => DeliveredKeeps(n, g, d, w);
      case MissionAnswered(i, a) => MissionResponseKeeps(n, i, a, w);
      case MissionDeadline(i) => MissionTimeoutKeeps(n, i, w);
      case CancelAnswered(i, confirmed) => CancelAnswerKeeps(n, i, confirmed, w);
      case CancelDeadline(i) => CancelTimeoutKeeps(n, i, w);
      case MissionEnded(i) => MissionResultKeeps(n, i, w);
      case StopEnded(i) => StopKeeps(n, i, w);
      case SpeakRechecked(i) => RecheckKeeps(n, i, w); SlotsIgnoreSpeech(n, Next(n, e, w));
      case SpeakAnswered(i, a) => AnsweredKeeps(n, i, a, w); SlotsIgnoreSpeech(n, Next(n, e, w));
      case SpeakDeadline(i) => DeadlineKeeps(n, i); SlotsIgnoreSpeech(n, Next(n, e, w));
      case SpeakEnded(i) => EndedKeeps(n, i); SlotsIgnoreSpeech(n, Next(n, e, w));
      case NodeDestroyed => RetireKeeps(n, w); SlotsIgnoreSpeech(n, Next(n, e, w));
    }
  }

  lemma SlotsIgnoreSpeech(n: Node, m: Node)
    requires Slots(n) && SpeechOnly(n, m)
    ensures Slots(m)
  {
  }

  lemma {:induction false} ReachableNodesKeep(hs: seq<Happening>, n: nat)
    requires n <= |hs|
    ensures Inv(Run(hs, n))
  {
    if n == 0 {
    } else {
      hide Next, Inv;
      ReachableNodesKeep(hs, n - 1);
      InvKept(Run(hs, n - 1), hs[n - 1].e, hs[n - 1].w);
    }
  }
}

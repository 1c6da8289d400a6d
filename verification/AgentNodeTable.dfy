/**
  What each event does to the Mission slot, to speech and to the stop operation, told on the
  fields before and after it, and what follows for cancels over every run.
 */
module AgentNodeTable {
  import opened Wrappers
  import opened AgentNodeState
  import opened AgentNodeRuns
  import opened AgentNodeTheorems

  // ---- the Mission side

  predicate SameSlots(n: Node, t: Node) {
    t.slot == n.slot && t.slots == n.slots
  }

  /** All slots but `i` are as they were, and so is what slot `i` has sent and to whom it belongs. */
  predicate OnlySlot(n: Node, i: nat, t: Node) {
    && i < |n.slots| && |t.slots| == |n.slots|
    && (forall k :: 0 <= k < |n.slots| && k != i ==> t.slots[k] == n.slots[k])
    && t.slots[i].sent == n.slots[i].sent
  }

  /** Slot `i` has seen neither a new turn nor a new request, and its goal neither an answer nor an end. */
  predicate SameRequest(m: Slot, m': Slot) {
    && m'.terminalTurn == m.terminalTurn && m'.cancelRequested == m.cancelRequested && m'.hasHandle == m.hasHandle
    && m'.responded == m.responded && m'.accepted == m.accepted
  }

  /** A goal is asked to cancel once more. */
  predicate Asked(m: Slot, m': Slot, asked: bool, w: World) {
    m'.attempts == if asked then m.attempts + [w.cancelSends] else m.attempts
  }

  /** A cancel that went out is awaited under a deadline; one that raised has failed, and failures are noted. */
  predicate Tracked(m: Slot, m': Slot, asked: bool, w: World) {
    && (asked && w.cancelSends ==> m'.cancelTimer && m'.cancelAwaited)
    && (asked && !w.cancelSends ==> !m'.cancelTimer)
    && m'.cancelFailureSpoken == (m.cancelFailureSpoken || (asked && !w.cancelSends))
  }

  /** The slot after the event: given up, or as it was. */
  predicate SlotEnds(n: Node, t: Node, ends: bool) {
    t.slot == if ends then None else n.slot
  }

  /** What an event that can happen does to the Mission side. */
  predicate SlotSide(n: Node, e: Event, w: World, t: Node) {
    match e
    case Delivered(g, Mission) =>
      if n.slot.Some? then SameSlots(n, t)
      else
        && |t.slots| == |n.slots| + 1 && t.slots[..|n.slots|] == n.slots
        && t.slot == (if w.missionSends then Some(|n.slots|) else None)
        && var m := t.slots[|n.slots|];
           && m.terminalTurn == g && m.sent == m.sendTimer == w.missionSends
           && !m.responded && !m.accepted && !m.hasHandle && !m.cancelRequested && m.attempts == []
    case Delivered(g, Cancel(named)) =>
      if n.slot.None? || named != n.slot then SameSlots(n, t)
      else
        var i := n.slot.value;
        && OnlySlot(n, i, t) && SlotEnds(n, t, false)
        && var m, m' := n.slots[i], t.slots[i];
           && m'.terminalTurn == g && m'.cancelRequested && m'.hasHandle == m.hasHandle
           && m'.responded == m.responded && m'.accepted == m.accepted && m'.finished == m.finished
           && Asked(m, m', m.hasHandle && !m.cancelRequested, w)
           && Tracked(m, m', m.hasHandle && !m.cancelRequested, w)
    case MissionAnswered(i, a) =>
      && OnlySlot(n, i, t) && SlotEnds(n, t, n.slot == Some(i) && a.Refused?)
      && var m, m' := n.slots[i], t.slots[i];
         && m'.responded && m'.accepted == a.Accepted? && m'.hasHandle == (a.Accepted? && n.slot == Some(i))
         && m'.terminalTurn == m.terminalTurn && m'.cancelRequested == m.cancelRequested && m'.finished == m.finished
         && (a.Accepted? && n.slot == Some(i) ==> m'.resultAwaited == w.attaches)
         && Asked(m, m', a.Accepted? && (n.slot != Some(i) || m.cancelRequested), w)
         && (n.slot == Some(i) ==> Tracked(m, m', a.Accepted? && m.cancelRequested, w))
    case MissionDeadline(i) =>
      && OnlySlot(n, i, t)
      && SlotEnds(n, t, n.slot == Some(i) && !n.slots[i].accepted && !n.slots[i].cancelRequested)
      && SameRequest(n.slots[i], t.slots[i]) && Asked(n.slots[i], t.slots[i], false, w)
      && t.slots[i].finished == n.slots[i].finished && !t.slots[i].sendTimer
    case CancelAnswered(i, confirmed) =>
      && OnlySlot(n, i, t) && SlotEnds(n, t, false)
      && SameRequest(n.slots[i], t.slots[i]) && Asked(n.slots[i], t.slots[i], false, w)
      && t.slots[i].finished == n.slots[i].finished && !t.slots[i].cancelAwaited
      && (n.slot == Some(i) ==>
            !t.slots[i].cancelTimer && t.slots[i].cancelFailureSpoken == (n.slots[i].cancelFailureSpoken || !confirmed))
    case CancelDeadline(i) =>
      && OnlySlot(n, i, t) && SlotEnds(n, t, false)
      && SameRequest(n.slots[i], t.slots[i]) && Asked(n.slots[i], t.slots[i], false, w)
      && t.slots[i].finished == n.slots[i].finished && !t.slots[i].cancelTimer
      && (n.slot == Some(i) ==> t.slots[i].cancelFailureSpoken)
    case MissionEnded(i) =>
      && OnlySlot(n, i, t) && SlotEnds(n, t, n.slot == Some(i))
      && SameRequest(n.slots[i], t.slots[i]) && Asked(n.slots[i], t.slots[i], false, w) && t.slots[i].finished
    case _ => SameSlots(n, t)
  }

  /** A cancel that failed changes what is said, not what has been asked. */
  lemma CancelFailing(n: Node, i: nat, w: World)
    requires i < |n.slots|
    ensures var t := n.CancelFailure(i, w);
            && OnlySlot(n, i, t) && SlotEnds(n, t, false) && SameRequest(n.slots[i], t.slots[i])
            && Asked(n.slots[i], t.slots[i], false, w) && t.slots[i].finished == n.slots[i].finished
            && t.slots[i].cancelAwaited == n.slots[i].cancelAwaited && t.slots[i].resultAwaited == n.slots[i].resultAwaited
            && (n.slot == Some(i) ==> !t.slots[i].cancelTimer && t.slots[i].cancelFailureSpoken)
            && (n.slot != Some(i) ==> t == n)
            && t.turn == n.turn
  {
    hide Node.SpeakForSlot;
    if n.slot == Some(i) {
      SpeakForSlotKeepsSlots(n.SetSlot(i, n.slots[i].(cancelTimer := false, state := Active, cancelFailureSpoken := true)),
                             i, w);
    }
  }

  lemma OnlyThisSlot(n: Node, i: nat, m: Slot)
    requires i < |n.slots| && m.sent == n.slots[i].sent
    ensures OnlySlot(n, i, n.SetSlot(i, m)) && n.SetSlot(i, m).slots[i] == m && n.SetSlot(i, m).slot == n.slot
  {
  }

  lemma OnlyTwice(n: Node, i: nat, m: Node, t: Node)
    requires OnlySlot(n, i, m) && OnlySlot(m, i, t)
    ensures OnlySlot(n, i, t)
  {
  }

  /** The slot once its goal's cancel has been asked for, whether that went out or raised. */
  function WithAttempt(m: Slot, w: World): Slot {
    m.(cancelStarted := true, attempts := m.attempts + [w.cancelSends],
       cancelTimer := m.cancelTimer || w.cancelSends, cancelAwaited := m.cancelAwaited || w.cancelSends)
  }

  lemma AskingIs(n: Node, i: nat, w: World)
    requires i < |n.slots|
    ensures var asked := n.SetSlot(i, WithAttempt(n.slots[i], w));
            n.RequestMissionCancel(i, w)
            == if n.slot != Some(i) || !n.slots[i].hasHandle || n.slots[i].cancelStarted then n
               else if w.cancelSends then asked else asked.CancelFailure(i, w)
  {
    hide Node.CancelFailure;
  }

  lemma Asking(n: Node, i: nat, w: World)
    requires i < |n.slots|
    ensures var t := n.RequestMissionCancel(i, w);
            && OnlySlot(n, i, t) && SlotEnds(n, t, false) && SameRequest(n.slots[i], t.slots[i])
            && Asked(n.slots[i], t.slots[i], n.slot == Some(i) && n.slots[i].hasHandle && !n.slots[i].cancelStarted, w)
            && Tracked(n.slots[i], t.slots[i], n.slot == Some(i) && n.slots[i].hasHandle && !n.slots[i].cancelStarted, w)
            && t.slots[i].finished == n.slots[i].finished && t.slots[i].resultAwaited == n.slots[i].resultAwaited
  {
    hide Node.CancelFailure, Node.RequestMissionCancel;
    AskingIs(n, i, w);
    var m' := WithAttempt(n.slots[i], w);
    OnlyThisSlot(n, i, m');
    hide Node.SetSlot, OnlySlot;
    var asked := n.SetSlot(i, m');
    if n.slot == Some(i) && n.slots[i].hasHandle && !n.slots[i].cancelStarted {
      CancelFailing(asked, i, w);
      OnlyTwice(n, i, asked, asked.CancelFailure(i, w));
    } else {
      Unchanged(n, i);
    }
  }

  lemma Unchanged(n: Node, i: nat)
    requires i < |n.slots|
    ensures OnlySlot(n, i, n)
  {
  }

  lemma GivingUp(n: Node, i: nat, w: World)
    requires i < |n.slots| && n.slot == Some(i)
    ensures var t := n.ClearSlot(i).SpeakForSlot(i, w);
            && t == n.MissionSendFailure(i, w) && OnlySlot(n, i, t) && t.slot == None
            && t.slots[i] == n.slots[i].(sendTimer := false, cancelTimer := false)
  {
    hide Node.SpeakForSlot;
    SpeakForSlotKeepsSlots(n.ClearSlot(i), i, w);
  }

  lemma MissionHandled(r: Node, g: nat, w: World)
    ensures SlotSide(r, Delivered(g, Mission), w, r.HandleMission(g, w))
  {
    hide Node.Speak, Node.MissionSendFailure;
    SpeakKeepsSlots(r, g, w);
    if r.slot.None? && !w.missionSends {
      GivingUp(r.(slot := Some(|r.slots|), slots := r.slots + [NewSlot(g)]), |r.slots|, w);
    }
  }

  lemma CancelHandled(r: Node, named: Option<nat>, g: nat, w: World)
    requires Slots(r)
    ensures SlotSide(r, Delivered(g, Cancel(named)), w, r.HandleCancel(named, g, w))
  {
    hide Node.Speak, Node.RequestMissionCancel;
    SpeakKeepsSlots(r, g, w);
    if r.slot.Some? {
      var i := r.slot.value;
      var m := r.slots[i];
      assert SlotHolds(m, true);
      Asking(r.SetSlot(i, m.(terminalTurn := g, cancelRequested := true,
                             state := if m.cancelRequested then m.state else CancelPending)), i, w);
    }
  }

  lemma DeliverySlots(n: Node, g: nat, d: Demand, w: World)
    requires Slots(n) && n.turn < g
    ensures SlotSide(n, Delivered(g, d), w, n.Deliver(g, d, w))
  {
    hide Node.Speak, Node.RetireSpeak, Node.HandleMission, Node.HandleCancel, Node.HandleStop;
    SpeakKeepsSlots(n.(turn := Later(n.turn, g), stop := None), g, w);
    var r := n.(turn := Later(n.turn, g), stop := None).RetireSpeak(w);
    assert r.slots == n.slots && r.slot == n.slot;
    match d
    case Mission => MissionHandled(r, g, w);
    case Cancel(named) => CancelHandled(r, named, g, w);
    case Stop => HandledStop(r, g, w);
    case _ => SpeakKeepsSlots(r, g, w);
  }

  lemma AnswerSlots(n: Node, i: nat, a: Answer, w: World)
    requires Slots(n) && Enabled(n, MissionAnswered(i, a))
    ensures SlotSide(n, MissionAnswered(i, a), w, n.MissionResponse(i, a, w))
  {
    hide Node.MissionSendFailure, Node.RequestMissionCancel;
    assert SlotHolds(n.slots[i], n.slot == Some(i));
    var m := n.slots[i].(responded := true, accepted := a.Accepted?);
    OnlyThisSlot(n, i, m);
    if a.Refused? {
      if n.slot == Some(i) { GivingUp(n.SetSlot(i, m), i, w); } else { NothingToGiveUp(n.SetSlot(i, m), i, w); }
    } else if n.slot != Some(i) {
      SetTwice(n, i, m, m.(attempts := m.attempts + [w.cancelSends]));
      OnlyThisSlot(n, i, m.(attempts := m.attempts + [w.cancelSends]));
    } else {
      var held := m.(sendTimer := false, hasHandle := true, resultAwaited := w.attaches,
                     state := if m.cancelRequested then CancelPending else Active);
      SetTwice(n, i, m, held);
      OnlyThisSlot(n, i, held);
      Asking(n.SetSlot(i, held), i, w);
    }
  }

  lemma NothingToGiveUp(n: Node, i: nat, w: World)
    requires i < |n.slots| && n.slot != Some(i)
    ensures n.MissionSendFailure(i, w) == n
  {
  }

  lemma DeadlineSlots(n: Node, i: nat, w: World)
    requires Slots(n) && Enabled(n, MissionDeadline(i))
    ensures SlotSide(n, MissionDeadline(i), w, n.MissionSendTimeout(i, w))
  {
    hide Node.SpeakForSlot, Node.ClearSlot, Node.MissionSendFailure;
    assert SlotHolds(n.slots[i], n.slot == Some(i));
    var m := n.slots[i].(sendTimer := false);
    OnlyThisSlot(n, i, m);
    if n.slot == Some(i) { GivingUp(n.SetSlot(i, m), i, w); }
  }

  lemma CancelAnswerSlots(n: Node, i: nat, confirmed: bool, w: World)
    requires Slots(n) && Enabled(n, CancelAnswered(i, confirmed))
    ensures SlotSide(n, CancelAnswered(i, confirmed), w, n.MissionCancelResponse(i, confirmed, w))
  {
    hide Node.CancelFailure;
    var m := n.slots[i].(cancelAwaited := false);
    OnlyThisSlot(n, i, m);
    OnlyThisSlot(n, i, m.(cancelTimer := false));
    SetTwice(n, i, m, m.(cancelTimer := false));
    CancelFailing(n.SetSlot(i, m), i, w);
  }

  lemma CancelDeadlineSlots(n: Node, i: nat, w: World)
    requires Slots(n) && Enabled(n, CancelDeadline(i))
    ensures SlotSide(n, CancelDeadline(i), w, n.MissionCancelTimeout(i, w))
  {
    hide Node.CancelFailure;
    var m := n.slots[i].(cancelTimer := false);
    OnlyThisSlot(n, i, m);
    CancelFailing(n.SetSlot(i, m), i, w);
  }

  lemma EndSlots(n: Node, i: nat, w: World)
    requires Slots(n) && Enabled(n, MissionEnded(i))
    ensures SlotSide(n, MissionEnded(i), w, n.MissionResult(i, w))
  {
    hide Node.SpeakForSlot, Node.ClearSlot, Node.MissionSendFailure;
    var m := n.slots[i].(finished := true);
    OnlyThisSlot(n, i, m);
    if n.slot == Some(i) { GivingUp(n.SetSlot(i, m), i, w); }
  }

  /**
    In every reachable state, every event that can happen does to the Mission side exactly what the
    table says: whether a goal is sent and for which turn, whether the slot is given up, whether a
    cancel is asked for, and whom the slot will speak for.
   */
  lemma {:induction false} EveryEventKeepsTheSlotTable(hs: seq<Happening>, e: Event, w: World)
    requires Enabled(Run(hs, |hs|), e)
    ensures SlotSide(Run(hs, |hs|), e, w, Next(Run(hs, |hs|), e, w))
  {
    ReachableNodesKeep(hs, |hs|);
    SlotTable(Run(hs, |hs|), e, w);
  }

  lemma SlotTable(n: Node, e: Event, w: World)
    requires Slots(n) && Enabled(n, e)
    ensures SlotSide(n, e, w, Next(n, e, w))
  {
    hide Node.Deliver, Node.MissionResponse, Node.MissionSendTimeout, Node.MissionCancelResponse,
      Node.MissionCancelTimeout, Node.MissionResult, SlotHolds, OnlySlot, Asked, SameRequest;
    match e
    case Delivered(g, d) => DeliverySlots(n, g, d, w);
    case MissionAnswered(i, a) => AnswerSlots(n, i, a, w);
    case MissionDeadline(i) => DeadlineSlots(n, i, w);
    case CancelAnswered(i, confirmed) => CancelAnswerSlots(n, i, confirmed, w);
    case CancelDeadline(i) => CancelDeadlineSlots(n, i, w);
    case MissionEnded(i) => EndSlots(n, i, w);
    case _ => SpeechSendsNoMission(n, e, w);
  }

  // ---- a requested cancel is asked for

  /**
    Of the current slot a cancel has been asked for exactly when there is a handle to ask and a cancel
    was requested.
   */
  predicate AskedWhenPossible(n: Node) {
    n.slot.Some? ==>
      && n.slot.value < |n.slots|
      && var m := n.slots[n.slot.value]; (m.hasHandle && m.cancelRequested <==> |m.attempts| == 1)
  }

  lemma AskingKept(n: Node, e: Event, w: World)
    requires Slots(n) && AskedWhenPossible(n)
    ensures AskedWhenPossible(Next(n, e, w))
  {
    hide Next;
    if Enabled(n, e) {
      SlotTable(n, e, w);
      if n.slot.Some? { assert SlotHolds(n.slots[n.slot.value], true); }
    } else {
      assert Next(n, e, w) == n by { NothingHappens(n, e, w); }
    }
  }

  lemma NothingHappens(n: Node, e: Event, w: World)
    requires !Enabled(n, e)
    ensures Next(n, e, w) == n
  {
  }

  /**
    In every reachable state the current Mission's cancel has been asked of the server, once,
    exactly when its goal has been accepted and a cancel was requested.
   */
  lemma {:induction false} RequestedCancelsAreAsked(hs: seq<Happening>, n: nat)
    requires n <= |hs|
    ensures AskedWhenPossible(Run(hs, n))
  {
    hide Next, Slots, AskedWhenPossible;
    if n == 0 {
      NothingToAsk();
    } else {
      RequestedCancelsAreAsked(hs, n - 1);
      ReachableNodesKeep(hs, n - 1);
      assert Slots(Run(hs, n - 1));
      AskingKept(Run(hs, n - 1), hs[n - 1].e, hs[n - 1].w);
    }
  }

  lemma NothingToAsk()
    ensures AskedWhenPossible(NEW_NODE)
  {
  }

  /**
    Delivering a cancel that names the current Mission requests its cancel, on behalf of the new
    turn; if its goal has been accepted, the cancel has been asked of the server by the end of the callback.
   */
  lemma {:induction false} NamedCancelIsRequested(hs: seq<Happening>, g: nat, w: World)
    requires var n := Run(hs, |hs|); n.slot.Some? && n.turn < g
    ensures var n := Run(hs, |hs|); var i := n.slot.value; var t := Next(n, Delivered(g, Cancel(n.slot)), w);
            && t.slot == n.slot && i < |t.slots| && i < |n.slots|
            && t.slots[i].cancelRequested && t.slots[i].terminalTurn == g
            && (n.slots[i].accepted ==> |t.slots[i].attempts| == 1)
            && (n.slots[i].accepted && !n.slots[i].cancelRequested ==> t.slots[i].attempts == [w.cancelSends])
  {
    var n := Run(hs, |hs|);
    ReachableNodesKeep(hs, |hs|);
    RequestedCancelsAreAsked(hs, |hs|);
    assert SlotHolds(n.slots[n.slot.value], true);
    EveryEventKeepsTheSlotTable(hs, Delivered(g, Cancel(n.slot)), w);
  }
}

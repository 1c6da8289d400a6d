/** When the node begins, sends, ends and silences speech, and what its stop operation does, event by event. */
module AgentNodeSpeech {
  import opened Wrappers
  import opened AgentNodeState
  import opened AgentNodeRuns
  import opened AgentNodeTheorems
  import opened AgentNodeTable

  /** The event gives the node something to say. */
  predicate Speaks(n: Node, e: Event, w: World) {
    match e
    case Delivered(_, Mission) => n.slot.Some? || !w.missionSends
    case Delivered(_, Cancel(named)) =>
      || n.slot.None? || named != n.slot || |n.slots| <= n.slot.value
      || var m := n.slots[n.slot.value];
         m.hasHandle && !m.cancelRequested && !w.cancelSends && !m.cancelFailureSpoken
    case Delivered(_, Stop) => !w.stopSends
    case Delivered(_, Say) => true
    case MissionAnswered(i, a) =>
      i < |n.slots| && ForNewestTurn(n, i)
      && (a.Refused? || (n.slots[i].cancelRequested && !w.cancelSends && !n.slots[i].cancelFailureSpoken))
    case MissionDeadline(i) => i < |n.slots| && ForNewestTurn(n, i) && !n.slots[i].accepted && !n.slots[i].cancelRequested
    case CancelAnswered(i, confirmed) =>
      i < |n.slots| && ForNewestTurn(n, i) && !confirmed && !n.slots[i].cancelFailureSpoken
    case CancelDeadline(i) => i < |n.slots| && ForNewestTurn(n, i) && !n.slots[i].cancelFailureSpoken
    case MissionEnded(i) => i < |n.slots| && ForNewestTurn(n, i)
    case StopEnded(i) => n.stop == Some(i)
    case _ => false
  }

  /** The slot is the current one and speaks for the newest turn. */
  predicate ForNewestTurn(n: Node, i: nat)
    requires i < |n.slots|
  {
    n.slot == Some(i) && n.slots[i].terminalTurn == n.turn
  }

  /** The event ends or silences what is being said, without anything new. */
  predicate EndsSpeech(n: Node, e: Event, w: World) {
    match e
    case Delivered(_, _) => true
    case NodeDestroyed => true
    case SpeakAnswered(i, a) => n.speaking == Some(i) && a.Refused?
    case SpeakDeadline(i) => n.speaking == Some(i)
    case SpeakEnded(i) => n.speaking == Some(i)
    case SpeakRechecked(i) => Waits(n, i) && (w.late || (w.speakReady && !w.speakSends))
    case _ => false
  }

  /** The current speech waits for its server. */
  predicate Waits(n: Node, i: nat) {
    n.speaking == Some(i) && i < |n.operations| && !n.operations[i].sendStarted
  }

  /** The recheck finds the server in time, and the goal goes out. */
  predicate SendsLate(n: Node, e: Event, w: World) {
    e.SpeakRechecked? && Waits(n, e.i) && !w.late && w.speakReady && w.speakSends
  }

  /**
    Something new is being said, for the newest turn and under the next source sequence number.
    Its goal is sent at once if the server is there; otherwise it waits for the server unless it is late.
   */
  predicate Spoke(n: Node, w: World, t: Node) {
    && t.speakSeq == n.speakSeq + 1 && |t.operations| == |n.operations| + 1
    && var o := t.operations[|n.operations|];
       && o.turn == t.turn && o.sourceSeq == t.speakSeq && !o.accepted && o.attempts == []
       && o.sent == (w.speakReady && w.speakSends)
       && o.timer == (if o.sent then SendDeadline else if !w.speakReady && !w.late then Recheck else NoTimer)
       && t.speaking == (if o.timer.NoTimer? then None else Some(|n.operations|))
       && t.goals == (if o.sent then n.goals + [t.speakSeq] else n.goals)
  }

  /** Nothing new is being said; a goal goes out only for the speech that has been waiting. */
  predicate Quiet(n: Node, e: Event, w: World, t: Node) {
    && t.speakSeq == n.speakSeq && |t.operations| == |n.operations|
    && t.speaking == (if EndsSpeech(n, e, w) then None else n.speaking)
    && t.goals == (if SendsLate(n, e, w) then n.goals + [n.operations[e.i].sourceSeq] else n.goals)
  }

  predicate SpeechSide(n: Node, e: Event, w: World, t: Node) {
    if Speaks(n, e, w) && n.speakSeq < MAX_UINT64 then Spoke(n, w, t) else Quiet(n, e, w, t)
  }

  // ---- speaking itself

  predicate SameVoice(n: Node, m: Node) {
    m.speaking == n.speaking && m.operations == n.operations && m.speakSeq == n.speakSeq && m.goals == n.goals
  }

  lemma Speaking(n: Node, turn: nat, w: World)
    requires n.speakSeq == |n.operations| && turn == n.turn
    ensures var t := n.Speak(turn, w); if n.speakSeq < MAX_UINT64 then Spoke(n, w, t) else t == n
  {
    hide Node.RetireSpeak;
    Retiring(n, w);
  }

  lemma Retiring(n: Node, w: World)
    ensures var t := n.RetireSpeak(w);
            && t.speakSeq == n.speakSeq && |t.operations| == |n.operations| && t.goals == n.goals && t.turn == n.turn
            && (n.speaking.Some? && n.speaking.value < |n.operations| ==> t.speaking.None?)
            && (n.speaking.None? ==> t == n)
            && t.stop == n.stop && t.stopTurns == n.stopTurns
  {
  }

  lemma SpeakingForSlot(n: Node, i: nat, w: World)
    requires n.speakSeq == |n.operations| && i < |n.slots|
    ensures var t := n.SpeakForSlot(i, w);
            if n.slots[i].terminalTurn == n.turn && n.speakSeq < MAX_UINT64 then Spoke(n, w, t) else t == n
  {
    hide Node.Speak;
    Speaking(n, n.turn, w);
  }

  lemma CancelFailureSpeech(n: Node, i: nat, w: World)
    requires n.speakSeq == |n.operations| && i < |n.slots|
    ensures var t := n.CancelFailure(i, w);
            if ForNewestTurn(n, i) && !n.slots[i].cancelFailureSpoken && n.speakSeq < MAX_UINT64 then Spoke(n, w, t)
            else SameVoice(n, t)
  {
    hide Node.SpeakForSlot;
    SpeakingForSlot(n.SetSlot(i, n.slots[i].(cancelTimer := false, state := Active, cancelFailureSpoken := true)), i, w);
  }

  lemma AskingSpeech(n: Node, i: nat, w: World)
    requires n.speakSeq == |n.operations| && i < |n.slots|
    ensures var t := n.RequestMissionCancel(i, w); var m := n.slots[i];
            if ForNewestTurn(n, i) && m.hasHandle && !m.cancelStarted && !w.cancelSends && !m.cancelFailureSpoken
               && n.speakSeq < MAX_UINT64
            then Spoke(n, w, t) else SameVoice(n, t)
  {
    hide Node.CancelFailure, Node.RequestMissionCancel;
    AskingIs(n, i, w);
    CancelFailureSpeech(n.SetSlot(i, WithAttempt(n.slots[i], w)), i, w);
  }

  lemma GivingUpSpeech(n: Node, i: nat, w: World)
    requires n.speakSeq == |n.operations| && i < |n.slots| && n.slot == Some(i)
    ensures var t := n.ClearSlot(i).SpeakForSlot(i, w);
            && t == n.MissionSendFailure(i, w)
            && if n.slots[i].terminalTurn == n.turn && n.speakSeq < MAX_UINT64 then Spoke(n, w, t) else SameVoice(n, t)
  {
    hide Node.SpeakForSlot;
    SpeakingForSlot(n.ClearSlot(i), i, w);
  }

  // ---- deliveries

  /** The node as a delivery finds it: the newest turn, no stop under way, silence. */
  predicate Hushed(r: Node, g: nat) {
    r.turn == g && r.stop.None? && r.speaking.None? && r.speakSeq == |r.operations|
  }

  lemma MissionSpeech(r: Node, g: nat, w: World)
    requires Hushed(r, g)
    ensures SpeechSide(r, Delivered(g, Mission), w, r.HandleMission(g, w))
  {
    hide Node.Speak, Node.MissionSendFailure;
    Speaking(r, g, w);
    if r.slot.None? && !w.missionSends {
      GivingUpSpeech(r.(slot := Some(|r.slots|), slots := r.slots + [NewSlot(g)]), |r.slots|, w);
    }
  }

  lemma CancelSpeech(r: Node, named: Option<nat>, g: nat, w: World)
    requires Hushed(r, g) && Slots(r)
    ensures SpeechSide(r, Delivered(g, Cancel(named)), w, r.HandleCancel(named, g, w))
  {
    hide Node.Speak, Node.RequestMissionCancel;
    Speaking(r, g, w);
    if r.slot.Some? {
      var i := r.slot.value;
      var m := r.slots[i];
      assert SlotHolds(m, true);
      AskingSpeech(r.SetSlot(i, m.(terminalTurn := g, cancelRequested := true,
                                   state := if m.cancelRequested then m.state else CancelPending)), i, w);
    }
  }

  lemma StopSpeech(r: Node, g: nat, w: World)
    requires Hushed(r, g)
    ensures var t := r.HandleStop(g, w);
            && SpeechSide(r, Delivered(g, Stop), w, t) && t.stopTurns == r.stopTurns + [g]
            && t.stop == if w.stopSends then Some(|r.stopTurns|) else None
  {
    hide Node.Speak;
    var n := r.(stop := None, stopTurns := r.stopTurns + [g]);
    Speaking(n, g, w);
    SpeakKeepsStop(n, g, w);
  }

  lemma SpeakKeepsStop(n: Node, turn: nat, w: World)
    ensures var t := n.Speak(turn, w); t.stop == n.stop && t.stopTurns == n.stopTurns && t.turn == n.turn
  {
  }

  lemma DeliverySpeech(n: Node, g: nat, d: Demand, w: World)
    requires Inv(n) && n.turn < g
    ensures SpeechSide(n, Delivered(g, d), w, n.Deliver(g, d, w))
  {
    hide Node.Speak, Node.RetireSpeak, Node.HandleMission, Node.HandleCancel, Node.HandleStop, Spoke, OperationHolds,
      SlotHolds, Goals;
    var r := n.(turn := Later(n.turn, g), stop := None).RetireSpeak(w);
    Retiring(n.(turn := Later(n.turn, g), stop := None), w);
    SpeakKeepsSlots(n.(turn := Later(n.turn, g), stop := None), g, w);
    match d {
      case Mission => MissionSpeech(r, g, w);
      case Cancel(named) => CancelSpeech(r, named, g, w);
      case Stop => StopSpeech(r, g, w);
      case _ => Speaking(r, g, w);
    }
    AfterHush(n, r, Delivered(g, d), w, n.Deliver(g, d, w));
  }

  /** What is new after the hush is new after all. */
  lemma AfterHush(n: Node, r: Node, e: Event, w: World, t: Node)
    requires e.Delivered? && SpeechSide(r, e, w, t)
    requires r.speakSeq == n.speakSeq && |r.operations| == |n.operations| && r.goals == n.goals
    requires r.slot == n.slot && r.slots == n.slots
    ensures SpeechSide(n, e, w, t)
  {
  }

  // ---- the Mission side's callbacks

  lemma AnswerSpeech(n: Node, i: nat, a: Answer, w: World)
    requires Inv(n) && Enabled(n, MissionAnswered(i, a))
    ensures SpeechSide(n, MissionAnswered(i, a), w, n.MissionResponse(i, a, w))
  {
    hide Node.MissionSendFailure, Node.RequestMissionCancel, OperationHolds, Goals;
    assert SlotHolds(n.slots[i], n.slot == Some(i));
    var m := n.slots[i].(responded := true, accepted := a.Accepted?);
    if a.Refused? {
      if n.slot == Some(i) { GivingUpSpeech(n.SetSlot(i, m), i, w); } else { NothingToGiveUp(n.SetSlot(i, m), i, w); }
    } else if n.slot == Some(i) {
      var held := m.(sendTimer := false, hasHandle := true, resultAwaited := w.attaches,
                     state := if m.cancelRequested then CancelPending else Active);
      SetTwice(n, i, m, held);
      AskingSpeech(n.SetSlot(i, held), i, w);
    }
  }

  lemma DeadlineSpeech(n: Node, i: nat, w: World)
    requires Inv(n) && Enabled(n, MissionDeadline(i))
    ensures SpeechSide(n, MissionDeadline(i), w, n.MissionSendTimeout(i, w))
  {
    hide Node.SpeakForSlot, Node.ClearSlot, Node.MissionSendFailure, OperationHolds, Goals;
    assert SlotHolds(n.slots[i], n.slot == Some(i));
    var m := n.slots[i].(sendTimer := false);
    if n.slot == Some(i) { GivingUpSpeech(n.SetSlot(i, m), i, w); }
  }

  lemma CancelAnswerSpeech(n: Node, i: nat, confirmed: bool, w: World)
    requires Inv(n) && Enabled(n, CancelAnswered(i, confirmed))
    ensures SpeechSide(n, CancelAnswered(i, confirmed), w, n.MissionCancelResponse(i, confirmed, w))
  {
    hide Node.CancelFailure, OperationHolds, Goals, SlotHolds;
    CancelFailureSpeech(n.SetSlot(i, n.slots[i].(cancelAwaited := false)), i, w);
  }

  lemma CancelDeadlineSpeech(n: Node, i: nat, w: World)
    requires Inv(n) && Enabled(n, CancelDeadline(i))
    ensures SpeechSide(n, CancelDeadline(i), w, n.MissionCancelTimeout(i, w))
  {
    hide Node.CancelFailure, OperationHolds, Goals, SlotHolds;
    CancelFailureSpeech(n.SetSlot(i, n.slots[i].(cancelTimer := false)), i, w);
  }

  lemma EndSpeech(n: Node, i: nat, w: World)
    requires Inv(n) && Enabled(n, MissionEnded(i))
    ensures SpeechSide(n, MissionEnded(i), w, n.MissionResult(i, w))
  {
    hide Node.SpeakForSlot, Node.ClearSlot, Node.MissionSendFailure, OperationHolds, Goals, SlotHolds;
    var m := n.slots[i].(finished := true);
    if n.slot == Some(i) { GivingUpSpeech(n.SetSlot(i, m), i, w); }
  }

  lemma StopEndSpeech(n: Node, i: nat, w: World)
    requires Inv(n) && Enabled(n, StopEnded(i))
    ensures SpeechSide(n, StopEnded(i), w, n.EndStop(i, w))
  {
    hide Node.Speak, OperationHolds, Goals, SlotHolds;
    Speaking(n.(stop := None), n.turn, w);
  }

  // ---- the Speak side's callbacks

  lemma SpeakAnswerSpeech(n: Node, i: nat, a: Answer, w: World)
    requires Inv(n) && Enabled(n, SpeakAnswered(i, a))
    ensures SpeechSide(n, SpeakAnswered(i, a), w, n.SpeakResponse(i, a, w))
  {
    hide Goals, SlotHolds;
    assert OperationHolds(n.operations[i], n.speaking == Some(i));
  }

  lemma RecheckSpeech(n: Node, i: nat, w: World)
    requires Inv(n) && Enabled(n, SpeakRechecked(i))
    ensures SpeechSide(n, SpeakRechecked(i), w, n.SpeakRecheck(i, w))
  {
    hide Goals, SlotHolds;
    assert OperationHolds(n.operations[i], n.speaking == Some(i));
  }

  lemma OtherSpeech(n: Node, e: Event, w: World)
    requires Inv(n) && Enabled(n, e) && (e.SpeakDeadline? || e.SpeakEnded? || e.NodeDestroyed?)
    ensures SpeechSide(n, e, w, Next(n, e, w))
  {
    hide Goals, SlotHolds;
    Retiring(n, w);
  }

  /**
    In every reachable state, every event that can happen begins new speech exactly when the table
    says, for the newest turn and under the next sequence number; sends a Speak goal exactly for it
    or for the speech that has been waiting; and ends or silences speech exactly when the table says.
   */
  lemma {:induction false} EveryEventKeepsTheSpeechTable(hs: seq<Happening>, e: Event, w: World)
    requires Enabled(Run(hs, |hs|), e)
    ensures SpeechSide(Run(hs, |hs|), e, w, Next(Run(hs, |hs|), e, w))
    ensures Next(Run(hs, |hs|), e, w).turn == if e.Delivered? then e.g else Run(hs, |hs|).turn
  {
    hide Next, Inv;
    ReachableNodesKeep(hs, |hs|);
    SpeechTable(Run(hs, |hs|), e, w);
    TurnTable(Run(hs, |hs|), e, w);
  }

  lemma TurnTable(n: Node, e: Event, w: World)
    requires Inv(n) && Enabled(n, e)
    ensures Next(n, e, w).turn == if e.Delivered? then e.g else n.turn
  {
    hide Operations, Goals, Slots, Node.Deliver, Node.MissionResponse, Node.MissionSendTimeout,
      Node.MissionCancelResponse, Node.MissionCancelTimeout, Node.MissionResult, Node.EndStop,
      Node.SpeakRecheck, Node.SpeakResponse, Node.SpeakSendTimeout, Node.SpeakResult, Node.RetireSpeak;
    match e
    case Delivered(g, d) => DeliveredKeeps(n, g, d, w);
    case MissionAnswered(i, a) => MissionResponseKeeps(n, i, a, w);
    case MissionDeadline(i) => MissionTimeoutKeeps(n, i, w);
    case CancelAnswered(i, confirmed) => CancelAnswerKeeps(n, i, confirmed, w);
    case CancelDeadline(i) => CancelTimeoutKeeps(n, i, w);
    case MissionEnded(i) => MissionResultKeeps(n, i, w);
    case StopEnded(i) => StopKeeps(n, i, w);
    case SpeakRechecked(i) => RecheckKeeps(n, i, w);
    case SpeakAnswered(i, a) => AnsweredKeeps(n, i, a, w);
    case SpeakDeadline(i) => DeadlineKeeps(n, i);
    case SpeakEnded(i) => EndedKeeps(n, i);
    case NodeDestroyed => RetireKeeps(n, w);
  }

  lemma SpeechTable(n: Node, e: Event, w: World)
    requires Inv(n) && Enabled(n, e)
    ensures SpeechSide(n, e, w, Next(n, e, w))
  {
    match e
    case SpeakDeadline(_) => OtherSpeech(n, e, w);
    case SpeakEnded(_) => OtherSpeech(n, e, w);
    case NodeDestroyed => OtherSpeech(n, e, w);
    case _ =>
      hide Node.Deliver, Node.MissionResponse, Node.MissionSendTimeout, Node.MissionCancelResponse,
        Node.MissionCancelTimeout, Node.MissionResult, Node.EndStop, Node.SpeakRecheck, Node.SpeakResponse,
        Inv, SpeechSide;
      match e {
        case Delivered(g, d) => DeliverySpeech(n, g, d, w);
        case MissionAnswered(i, a) => AnswerSpeech(n, i, a, w);
        case MissionDeadline(i) => DeadlineSpeech(n, i, w);
        case CancelAnswered(i, confirmed) => CancelAnswerSpeech(n, i, confirmed, w);
        case CancelDeadline(i) => CancelDeadlineSpeech(n, i, w);
        case MissionEnded(i) => EndSpeech(n, i, w);
        case StopEnded(i) => StopEndSpeech(n, i, w);
        case SpeakRechecked(i) => RecheckSpeech(n, i, w);
        case SpeakAnswered(i, a) => SpeakAnswerSpeech(n, i, a, w);
        case _ =>
      }
  }

  /**
    An accepted Speak goal is held and its result awaited if it is still what is being said;
    otherwise its cancel is attempted on the spot. A refused one is left alone.
   */
  lemma {:induction false} AcceptedSpeechIsHeldOrCancelled(hs: seq<Happening>, i: nat, a: Answer, w: World)
    requires Enabled(Run(hs, |hs|), SpeakAnswered(i, a))
    ensures var n := Run(hs, |hs|); var t := Next(n, SpeakAnswered(i, a), w);
            && i < |n.operations| && |t.operations| == |n.operations|
            && (forall k :: 0 <= k < |n.operations| && k != i ==> t.operations[k] == n.operations[k])
            && var o := t.operations[i];
               && o.responded && o.accepted == a.Accepted? && o.hasHandle == (a.Accepted? && n.speaking == Some(i))
               && o.resultAwaited == (a.Accepted? && n.speaking == Some(i) && w.attaches)
               && o.attempts == if a.Accepted? && n.speaking != Some(i) then [w.speakCancelSends] else []
  {
    hide Goals, Slots;
    ReachableNodesKeep(hs, |hs|);
    assert OperationHolds(Run(hs, |hs|).operations[i], Run(hs, |hs|).speaking == Some(i));
  }

  // ---- the stop operation

  /** A delivery ends the stop under way; a stop that goes out is the new one; its own end ends it. */
  lemma {:induction false} EveryEventKeepsTheStopTable(hs: seq<Happening>, e: Event, w: World)
    requires Enabled(Run(hs, |hs|), e)
    ensures var n := Run(hs, |hs|); var t := Next(n, e, w);
            match e
            case Delivered(g, Stop) =>
              t.stopTurns == n.stopTurns + [g] && t.stop == if w.stopSends then Some(|n.stopTurns|) else None
            case Delivered(_, _) => t.stopTurns == n.stopTurns && t.stop == None
            case StopEnded(i) => t.stopTurns == n.stopTurns && t.stop == if n.stop == Some(i) then None else n.stop
            case _ => t.stopTurns == n.stopTurns && t.stop == n.stop
  {
    hide Next, Inv;
    ReachableNodesKeep(hs, |hs|);
    StopTable(Run(hs, |hs|), e, w);
  }

  lemma DeliveryStops(n: Node, g: nat, d: Demand, w: World)
    requires Inv(n) && n.turn < g
    ensures var t := n.Deliver(g, d, w);
            if d.Stop? then t.stopTurns == n.stopTurns + [g] && t.stop == if w.stopSends then Some(|n.stopTurns|) else None
            else t.stopTurns == n.stopTurns && t.stop == None
  {
    hide Node.Speak, Node.RetireSpeak, Node.HandleMission, Node.HandleCancel, Node.HandleStop, OperationHolds, SlotHolds,
      Goals;
    var r := n.(turn := Later(n.turn, g), stop := None).RetireSpeak(w);
    Retiring(n.(turn := Later(n.turn, g), stop := None), w);
    SpeakKeepsSlots(n.(turn := Later(n.turn, g), stop := None), g, w);
    RetireKeeps(n, w);
    assert r == n.RetireSpeak(w).(turn := g, stop := None) by { RetireIgnoresTurn(n, g, w); }
    assert Speech(r) by { TurnWhileSilent(n.RetireSpeak(w), r); }
    match d
    case Mission => HandleMissionKeeps(r, w);
    case Cancel(named) => HandleCancelKeeps(r, named, w);
    case Stop => StopSpeech(r, g, w);
    case _ => SpeakKeepsStop(r, g, w);
  }

  lemma StopTable(n: Node, e: Event, w: World)
    requires Inv(n) && Enabled(n, e)
    ensures var t := Next(n, e, w);
            match e
            case Delivered(g, Stop) =>
              t.stopTurns == n.stopTurns + [g] && t.stop == if w.stopSends then Some(|n.stopTurns|) else None
            case Delivered(_, _) => t.stopTurns == n.stopTurns && t.stop == None
            case StopEnded(i) => t.stopTurns == n.stopTurns && t.stop == if n.stop == Some(i) then None else n.stop
            case _ => t.stopTurns == n.stopTurns && t.stop == n.stop
  {
    hide Operations, Goals, Slots, Node.Deliver, Node.MissionResponse, Node.MissionSendTimeout,
      Node.MissionCancelResponse, Node.MissionCancelTimeout, Node.MissionResult, Node.Speak,
      Node.SpeakRecheck, Node.SpeakResponse, Node.SpeakSendTimeout, Node.SpeakResult, Node.RetireSpeak;
    match e
    case Delivered(g, d) => DeliveryStops(n, g, d, w);
    case MissionAnswered(i, a) => MissionResponseKeeps(n, i, a, w);
    case MissionDeadline(i) => MissionTimeoutKeeps(n, i, w);
    case CancelAnswered(i, confirmed) => CancelAnswerKeeps(n, i, confirmed, w);
    case CancelDeadline(i) => CancelTimeoutKeeps(n, i, w);
    case MissionEnded(i) => MissionResultKeeps(n, i, w);
    case StopEnded(i) => SpeakKeepsStop(n.(stop := None), n.stopTurns[i], w);
    case SpeakRechecked(i) => RecheckKeeps(n, i, w);
    case SpeakAnswered(i, a) => AnsweredKeeps(n, i, a, w);
    case SpeakDeadline(i) => DeadlineKeeps(n, i);
    case SpeakEnded(i) => EndedKeeps(n, i);
    case NodeDestroyed => RetireKeeps(n, w);
  }
}

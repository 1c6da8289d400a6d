/**
  The node that turns delivered outcomes into Mission, Speak and Stop operations. Each function
  of `Node` is one callback, or a part of one; the serial seam makes callbacks atomic. Slots and
  operations live in sequences in the order of their creation, and their places serve as identity.
 */
module AgentNodeState {
  import opened Wrappers

  const MAX_UINT64: nat := 0xFFFF_FFFF_FFFF_FFFF

  datatype SlotState = SendPending | Active | CancelPending

  /** A Mission slot; from `sent` on, the history of its goal. Of each cancel attempt: whether it went out or raised. */
  datatype Slot = Slot(
    terminalTurn: nat,
    state: SlotState,
    hasHandle: bool,
    sendTimer: bool,
    cancelTimer: bool,
    cancelRequested: bool,
    cancelStarted: bool,
    cancelFailureSpoken: bool,
    sent: bool,
    responded: bool,
    accepted: bool,
    cancelAwaited: bool,
    resultAwaited: bool,
    finished: bool,
    attempts: seq<bool>)

  datatype Timer = NoTimer | Recheck | SendDeadline

  /** A Speak operation; from `sent` on, the history of its goal. */
  datatype Operation = Operation(
    turn: nat,
    sourceSeq: nat,
    hasHandle: bool,
    timer: Timer,
    cancelOnAccept: bool,
    cancelStarted: bool,
    stale: bool,
    sendStarted: bool,
    sent: bool,
    responded: bool,
    accepted: bool,
    resultAwaited: bool,
    finished: bool,
    attempts: seq<bool>)

  function NewSlot(turn: nat): Slot {
    Slot(turn, SendPending, false, false, false, false, false, false, false, false, false, false, false, false, [])
  }

  function NewOperation(turn: nat, sourceSeq: nat): Operation {
    Operation(turn, sourceSeq, false, NoTimer, false, false, false, false, false, false, false, false, false, [])
  }

  function Later(a: nat, b: nat): nat {
    if a < b then b else a
  }

  /** How the outside world behaves during one callback. */
  datatype World = World(
    speakReady: bool,     // the Speak server is discovered
    speakSends: bool,     // submitting a Speak goal does not raise
    late: bool,           // the discovery deadline has passed
    missionSends: bool,
    cancelSends: bool,       // asking for the cancel of a Mission goal does not raise
    speakCancelSends: bool,
    stopSends: bool,      // the stop service is ready and the call does not raise
    attaches: bool)       // the result callback could be set up

  datatype Answer = Accepted | Refused

  datatype Demand = Mission | Cancel(slot: Option<nat>) | Stop | Say | Nothing

  datatype Node = Node(
    turn: nat,
    slot: Option<nat>,
    slots: seq<Slot>,
    speaking: Option<nat>,
    operations: seq<Operation>,
    speakSeq: nat,
    stop: Option<nat>,        // the current stop operation
    stopTurns: seq<nat>,      // the turns of all stop operations
    goals: seq<nat>           // the source sequence numbers of the Speak goals sent
  ) {
    function SetSlot(i: nat, m: Slot): Node
      requires i < |slots|
    {
      this.(slots := slots[i := m])
    }

    function SetOperation(i: nat, o: Operation): Node
      requires i < |operations|
    {
      this.(operations := operations[i := o])
    }

    // ---- speaking

    function CancelSpeakHandle(i: nat, w: World): Node
      requires i < |operations|
    {
      var o := operations[i];
      if o.cancelStarted then this
      else SetOperation(i, o.(cancelStarted := true, attempts := o.attempts + [w.speakCancelSends]))
    }

    function RetireSpeak(w: World): Node {
      if speaking.None? || |operations| <= speaking.value then this
      else
        var i := speaking.value;
        var n := this.(speaking := None)
                     .SetOperation(i, operations[i].(stale := true, cancelOnAccept := true, timer := NoTimer));
        if operations[i].hasHandle then n.CancelSpeakHandle(i, w) else n
    }

    function DropSpeech(i: nat): Node
      requires i < |operations|
    {
      this.(speaking := None).SetOperation(i, operations[i].(timer := NoTimer, stale := true, cancelOnAccept := true))
    }

    function SpeakSendFailure(i: nat): Node
      requires i < |operations|
    {
      if speaking != Some(i) then this
      else this.(speaking := None).SetOperation(i, operations[i].(timer := NoTimer))
    }

    function SendSpeak(i: nat, w: World): Node
      requires i < |operations|
    {
      var o := operations[i];
      if speaking != Some(i) || o.stale || o.sendStarted then this
      else if !w.speakSends then SetOperation(i, o.(sendStarted := true)).SpeakSendFailure(i)
      else this.(goals := goals + [o.sourceSeq])
               .SetOperation(i, o.(sendStarted := true, sent := true, timer := SendDeadline))
    }

    function AwaitServer(i: nat, w: World): Node
      requires i < |operations|
    {
      if w.late then DropSpeech(i) else SetOperation(i, operations[i].(timer := Recheck))
    }

    function Speak(turn: nat, w: World): Node {
      if MAX_UINT64 <= speakSeq then this
      else
        var n := RetireSpeak(w);
        var i := |n.operations|;
        var m := n.(speakSeq := n.speakSeq + 1, speaking := Some(i),
                    operations := n.operations + [NewOperation(turn, n.speakSeq + 1)]);
        if w.speakReady then m.SendSpeak(i, w) else m.AwaitServer(i, w)
    }

    function SpeakRecheck(i: nat, w: World): Node
      requires i < |operations|
    {
      var o := operations[i];
      if speaking != Some(i) || o.stale || o.sendStarted then this
      else
        var n := SetOperation(i, o.(timer := NoTimer));
        if w.late then n.DropSpeech(i)
        else if w.speakReady then n.SendSpeak(i, w)
        else n.AwaitServer(i, w)
    }

    function SpeakSendTimeout(i: nat): Node
      requires i < |operations|
    {
      if speaking != Some(i) then this
      else this.(speaking := None).SetOperation(i, operations[i].(timer := NoTimer, stale := true))
    }

    function HoldHandle(i: nat, w: World): Node
      requires i < |operations|
    {
      var m := SetOperation(i, operations[i].(timer := NoTimer, hasHandle := true));
      if operations[i].cancelOnAccept then m.CancelSpeakHandle(i, w)
      else m.SetOperation(i, m.operations[i].(resultAwaited := w.attaches))
    }

    function SpeakResponse(i: nat, a: Answer, w: World): Node
      requires i < |operations|
    {
      var o := operations[i].(responded := true, accepted := a.Accepted?);
      var n := SetOperation(i, o);
      if a.Refused? then n.SpeakSendFailure(i)
      else if speaking != Some(i) || o.stale then n.CancelSpeakHandle(i, w)
      else n.HoldHandle(i, w)
    }

    function SpeakResult(i: nat): Node
      requires i < |operations|
    {
      var n := SetOperation(i, operations[i].(finished := true));
      if speaking == Some(i) then n.(speaking := None) else n
    }

    // ---- Missions

    function ClearSlot(i: nat): Node
      requires i < |slots|
    {
      if slot != Some(i) then this
      else this.(slot := None).SetSlot(i, slots[i].(sendTimer := false, cancelTimer := false))
    }

    /** Speaks for the slot's last turn, unless a newer turn has been delivered since. */
    function SpeakForSlot(i: nat, w: World): Node
      requires i < |slots|
    {
      if slots[i].terminalTurn != turn then this else Speak(turn, w)
    }

    function MissionSendFailure(i: nat, w: World): Node
      requires i < |slots|
    {
      if slot != Some(i) then this else ClearSlot(i).SpeakForSlot(i, w)
    }

    function HandleMission(g: nat, w: World): Node {
      if slot.Some? then Speak(g, w)
      else
        var i := |slots|;
        var n := this.(slot := Some(i), slots := slots + [NewSlot(g)]);
        if !w.missionSends then n.MissionSendFailure(i, w)
        else n.SetSlot(i, NewSlot(g).(sent := true, sendTimer := true))
    }

    /** The deadline fires once, whether or not it finds anything to do. */
    function MissionSendTimeout(i: nat, w: World): Node
      requires i < |slots|
    {
      var n := SetSlot(i, slots[i].(sendTimer := false));
      if slot != Some(i) || slots[i].state != SendPending then n else n.ClearSlot(i).SpeakForSlot(i, w)
    }

    function CancelFailure(i: nat, w: World): Node
      requires i < |slots|
    {
      if slot != Some(i) then this
      else
        var n := SetSlot(i, slots[i].(cancelTimer := false, state := Active, cancelFailureSpoken := true));
        if slots[i].cancelFailureSpoken then n else n.SpeakForSlot(i, w)
    }

    function RequestMissionCancel(i: nat, w: World): Node
      requires i < |slots|
    {
      var m := slots[i];
      if slot != Some(i) || !m.hasHandle || m.cancelStarted then this
      else
        var n := SetSlot(i, m.(cancelStarted := true, attempts := m.attempts + [w.cancelSends],
                               cancelTimer := m.cancelTimer || w.cancelSends,
                               cancelAwaited := m.cancelAwaited || w.cancelSends));
        if w.cancelSends then n else n.CancelFailure(i, w)
    }

    function MissionResponse(i: nat, a: Answer, w: World): Node
      requires i < |slots|
    {
      var m := slots[i].(responded := true, accepted := a.Accepted?);
      var n := SetSlot(i, m);
      if a.Refused? then n.MissionSendFailure(i, w)
      else if slot != Some(i) then n.SetSlot(i, m.(attempts := m.attempts + [w.cancelSends]))
      else
        var held := n.SetSlot(i, m.(sendTimer := false, hasHandle := true, resultAwaited := w.attaches,
                                    state := if m.cancelRequested then CancelPending else Active));
        if m.cancelRequested then held.RequestMissionCancel(i, w) else held
    }

    function HandleCancel(named: Option<nat>, g: nat, w: World): Node {
      if slot.None? || named != slot || |slots| <= slot.value then Speak(g, w)
      else
        var i := slot.value;
        var m := slots[i];
        var n := SetSlot(i, m.(terminalTurn := g, cancelRequested := true,
                               state := if m.cancelRequested then m.state else CancelPending));
        if !m.cancelRequested && m.hasHandle then n.RequestMissionCancel(i, w) else n
    }

    function MissionCancelResponse(i: nat, confirmed: bool, w: World): Node
      requires i < |slots|
    {
      var n := SetSlot(i, slots[i].(cancelAwaited := false));
      if slot != Some(i) then n
      else if !confirmed then n.CancelFailure(i, w)
      else n.SetSlot(i, n.slots[i].(cancelTimer := false))
    }

    function MissionCancelTimeout(i: nat, w: World): Node
      requires i < |slots|
    {
      var n := SetSlot(i, slots[i].(cancelTimer := false));
      if slot != Some(i) then n else n.CancelFailure(i, w)
    }

    function MissionResult(i: nat, w: World): Node
      requires i < |slots|
    {
      var n := SetSlot(i, slots[i].(finished := true));
      if slot != Some(i) then n else n.ClearSlot(i).SpeakForSlot(i, w)
    }

    // ---- stopping

    function HandleStop(g: nat, w: World): Node {
      var n := this.(stop := Some(|stopTurns|), stopTurns := stopTurns + [g]);
      if w.stopSends then n else n.EndStop(|stopTurns|, w)
    }

    /** A response, a timeout or a failure of the current stop operation: it ends and says so. */
    function EndStop(i: nat, w: World): Node
      requires i < |stopTurns|
    {
      if stop != Some(i) then this else this.(stop := None).Speak(stopTurns[i], w)
    }

    // ---- deliveries

    function Deliver(g: nat, d: Demand, w: World): Node {
      var n := this.(turn := Later(turn, g), stop := None).RetireSpeak(w);
      match d
      case Mission => n.HandleMission(g, w)
      case Cancel(named) => n.HandleCancel(named, g, w)
      case Stop => n.HandleStop(g, w)
      case Say => n.Speak(g, w)
      case Nothing => n
    }
  }

  const NEW_NODE := Node(0, None, [], None, [], 0, None, [], [])
}

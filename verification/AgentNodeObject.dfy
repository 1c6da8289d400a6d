/**
  The node as it is written: slots and operations are objects that callbacks update in place and
  compare by identity. A slot that has been given up lives on in the callbacks that still hold it.
 */
module AgentNodeObject {
  import opened Wrappers
  import opened AgentNodeState
  import opened AgentNodeRuns

  /** One Mission goal. Its place in the order of creation, and what has become of the goal, are history. */
  class MissionSlot {
    ghost const place: nat
    var terminalTurn: nat
    var state: SlotState
    var hasHandle: bool
    var sendTimer: bool
    var cancelTimer: bool
    var cancelRequested: bool
    var cancelStarted: bool
    var cancelFailureSpoken: bool
    ghost var sent: bool
    ghost var responded: bool
    ghost var accepted: bool
    ghost var cancelAwaited: bool
    ghost var resultAwaited: bool
    ghost var finished: bool
    ghost var attempts: seq<bool>

    constructor (turn: nat, ghost place: nat)
      ensures this.place == place && View() == NewSlot(turn)
    {
      this.place := place;
      terminalTurn, state, hasHandle, sendTimer, cancelTimer := turn, SendPending, false, false, false;
      cancelRequested, cancelStarted, cancelFailureSpoken := false, false, false;
      sent, responded, accepted, cancelAwaited, resultAwaited, finished := false, false, false, false, false, false;
      attempts := [];
    }

    ghost function View(): Slot
      reads this
    {
      Slot(terminalTurn, state, hasHandle, sendTimer, cancelTimer, cancelRequested, cancelStarted, cancelFailureSpoken,
           sent, responded, accepted, cancelAwaited, resultAwaited, finished, attempts)
    }

    method DisarmTimers()
      modifies this
      ensures View() == old(View()).(sendTimer := false, cancelTimer := false)
    {
      sendTimer := false;
      cancelTimer := false;
    }

    /** The goal has been accepted in time. */
    method Hold(attaches: bool)
      modifies this
      ensures View() == old(View()).(sendTimer := false, hasHandle := true, resultAwaited := attaches,
                                     state := if old(cancelRequested) then CancelPending else Active)
    {
      sendTimer := false;
      hasHandle := true;
      resultAwaited := attaches;
      state := if cancelRequested then CancelPending else Active;
    }

    /** One attempt to have the goal cancelled, which goes out or raises. */
    method AttemptCancel(sends: bool)
      modifies this
      ensures View() == old(View()).(cancelStarted := true, attempts := old(attempts) + [sends],
                                     cancelTimer := old(cancelTimer) || sends, cancelAwaited := old(cancelAwaited) || sends)
    {
      cancelStarted := true;
      attempts := attempts + [sends];
      if sends {
        cancelTimer := true;
        cancelAwaited := true;
      }
    }

    /** The cancel has not been confirmed. */
    method Resume()
      modifies this
      ensures View() == old(View()).(cancelTimer := false, state := Active, cancelFailureSpoken := true)
    {
      cancelTimer := false;
      state := Active;
      cancelFailureSpoken := true;
    }

    /** A cancel has been asked for in a later turn. */
    method AskCancel(turn: nat)
      modifies this
      ensures View() == old(View()).(terminalTurn := turn, cancelRequested := true,
                                     state := if old(cancelRequested) then old(state) else CancelPending)
    {
      terminalTurn := turn;
      if !cancelRequested {
        cancelRequested := true;
        state := CancelPending;
      }
    }
  }

  /** One Speak goal. */
  class SpeakOperation {
    ghost const place: nat
    const turn: nat
    const sourceSeq: nat
    var hasHandle: bool
    var timer: Timer
    var cancelOnAccept: bool
    var cancelStarted: bool
    var stale: bool
    var sendStarted: bool
    ghost var sent: bool
    ghost var responded: bool
    ghost var accepted: bool
    ghost var resultAwaited: bool
    ghost var finished: bool
    ghost var attempts: seq<bool>

    constructor (turn: nat, sourceSeq: nat, ghost place: nat)
      ensures this.place == place && View() == NewOperation(turn, sourceSeq)
    {
      this.place, this.turn, this.sourceSeq := place, turn, sourceSeq;
      hasHandle, timer, cancelOnAccept, cancelStarted, stale, sendStarted := false, NoTimer, false, false, false, false;
      sent, responded, accepted, resultAwaited, finished := false, false, false, false, false;
      attempts := [];
    }

    ghost function View(): Operation
      reads this
    {
      Operation(turn, sourceSeq, hasHandle, timer, cancelOnAccept, cancelStarted, stale, sendStarted,
                sent, responded, accepted, resultAwaited, finished, attempts)
    }

    /** The goal has been accepted in time. */
    method Hold()
      modifies this
      ensures View() == old(View()).(timer := NoTimer, hasHandle := true)
    {
      timer := NoTimer;
      hasHandle := true;
    }

    /** The operation has been given up. */
    method Abandon()
      modifies this
      ensures View() == old(View()).(stale := true, cancelOnAccept := true, timer := NoTimer)
    {
      stale := true;
      cancelOnAccept := true;
      timer := NoTimer;
    }
  }

  /** One operational stop. */
  class StopOperation {
    ghost const place: nat
    const turn: nat

    constructor (turn: nat, ghost place: nat)
      ensures this.place == place && this.turn == turn
    {
      this.place, this.turn := place, turn;
    }
  }

  /** A callback of the node, with the object it was set up with. */
  datatype Occurrence =
    | Outcome(g: nat, d: Demand, named: MissionSlot?)
    | MissionAnswer(slot: MissionSlot, a: Answer)
    | MissionTimer(slot: MissionSlot)
    | CancelAnswer(slot: MissionSlot, confirmed: bool)
    | CancelTimer(slot: MissionSlot)
    | MissionEnd(slot: MissionSlot)
    | StopEnd(stop: StopOperation)
    | SpeakTimer(operation: SpeakOperation, recheck: bool)
    | SpeakAnswer(operation: SpeakOperation, a: Answer)
    | SpeakEnd(operation: SpeakOperation)
    | Destroy

  // ---- objects against values

  ghost predicate SlotsMatch(ss: seq<MissionSlot>, vs: seq<Slot>)
    reads ss
  {
    |ss| == |vs| && forall i :: 0 <= i < |ss| ==> ss[i].place == i && ss[i].View() == vs[i]
  }

  ghost predicate OperationsMatch(os: seq<SpeakOperation>, vs: seq<Operation>)
    reads os
  {
    |os| == |vs| && forall i :: 0 <= i < |os| ==> os[i].place == i && os[i].View() == vs[i]
  }

  ghost predicate StopsMatch(os: seq<StopOperation>, turns: seq<nat>) {
    |os| == |turns| && forall i :: 0 <= i < |os| ==> os[i].place == i && os[i].turn == turns[i]
  }

  /** All objects but one hold what the values say. */
  ghost predicate OtherSlotsMatch(ss: seq<MissionSlot>, vs: seq<Slot>, s: MissionSlot)
    reads set p | p in ss && p != s
  {
    && |ss| == |vs| && s.place < |ss| && ss[s.place] == s
    && forall i :: 0 <= i < |ss| ==> ss[i].place == i && (ss[i] != s ==> ss[i].View() == vs[i])
  }

  ghost predicate OtherOperationsMatch(os: seq<SpeakOperation>, vs: seq<Operation>, o: SpeakOperation)
    reads set p | p in os && p != o
  {
    && |os| == |vs| && o.place < |os| && os[o.place] == o
    && forall i :: 0 <= i < |os| ==> os[i].place == i && (os[i] != o ==> os[i].View() == vs[i])
  }

  /** An update in place changes the value of one object and of no other. */
  lemma SlotUpdated(ss: seq<MissionSlot>, vs: seq<Slot>, s: MissionSlot)
    requires OtherSlotsMatch(ss, vs, s)
    ensures s.place < |vs| && SlotsMatch(ss, vs[s.place := s.View()])
  {
  }

  lemma OperationUpdated(os: seq<SpeakOperation>, vs: seq<Operation>, o: SpeakOperation)
    requires OtherOperationsMatch(os, vs, o)
    ensures o.place < |vs| && OperationsMatch(os, vs[o.place := o.View()])
  {
  }

  class AgentNode {
    var turn: nat
    var missionSlot: MissionSlot?
    var speakOperation: SpeakOperation?
    var stopOperation: StopOperation?
    var speakSeq: nat

    /** Everything ever created, in order, and the state of the node as a value. */
    ghost var slots: seq<MissionSlot>
    ghost var operations: seq<SpeakOperation>
    ghost var stops: seq<StopOperation>
    ghost var node: Node

    ghost predicate Owns(s: MissionSlot)
      reads this
    {
      s.place < |slots| && slots[s.place] == s
    }

    ghost predicate Speaks(o: SpeakOperation)
      reads this
    {
      o.place < |operations| && operations[o.place] == o
    }

    ghost predicate Stops(o: StopOperation)
      reads this
    {
      o.place < |stops| && stops[o.place] == o
    }

    /** The objects hold what the value says, and the three references are the identities it names. */
    ghost predicate Linked()
      reads this, slots, operations
    {
      && Named()
      && SlotsMatch(slots, node.slots) && OperationsMatch(operations, node.operations) && StopsMatch(stops, node.stopTurns)
    }

    /** The references are the identities that the value names. */
    ghost predicate Named()
      reads this
    {
      && turn == node.turn && speakSeq == node.speakSeq
      && node.slot == (if missionSlot == null then None else Some(missionSlot.place))
      && node.speaking == (if speakOperation == null then None else Some(speakOperation.place))
      && node.stop == (if stopOperation == null then None else Some(stopOperation.place))
      && (missionSlot != null ==> Owns(missionSlot))
      && (speakOperation != null ==> Speaks(speakOperation))
      && (stopOperation != null ==> Stops(stopOperation))
      && |slots| == |node.slots| && |operations| == |node.operations| && |stops| == |node.stopTurns|
    }

    /** Everything but operation `o` is as the value says. */
    ghost predicate LinkedBut(o: SpeakOperation)
      reads this, slots, set p | p in operations && p != o
    {
      Named() && SlotsMatch(slots, node.slots) && StopsMatch(stops, node.stopTurns)
      && OtherOperationsMatch(operations, node.operations, o)
    }

    /** Everything but slot `s` is as the value says. */
    ghost predicate LinkedButSlot(s: MissionSlot)
      reads this, operations, set p | p in slots && p != s
    {
      Named() && OperationsMatch(operations, node.operations) && StopsMatch(stops, node.stopTurns)
      && OtherSlotsMatch(slots, node.slots, s)
    }

    /** Two operations in the same place are one. */
    lemma SameOperation(o: SpeakOperation)
      requires Linked() && Speaks(o)
      ensures o.place < |node.operations| && node.operations[o.place] == o.View()
      ensures node.speaking == Some(o.place) <==> speakOperation == o
      ensures LinkedBut(o) && Named()
    {
    }

    lemma SameSlot(s: MissionSlot)
      requires Linked() && Owns(s)
      ensures s.place < |node.slots| && node.slots[s.place] == s.View()
      ensures node.slot == Some(s.place) <==> missionSlot == s
      ensures LinkedButSlot(s) && Named()
    {
    }

    /** The value follows an update of operation `o` in place. */
    ghost method NoteOperation(o: SpeakOperation)
      requires LinkedBut(o)
      modifies `node
      ensures o.place < |old(node).operations| && node == old(node).SetOperation(o.place, o.View())
      ensures Linked() && LinkedBut(o) && Speaks(o)
      ensures node.operations[o.place] == o.View() && (node.speaking == Some(o.place) <==> speakOperation == o)
    {
      OperationUpdated(operations, node.operations, o);
      node := node.SetOperation(o.place, o.View());
    }

    /** The value follows an update of slot `s` in place. */
    ghost method NoteSlot(s: MissionSlot)
      requires LinkedButSlot(s)
      modifies `node
      ensures s.place < |old(node).slots| && node == old(node).SetSlot(s.place, s.View())
      ensures Linked() && LinkedButSlot(s) && Owns(s)
      ensures node.slots[s.place] == s.View() && (node.slot == Some(s.place) <==> missionSlot == s)
    {
      SlotUpdated(slots, node.slots, s);
      node := node.SetSlot(s.place, s.View());
    }

    /** Between two callbacks every handle is accounted for. */
    ghost predicate Valid()
      reads this, slots, operations
    {
      Linked() && Inv(node)
    }

    /** Nothing created is ever forgotten. */
    twostate predicate Extends()
      reads this
    {
      && (forall s :: s in slots ==> s in old(slots) || fresh(s))
      && (forall o :: o in operations ==> o in old(operations) || fresh(o))
    }

    constructor ()
      ensures Valid() && node == NEW_NODE
    {
      turn, missionSlot, speakOperation, stopOperation, speakSeq := 0, null, null, null, 0;
      slots, operations, stops, node := [], [], [], NEW_NODE;
    }

    // ---- speaking

    method BestEffortCancelSpeak(o: SpeakOperation, w: World)
      requires Linked() && Speaks(o)
      modifies `node, operations
      ensures Linked() && node == old(node).CancelSpeakHandle(o.place, w)
    {
      hide SlotsMatch, OperationsMatch, StopsMatch, AgentNode.Linked, AgentNode.LinkedBut, AgentNode.Named;
      SameOperation(o);
      if o.cancelStarted {
        return;
      }
      o.cancelStarted := true;
      o.attempts := o.attempts + [w.speakCancelSends];
      NoteOperation(o);
    }

    /** The operation is no longer current; its place and everything else stay. */
    method LetGo(o: SpeakOperation)
      requires LinkedBut(o) && speakOperation == o
      modifies `node, `speakOperation
      ensures LinkedBut(o) && speakOperation == null && node == old(node).(speaking := None)
    {
      speakOperation := null;
      node := node.(speaking := None);
    }

    method RetireSpeakOperation(w: World)
      requires Linked()
      modifies `node, `speakOperation, operations
      ensures Linked() && node == old(node).RetireSpeak(w)
    {
      hide SlotsMatch, OperationsMatch, StopsMatch, AgentNode.LinkedBut, Node.CancelSpeakHandle;
      var o := speakOperation;
      if o == null {
        return;
      }
      SameOperation(o);
      o.Abandon();
      LetGo(o);
      NoteOperation(o);
      if o.hasHandle {
        BestEffortCancelSpeak(o, w);
      }
    }

    method SpeakDiscoveryTimeout(o: SpeakOperation)
      requires Linked() && speakOperation == o
      modifies `node, `speakOperation, operations
      ensures Linked() && node == old(node).DropSpeech(o.place)
    {
      hide SlotsMatch, OperationsMatch, StopsMatch, AgentNode.LinkedBut;
      SameOperation(o);
      o.Abandon();
      LetGo(o);
      NoteOperation(o);
    }

    method SpeakSendFailure(o: SpeakOperation)
      requires Linked() && Speaks(o)
      modifies `node, `speakOperation, operations
      ensures Linked() && node == old(node).SpeakSendFailure(o.place)
    {
      hide SlotsMatch, OperationsMatch, StopsMatch, AgentNode.LinkedBut;
      SameOperation(o);
      if speakOperation != o {
        return;
      }
      o.timer := NoTimer;
      LetGo(o);
      NoteOperation(o);
    }

    method SendSpeakGoal(o: SpeakOperation, w: World)
      requires Linked() && Speaks(o)
      modifies `node, `speakOperation, operations
      ensures Linked() && node == old(node).SendSpeak(o.place, w)
    {
      hide SlotsMatch, OperationsMatch, StopsMatch, AgentNode.Linked, AgentNode.LinkedBut, AgentNode.Named,
        Node.SpeakSendFailure;
      SameOperation(o);
      if speakOperation != o || o.stale || o.sendStarted {
        return;
      }
      o.sendStarted := true;
      if !w.speakSends {
        NoteOperation(o);
        SpeakSendFailure(o);
        return;
      }
      GoalSent(o);
      o.sent := true;
      o.timer := SendDeadline;
      NoteOperation(o);
    }

    ghost method GoalSent(o: SpeakOperation)
      requires LinkedBut(o)
      modifies `node
      ensures LinkedBut(o) && node == old(node).(goals := old(node).goals + [o.sourceSeq])
    {
      node := node.(goals := node.goals + [o.sourceSeq]);
    }

    method ScheduleSpeakDiscoveryRecheck(o: SpeakOperation, w: World)
      requires Linked() && speakOperation == o
      modifies `node, `speakOperation, operations
      ensures Linked() && node == old(node).AwaitServer(o.place, w)
    {
      hide SlotsMatch, OperationsMatch, StopsMatch, AgentNode.LinkedBut, Node.DropSpeech;
      SameOperation(o);
      if w.late {
        SpeakDiscoveryTimeout(o);
        return;
      }
      o.timer := Recheck;
      NoteOperation(o);
    }

    /** A new operation, current from the start. */
    method BeginSpeaking(g: nat) returns (o: SpeakOperation)
      requires Linked()
      modifies `node, `speakOperation, `speakSeq, `operations
      ensures Linked() && Extends() && fresh(o) && speakOperation == o && operations == old(operations) + [o]
      ensures node == old(node).(speakSeq := speakSeq, speaking := Some(|old(node).operations|),
                                 operations := old(node).operations + [NewOperation(g, speakSeq)])
      ensures speakSeq == old(speakSeq) + 1
    {
      hide SlotsMatch, StopsMatch;
      speakSeq := speakSeq + 1;
      o := new SpeakOperation(g, speakSeq, |operations|);
      operations := operations + [o];
      speakOperation := o;
      node := node.(speakSeq := speakSeq, speaking := Some(o.place),
                    operations := node.operations + [NewOperation(g, speakSeq)]);
    }

    method SpeakText(g: nat, w: World)
      requires Linked()
      modifies `node, `speakOperation, `speakSeq, `operations, operations
      ensures Linked() && Extends() && node == old(node).Speak(g, w)
    {
      hide SlotsMatch, OperationsMatch, StopsMatch, Node.SendSpeak, Node.AwaitServer, Node.RetireSpeak;
      if MAX_UINT64 <= speakSeq {
        return;
      }
      RetireSpeakOperation(w);
      var o := BeginSpeaking(g);
      if w.speakReady {
        SendSpeakGoal(o, w);
      } else {
        ScheduleSpeakDiscoveryRecheck(o, w);
      }
    }
    method SpeakDiscoveryRecheck(o: SpeakOperation, w: World)
      requires Linked() && Speaks(o)
      modifies this, slots, operations
      ensures Linked() && Extends() && node == old(node).SpeakRecheck(o.place, w)
    {
      hide SlotsMatch, OperationsMatch, StopsMatch, AgentNode.LinkedBut, Node.SendSpeak, Node.AwaitServer,
        Node.DropSpeech;
      SameOperation(o);
      if speakOperation != o || o.stale || o.sendStarted {
        return;
      }
      o.timer := NoTimer;
      NoteOperation(o);
      if w.late {
        SpeakDiscoveryTimeout(o);
      } else if w.speakReady {
        SendSpeakGoal(o, w);
      } else {
        ScheduleSpeakDiscoveryRecheck(o, w);
      }
    }

    /** The goal's future has completed. */
    ghost method SpeakAnsweredNow(o: SpeakOperation, a: Answer)
      requires Linked() && Speaks(o)
      modifies `node, o
      ensures Linked() && Speaks(o) && o.place < |old(node).operations|
              && o.View() == old(node).operations[o.place].(responded := true, accepted := a.Accepted?)
      ensures node == old(node).SetOperation(o.place, o.View())
              && (node.speaking == Some(o.place) <==> speakOperation == o)
    {
      hide SlotsMatch, OperationsMatch, StopsMatch, AgentNode.LinkedBut;
      SameOperation(o);
      o.responded, o.accepted := true, a.Accepted?;
      NoteOperation(o);
    }

    method SpeakGoalResponse(o: SpeakOperation, a: Answer, w: World)
      requires Linked() && Speaks(o)
      modifies this, slots, operations
      ensures Linked() && Extends() && node == old(node).SpeakResponse(o.place, a, w)
    {
      hide SlotsMatch, OperationsMatch, StopsMatch, AgentNode.Linked, AgentNode.LinkedBut, AgentNode.Named,
        Node.SpeakSendFailure, Node.CancelSpeakHandle, Node.HoldHandle;
      SpeakAnsweredNow(o, a);
      if a.Refused? {
        SpeakSendFailure(o);
      } else if speakOperation != o || o.stale {
        BestEffortCancelSpeak(o, w);
      } else {
        HoldSpeakHandle(o, w);
      }
    }

    /** The current operation's goal has been accepted in time. */
    method HoldSpeakHandle(o: SpeakOperation, w: World)
      requires Linked() && Speaks(o)
      modifies `node, operations
      ensures Linked() && node == old(node).HoldHandle(o.place, w)
    {
      hide SlotsMatch, OperationsMatch, StopsMatch, AgentNode.Linked, AgentNode.LinkedBut, AgentNode.Named,
        Node.CancelSpeakHandle;
      SameOperation(o);
      o.Hold();
      NoteOperation(o);
      if o.cancelOnAccept {
        BestEffortCancelSpeak(o, w);
        return;
      }
      o.resultAwaited := w.attaches;
      NoteOperation(o);
    }

    method SpeakSendTimeout(o: SpeakOperation)
      requires Linked() && Speaks(o)
      modifies this, slots, operations
      ensures Linked() && Extends() && node == old(node).SpeakSendTimeout(o.place)
    {
      hide SlotsMatch, OperationsMatch, StopsMatch, AgentNode.LinkedBut;
      SameOperation(o);
      if speakOperation != o {
        return;
      }
      o.timer := NoTimer;
      o.stale := true;
      LetGo(o);
      NoteOperation(o);
    }

    method SpeakResult(o: SpeakOperation)
      requires Linked() && Speaks(o)
      modifies this, slots, operations
      ensures Linked() && Extends() && node == old(node).SpeakResult(o.place)
    {
      hide SlotsMatch, OperationsMatch, StopsMatch, AgentNode.LinkedBut;
      SameOperation(o);
      o.finished := true;
      NoteOperation(o);
      if speakOperation == o {
        LetGo(o);
        OperationUpdated(operations, node.operations, o);
      }
    }

    // ---- Missions

    /** The slot is no longer current; its place and everything else stay. */
    method LetGoSlot(s: MissionSlot)
      requires LinkedButSlot(s) && missionSlot == s
      modifies `node, `missionSlot
      ensures LinkedButSlot(s) && missionSlot == null && node == old(node).(slot := None)
    {
      missionSlot := null;
      node := node.(slot := None);
    }

    method ClearMissionSlot(s: MissionSlot)
      requires Linked() && Owns(s)
      modifies `node, `missionSlot, slots
      ensures Linked() && node == old(node).ClearSlot(s.place)
    {
      hide SlotsMatch, OperationsMatch, StopsMatch, AgentNode.LinkedButSlot;
      SameSlot(s);
      if missionSlot != s {
        return;
      }
      s.DisarmTimers();
      LetGoSlot(s);
      NoteSlot(s);
    }

    /** Speaks for the slot's last turn, unless a newer turn has been delivered since. */
    method SpeakForSlot(s: MissionSlot, w: World)
      requires Linked() && Owns(s)
      modifies this, operations
      ensures Linked() && Extends() && node == old(node).SpeakForSlot(s.place, w)
    {
      hide SlotsMatch, OperationsMatch, StopsMatch, AgentNode.LinkedButSlot, Node.Speak;
      SameSlot(s);
      if s.terminalTurn == turn {
        SpeakText(turn, w);
      }
    }

    method MissionSendFailure(s: MissionSlot, w: World)
      requires Linked() && Owns(s)
      modifies this, slots, operations
      ensures Linked() && Extends() && node == old(node).MissionSendFailure(s.place, w)
    {
      hide SlotsMatch, OperationsMatch, StopsMatch, AgentNode.Linked, AgentNode.LinkedButSlot, AgentNode.Named,
        Node.ClearSlot, Node.SpeakForSlot;
      SameSlot(s);
      if missionSlot != s {
        return;
      }
      ClearMissionSlot(s);
      SpeakForSlot(s, w);
    }

    /** A new slot, current from the start. */
    method BeginMission(g: nat) returns (s: MissionSlot)
      requires Linked()
      modifies `node, `missionSlot, `slots
      ensures Linked() && Extends() && fresh(s) && missionSlot == s && slots == old(slots) + [s] && Owns(s)
      ensures s.place == |old(node).slots|
      ensures node == old(node).(slot := Some(|old(node).slots|), slots := old(node).slots + [NewSlot(g)])
    {
      hide OperationsMatch, StopsMatch;
      s := new MissionSlot(g, |slots|);
      slots := slots + [s];
      missionSlot := s;
      node := node.(slot := Some(s.place), slots := node.slots + [NewSlot(g)]);
    }

    method HandleMission(g: nat, w: World)
      requires Linked()
      modifies this, slots, operations
      ensures Linked() && Extends() && node == old(node).HandleMission(g, w)
    {
      hide SlotsMatch, OperationsMatch, StopsMatch, AgentNode.Linked, AgentNode.LinkedButSlot, AgentNode.Named,
        Node.Speak, Node.MissionSendFailure;
      SameCurrent();
      if missionSlot != null {
        SpeakText(g, w);
        return;
      }
      var s := BeginMission(g);
      if !w.missionSends {
        MissionSendFailure(s, w);
        return;
      }
      SameSlot(s);
      s.sent := true;
      s.sendTimer := true;
      NoteSlot(s);
    }

    lemma SameCurrent()
      requires Linked()
      ensures node.slot == (if missionSlot == null then None else Some(missionSlot.place))
      ensures missionSlot != null ==> Owns(missionSlot) && missionSlot.place < |node.slots|
      ensures turn == node.turn && |stops| == |node.stopTurns|
    {
    }

    /** The send deadline has passed: its timer is gone. */
    method SendTimerFired(s: MissionSlot)
      requires Linked() && Owns(s)
      modifies `node, s
      ensures Linked() && Owns(s) && s.place < |old(node).slots|
              && s.View() == old(node).slots[s.place].(sendTimer := false)
      ensures node == old(node).SetSlot(s.place, s.View()) && (node.slot == Some(s.place) <==> missionSlot == s)
    {
      hide SlotsMatch, OperationsMatch, StopsMatch, AgentNode.LinkedButSlot;
      SameSlot(s);
      s.sendTimer := false;
      NoteSlot(s);
    }

    /** The cancel deadline has passed: its timer is gone. */
    method CancelTimerFired(s: MissionSlot)
      requires Linked() && Owns(s)
      modifies `node, s
      ensures Linked() && Owns(s) && s.place < |old(node).slots|
              && s.View() == old(node).slots[s.place].(cancelTimer := false)
      ensures node == old(node).SetSlot(s.place, s.View()) && (node.slot == Some(s.place) <==> missionSlot == s)
    {
      hide SlotsMatch, OperationsMatch, StopsMatch, AgentNode.LinkedButSlot;
      SameSlot(s);
      s.cancelTimer := false;
      NoteSlot(s);
    }

    /** The cancel's future has completed. */
    ghost method CancelAnsweredNow(s: MissionSlot)
      requires Linked() && Owns(s)
      modifies `node, s
      ensures Linked() && Owns(s) && s.place < |old(node).slots|
              && s.View() == old(node).slots[s.place].(cancelAwaited := false)
      ensures node == old(node).SetSlot(s.place, s.View()) && (node.slot == Some(s.place) <==> missionSlot == s)
    {
      hide SlotsMatch, OperationsMatch, StopsMatch, AgentNode.LinkedButSlot;
      SameSlot(s);
      s.cancelAwaited := false;
      NoteSlot(s);
    }

    /** The goal's result future has completed. */
    ghost method GoalEnded(s: MissionSlot)
      requires Linked() && Owns(s)
      modifies `node, s
      ensures Linked() && Owns(s) && s.place < |old(node).slots|
              && s.View() == old(node).slots[s.place].(finished := true)
      ensures node == old(node).SetSlot(s.place, s.View()) && (node.slot == Some(s.place) <==> missionSlot == s)
    {
      hide SlotsMatch, OperationsMatch, StopsMatch, AgentNode.LinkedButSlot;
      SameSlot(s);
      s.finished := true;
      NoteSlot(s);
    }

    /** The goal's future has completed. */
    ghost method GoalAnswered(s: MissionSlot, a: Answer)
      requires Linked() && Owns(s)
      modifies `node, s
      ensures Linked() && Owns(s) && s.place < |old(node).slots|
              && s.View() == old(node).slots[s.place].(responded := true, accepted := a.Accepted?)
      ensures node == old(node).SetSlot(s.place, s.View()) && (node.slot == Some(s.place) <==> missionSlot == s)
    {
      hide SlotsMatch, OperationsMatch, StopsMatch, AgentNode.LinkedButSlot;
      SameSlot(s);
      s.responded, s.accepted := true, a.Accepted?;
      NoteSlot(s);
    }

    method MissionSendTimeout(s: MissionSlot, w: World)
      requires Linked() && Owns(s)
      modifies this, slots, operations
      ensures Linked() && Extends() && node == old(node).MissionSendTimeout(s.place, w)
    {
      hide SlotsMatch, OperationsMatch, StopsMatch, AgentNode.Linked, AgentNode.LinkedButSlot, AgentNode.Named,
        Node.ClearSlot, Node.SpeakForSlot;
      SendTimerFired(s);
      if missionSlot != s || s.state != SendPending {
        return;
      }
      ClearMissionSlot(s);
      SpeakForSlot(s, w);
    }

    method MissionCancelFailure(s: MissionSlot, w: World)
      requires Linked() && Owns(s)
      modifies this, slots, operations
      ensures Linked() && Extends() && node == old(node).CancelFailure(s.place, w)
    {
      hide SlotsMatch, OperationsMatch, StopsMatch, AgentNode.Linked, AgentNode.LinkedButSlot, AgentNode.Named,
        Node.SpeakForSlot;
      SameSlot(s);
      if missionSlot != s {
        return;
      }
      var spoken := s.cancelFailureSpoken;
      s.Resume();
      NoteSlot(s);
      if !spoken {
        SpeakForSlot(s, w);
      }
    }

    method RequestMissionCancel(s: MissionSlot, w: World)
      requires Linked() && Owns(s)
      modifies this, slots, operations
      ensures Linked() && Extends() && node == old(node).RequestMissionCancel(s.place, w)
    {
      hide SlotsMatch, OperationsMatch, StopsMatch, AgentNode.Linked, AgentNode.LinkedButSlot, AgentNode.Named,
        Node.CancelFailure;
      SameSlot(s);
      if missionSlot != s || !s.hasHandle || s.cancelStarted {
        return;
      }
      s.AttemptCancel(w.cancelSends);
      NoteSlot(s);
      if !w.cancelSends {
        MissionCancelFailure(s, w);
      }
    }

    /** The cancel of a goal accepted too late; whether it raises is not looked at. */
    method BestEffortCancelMission(s: MissionSlot, w: World)
      requires Linked() && Owns(s)
      modifies `node, s
      ensures Linked() && s.place < |old(node).slots|
              && s.View() == old(s.View()).(attempts := old(s.attempts) + [w.cancelSends])
      ensures node == old(node).SetSlot(s.place, s.View())
    {
      hide SlotsMatch, OperationsMatch, StopsMatch, AgentNode.LinkedButSlot;
      SameSlot(s);
      s.attempts := s.attempts + [w.cancelSends];
      NoteSlot(s);
    }

    /** The goal has been accepted in time. */
    method HoldMissionHandle(s: MissionSlot, w: World)
      requires Linked() && Owns(s)
      modifies `node, s
      ensures Linked() && Owns(s) && s.place < |old(node).slots|
      ensures s.View() == old(s.View()).(sendTimer := false, hasHandle := true, resultAwaited := w.attaches,
                                         state := if old(s.cancelRequested) then CancelPending else Active)
      ensures node == old(node).SetSlot(s.place, s.View())
    {
      hide SlotsMatch, OperationsMatch, StopsMatch, AgentNode.LinkedButSlot;
      SameSlot(s);
      s.Hold(w.attaches);
      NoteSlot(s);
    }

    method MissionGoalResponse(s: MissionSlot, a: Answer, w: World)
      requires Linked() && Owns(s)
      modifies this, slots, operations
      ensures Linked() && Extends() && node == old(node).MissionResponse(s.place, a, w)
    {
      hide SlotsMatch, OperationsMatch, StopsMatch, AgentNode.Linked, AgentNode.LinkedButSlot, AgentNode.Named,
        Node.MissionSendFailure, Node.RequestMissionCancel;
      GoalAnswered(s, a);
      if a.Refused? {
        MissionSendFailure(s, w);
      } else if missionSlot != s {
        BestEffortCancelMission(s, w);
      } else {
        HoldMissionHandle(s, w);
        if s.cancelRequested {
          RequestMissionCancel(s, w);
        }
      }
    }

    /** Cancels the Mission that the outcome names, if it is the current one. */
    method HandleCancel(named: MissionSlot?, g: nat, w: World)
      requires Linked() && (named != null ==> Owns(named))
      modifies this, slots, operations
      ensures Linked() && Extends()
      ensures node == old(node).HandleCancel(if named == null then None else Some(named.place), g, w)
    {
      hide SlotsMatch, OperationsMatch, StopsMatch, AgentNode.Linked, AgentNode.LinkedButSlot, AgentNode.Named,
        Node.Speak, Node.RequestMissionCancel;
      SameCurrent();
      var s := missionSlot;
      if named != null { SameSlot(named); }
      if s == null || named != s {
        SpeakText(g, w);
        return;
      }
      var asked := s.cancelRequested;
      s.AskCancel(g);
      NoteSlot(s);
      if !asked && s.hasHandle {
        RequestMissionCancel(s, w);
      }
    }

    method MissionCancelResponse(s: MissionSlot, confirmed: bool, w: World)
      requires Linked() && Owns(s)
      modifies this, slots, operations
      ensures Linked() && Extends() && node == old(node).MissionCancelResponse(s.place, confirmed, w)
    {
      hide SlotsMatch, OperationsMatch, StopsMatch, AgentNode.Linked, AgentNode.LinkedButSlot, AgentNode.Named,
        Node.CancelFailure;
      CancelAnsweredNow(s);
      if missionSlot != s {
        return;
      }
      if !confirmed {
        MissionCancelFailure(s, w);
        return;
      }
      CancelTimerFired(s);
    }

    method MissionCancelTimeout(s: MissionSlot, w: World)
      requires Linked() && Owns(s)
      modifies this, slots, operations
      ensures Linked() && Extends() && node == old(node).MissionCancelTimeout(s.place, w)
    {
      hide SlotsMatch, OperationsMatch, StopsMatch, AgentNode.Linked, AgentNode.LinkedButSlot, AgentNode.Named,
        Node.CancelFailure;
      CancelTimerFired(s);
      if missionSlot == s {
        MissionCancelFailure(s, w);
      }
    }

    method MissionResult(s: MissionSlot, w: World)
      requires Linked() && Owns(s)
      modifies this, slots, operations
      ensures Linked() && Extends() && node == old(node).MissionResult(s.place, w)
    {
      hide SlotsMatch, OperationsMatch, StopsMatch, AgentNode.Linked, AgentNode.LinkedButSlot, AgentNode.Named,
        Node.ClearSlot, Node.SpeakForSlot;
      GoalEnded(s);
      if missionSlot == s {
        ClearMissionSlot(s);
        SpeakForSlot(s, w);
      }
    }

    // ---- stopping and deliveries

    /** The current stop operation is over. */
    method StopOver(o: StopOperation, w: World)
      requires Linked() && Stops(o)
      modifies this, operations
      ensures Linked() && Extends() && node == old(node).EndStop(o.place, w)
    {
      hide SlotsMatch, OperationsMatch, Node.Speak;
      if stopOperation != o {
        return;
      }
      stopOperation := null;
      node := node.(stop := None);
      SpeakText(o.turn, w);
    }

    method HandleStop(g: nat, w: World)
      requires Linked()
      modifies this, operations
      ensures Linked() && Extends() && node == old(node).HandleStop(g, w)
    {
      hide SlotsMatch, OperationsMatch, Node.EndStop;
      var o := new StopOperation(g, |stops|);
      stops := stops + [o];
      stopOperation := o;
      node := node.(stop := Some(o.place), stopTurns := node.stopTurns + [g]);
      if !w.stopSends {
        StopOver(o, w);
      }
    }

    /** A delivered outcome, after its lease has been consumed. `named` is the Mission that a cancel names. */
    method HandleEngineOutcome(g: nat, d: Demand, named: MissionSlot?, w: World)
      requires Linked() && (named != null ==> Owns(named))
      requires d.Cancel? ==> d.slot == if named == null then None else Some(named.place)
      modifies this, slots, operations
      ensures Linked() && Extends() && node == old(node).Deliver(g, d, w)
    {
      hide SlotsMatch, OperationsMatch, StopsMatch, Node.RetireSpeak, Node.HandleMission, Node.HandleCancel,
        Node.HandleStop, Node.Speak;
      turn := Later(turn, g);
      stopOperation := null;
      node := node.(turn := turn, stop := None);
      RetireSpeakOperation(w);
      match d
      case Mission => HandleMission(g, w);
      case Cancel(_) => HandleCancel(named, g, w);
      case Stop => HandleStop(g, w);
      case Say => SpeakText(g, w);
      case Nothing =>
    }

    // ---- every callback

    /** What an occurrence is as an event of the run. */
    ghost function EventOf(c: Occurrence): Event {
      match c
      case Outcome(g, d, _) => Delivered(g, d)
      case MissionAnswer(s, a) => MissionAnswered(s.place, a)
      case MissionTimer(s) => MissionDeadline(s.place)
      case CancelAnswer(s, confirmed) => CancelAnswered(s.place, confirmed)
      case CancelTimer(s) => CancelDeadline(s.place)
      case MissionEnd(s) => MissionEnded(s.place)
      case StopEnd(o) => StopEnded(o.place)
      case SpeakTimer(o, recheck) => if recheck then SpeakRechecked(o.place) else SpeakDeadline(o.place)
      case SpeakAnswer(o, a) => SpeakAnswered(o.place, a)
      case SpeakEnd(o) => SpeakEnded(o.place)
      case Destroy => NodeDestroyed
    }

    /** The object that the callback was set up with is one of this node's. */
    ghost predicate Mine(c: Occurrence)
      reads this
    {
      match c
      case Outcome(_, d, named) =>
        && (named != null ==> Owns(named))
        && (d.Cancel? ==> d.slot == if named == null then None else Some(named.place))
      case MissionAnswer(s, _) => Owns(s)
      case MissionTimer(s) => Owns(s)
      case CancelAnswer(s, _) => Owns(s)
      case CancelTimer(s) => Owns(s)
      case MissionEnd(s) => Owns(s)
      case StopEnd(o) => Stops(o)
      case SpeakTimer(o, _) => Speaks(o)
      case SpeakAnswer(o, _) => Speaks(o)
      case SpeakEnd(o) => Speaks(o)
      case Destroy => true
    }

    /** The futures and timers of Mission goals. */
    method HandleMissionCallback(c: Occurrence, w: World)
      requires Linked() && Mine(c) && Enabled(node, EventOf(c))
      requires c.MissionAnswer? || c.MissionTimer? || c.CancelAnswer? || c.CancelTimer? || c.MissionEnd?
      modifies this, slots, operations
      ensures Linked() && Extends() && node == Next(old(node), EventOf(c), w)
    {
      hide SlotsMatch, OperationsMatch, StopsMatch, AgentNode.Linked, Node.MissionResponse, Node.MissionSendTimeout,
        Node.MissionCancelResponse, Node.MissionCancelTimeout, Node.MissionResult;
      match c
      case MissionAnswer(s, a) => MissionGoalResponse(s, a, w);
      case MissionTimer(s) => MissionSendTimeout(s, w);
      case CancelAnswer(s, confirmed) => MissionCancelResponse(s, confirmed, w);
      case CancelTimer(s) => MissionCancelTimeout(s, w);
      case MissionEnd(s) => MissionResult(s, w);
    }

    /** Everything else. */
    method HandleOther(c: Occurrence, w: World)
      requires Linked() && Mine(c) && Enabled(node, EventOf(c))
      requires !(c.MissionAnswer? || c.MissionTimer? || c.CancelAnswer? || c.CancelTimer? || c.MissionEnd?)
      modifies this, slots, operations
      ensures Linked() && Extends() && node == Next(old(node), EventOf(c), w)
    {
      hide SlotsMatch, OperationsMatch, StopsMatch, AgentNode.Linked, Node.Deliver, Node.EndStop,
        Node.SpeakRecheck, Node.SpeakResponse, Node.SpeakSendTimeout, Node.SpeakResult, Node.RetireSpeak;
      match c
      case Outcome(g, d, named) => HandleEngineOutcome(g, d, named, w);
      case StopEnd(o) => StopOver(o, w);
      case SpeakTimer(o, recheck) => if recheck { SpeakDiscoveryRecheck(o, w); } else { SpeakSendTimeout(o); }
      case SpeakAnswer(o, a) => SpeakGoalResponse(o, a, w);
      case SpeakEnd(o) => SpeakResult(o);
      case Destroy => RetireSpeakOperation(w);
    }

    /**
      Any callback that can occur, however late, keeps every handle accounted for and is the step
      that the run semantics takes.
     */
    method Handle(c: Occurrence, w: World)
      requires Valid() && Mine(c) && Enabled(node, EventOf(c))
      modifies this, slots, operations
      ensures Valid() && Extends() && node == Next(old(node), EventOf(c), w)
    {
      InvKept(node, EventOf(c), w);
      hide AgentNode.Linked, Inv, Next;
      if c.MissionAnswer? || c.MissionTimer? || c.CancelAnswer? || c.CancelTimer? || c.MissionEnd? {
        HandleMissionCallback(c, w);
      } else {
        HandleOther(c, w);
      }
    }
  }
}

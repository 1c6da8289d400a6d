/**
  The closed events a recognizer reports to its sink, and the turn grammar they obey:
  a run of events is a sequence of turns, each an optional wake followed by any number of
  activities, and then exactly one terminal event; the last turn may still be open.
 */
module SpeechEvents {

  datatype EventKind = Wake | Activity | EndpointFinal | Timeout | Failure

  datatype Event = Event(kind: EventKind, generation: nat, sequence: nat, scope: nat)

  predicate Terminal(k: EventKind) {
    k.EndpointFinal? || k.Timeout? || k.Failure?
  }

  /** The recognising automaton for the grammar. */
  datatype Phase = BetweenTurns | TurnOpen | Malformed

  function Advance(p: Phase, k: EventKind): Phase {
    match p
    case BetweenTurns => if k.Wake? then TurnOpen else if Terminal(k) then BetweenTurns else Malformed
    case TurnOpen => if k.Activity? then TurnOpen else if Terminal(k) then BetweenTurns else Malformed
    case Malformed => Malformed
  }

  function PhaseAfter(events: seq<Event>): Phase {
    if events == [] then BetweenTurns
    else Advance(PhaseAfter(events[..|events| - 1]), events[|events| - 1].kind)
  }

  lemma {:induction false} PhaseAfterAppend(events: seq<Event>, e: Event)
    ensures PhaseAfter(events + [e]) == Advance(PhaseAfter(events), e.kind)
  {
    assert (events + [e])[..|events|] == events;
  }

  /** (Wake Activity*)?, without a terminal: what an unfinished turn has reported. */
  ghost predicate OpenTurn(t: seq<Event>) {
    forall i :: 0 <= i < |t| ==> t[i].kind == if i == 0 then Wake else Activity
  }

  /** (Wake Activity*)? then exactly one terminal event. */
  ghost predicate ClosedTurn(t: seq<Event>) {
    t != [] && OpenTurn(t[..|t| - 1]) && Terminal(t[|t| - 1].kind)
  }

  function Flatten(turns: seq<seq<Event>>): seq<Event> {
    if turns == [] then [] else Flatten(turns[..|turns| - 1]) + turns[|turns| - 1]
  }

  ghost predicate SplitsInto(events: seq<Event>, turns: seq<seq<Event>>, tail: seq<Event>) {
    && events == Flatten(turns) + tail
    && (forall t <- turns :: ClosedTurn(t))
    && OpenTurn(tail)
  }

  lemma {:induction false} FlattenAppend(turns: seq<seq<Event>>, t: seq<Event>)
    ensures Flatten(turns + [t]) == Flatten(turns) + t
  {
    assert (turns + [t])[..|turns|] == turns;
  }

  lemma TerminalClosesTurn(front: seq<Event>, turns: seq<seq<Event>>, tail: seq<Event>, e: Event)
    requires SplitsInto(front, turns, tail) && Terminal(e.kind)
    ensures SplitsInto(front + [e], turns + [tail + [e]], [])
  {
    FlattenAppend(turns, tail + [e]);
    assert front + [e] == Flatten(turns) + (tail + [e]);
    assert (tail + [e])[..|tail|] == tail;
    assert ClosedTurn(tail + [e]);
  }

  lemma TurnStaysOpen(front: seq<Event>, turns: seq<seq<Event>>, tail: seq<Event>, e: Event)
    requires SplitsInto(front, turns, tail) && e.kind == if tail == [] then Wake else Activity
    ensures SplitsInto(front + [e], turns, tail + [e])
  {
    assert front + [e] == Flatten(turns) + (tail + [e]);
  }

  /** A run the automaton accepts splits into closed turns and an open one, which is empty between turns. */
  lemma {:induction false} AcceptedRunsSplitIntoTurns(events: seq<Event>)
    returns (turns: seq<seq<Event>>, tail: seq<Event>)
    requires PhaseAfter(events) != Malformed
    ensures SplitsInto(events, turns, tail)
    ensures tail == [] <==> PhaseAfter(events) == BetweenTurns
  {
    turns, tail := [], [];
    if events != [] {
      var front, last := events[..|events| - 1], events[|events| - 1];
      turns, tail := AcceptedRunsSplitIntoTurns(front);
      assert events == front + [last];
      if Terminal(last.kind) {
        TerminalClosesTurn(front, turns, tail, last);
        turns, tail := turns + [tail + [last]], [];
      } else {
        TurnStaysOpen(front, turns, tail, last);
        tail := tail + [last];
      }
    }
  }

  /** Conversely, only runs that split this way are accepted. */
  lemma {:induction false} SplitRunsAreAccepted(events: seq<Event>, turns: seq<seq<Event>>, tail: seq<Event>)
    requires SplitsInto(events, turns, tail)
    ensures PhaseAfter(events) == if tail == [] then BetweenTurns else TurnOpen
    decreases |turns|, |tail|
  {
    if tail != [] {
      var front, last := tail[..|tail| - 1], tail[|tail| - 1];
      assert events == (Flatten(turns) + front) + [last];
      SplitRunsAreAccepted(Flatten(turns) + front, turns, front);
      PhaseAfterAppend(Flatten(turns) + front, last);
    } else if turns != [] {
      var earlier, t := turns[..|turns| - 1], turns[|turns| - 1];
      assert t in turns && ClosedTurn(t);
      var front, last := t[..|t| - 1], t[|t| - 1];
      assert events == (Flatten(earlier) + front) + [last];
      SplitRunsAreAccepted(Flatten(earlier) + front, earlier, front);
      PhaseAfterAppend(Flatten(earlier) + front, last);
    }
  }
}

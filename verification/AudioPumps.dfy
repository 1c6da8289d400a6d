/** What one undisturbed pump of the consumer takes from the rings: a pair, a capture alone, or a stale capture. */
module AudioPumps {
  import opened Wrappers
  import opened AudioFade
  import opened AudioEngineState
  import opened AudioEngineRuns
  import opened AudioCallback

  /** `n` steps of the consumer. */
  function Pumping(s: System, n: nat): System {
    if n == 0 then s else ConsumerStep(Pumping(s, n - 1))
  }

  lemma {:induction false} PumpingOnward(s: System, a: nat, b: nat)
    ensures Pumping(Pumping(s, a), b) == Pumping(s, a + b)
  {
    hide ConsumerStep;
    if 0 < b { PumpingOnward(s, a, b - 1); }
  }

  /** A resting consumer before a waiting capture. */
  predicate Waiting(s: System) {
    s.consumer.Resting? && s.e.captures != []
  }

  /** The capture is taken, and what was overwritten before it is reported. */
  ghost predicate Taken(s: System, t: System) {
    && s.e.captures != [] && t.e.captures == s.e.captures[1..] && t.e.unreported == 0
    && t.pc == s.pc && t.e.generation == s.e.generation
  }

  /** Reference `k` is the first of generation `g`. */
  predicate FirstCurrent(references: seq<Frame>, g: nat, k: nat) {
    k < |references| && references[k].generation == g && forall i :: 0 <= i < k ==> references[i].generation != g
  }

  lemma {:induction false} FetchedFirst(s: System, c: Frame, w: Window, attempt: nat)
    requires s.consumer == Fetching(c, w, s.e.generation, attempt) && FirstCurrent(s.e.references, s.e.generation, 0)
    requires attempt < RING_CAPACITY
    ensures Pumping(s, 2) == s.(e := s.e.(references := s.e.references[1..]), consumer := Resting,
                                h := s.h.(pairs := s.h.pairs + [Pair(c, s.e.references[0], w)]))
  {
    hide Line, Level;
    var u := s.(e := s.e.(references := s.e.references[1..]),
                consumer := Confirming(c, w, s.e.generation, attempt, s.e.references[0]));
    assert Pumping(s, 1) == u by { assert Pumping(s, 0) == s; }
  }

  lemma {:induction false} FetchedStale(s: System, c: Frame, w: Window, attempt: nat)
    requires s.consumer == Fetching(c, w, s.e.generation, attempt) && attempt < RING_CAPACITY
    requires s.e.references != [] && s.e.references[0].generation != s.e.generation
    ensures Pumping(s, 1) == s.(e := s.e.(references := s.e.references[1..]),
                                consumer := Fetching(c, w, s.e.generation, attempt + 1))
  {
    hide Line, Level;
    assert Pumping(s, 0) == s;
  }

  lemma OneBehind(references: seq<Frame>, g: nat, k: nat)
    requires FirstCurrent(references, g, k) && 0 < k
    ensures references[0].generation != g && FirstCurrent(references[1..], g, k - 1)
    ensures references[1..][k - 1] == references[k] && references[1..][k..] == references[k + 1..]
  {
    forall i | 0 <= i < k - 1 ensures references[1..][i].generation != g {
      assert references[1..][i] == references[i + 1];
    }
  }

  lemma {:induction false} Fetched(s: System, c: Frame, w: Window, attempt: nat, k: nat)
    requires s.consumer == Fetching(c, w, s.e.generation, attempt) && FirstCurrent(s.e.references, s.e.generation, k)
    requires attempt + k < RING_CAPACITY
    ensures Pumping(s, k + 2) == s.(e := s.e.(references := s.e.references[k + 1..]), consumer := Resting,
                                    h := s.h.(pairs := s.h.pairs + [Pair(c, s.e.references[k], w)]))
    decreases k
  {
    hide ConsumerStep, Pumping;
    if k == 0 {
      FetchedFirst(s, c, w, attempt);
    } else {
      OneBehind(s.e.references, s.e.generation, k);
      hide FirstCurrent;
      var u := s.(e := s.e.(references := s.e.references[1..]), consumer := Fetching(c, w, s.e.generation, attempt + 1));
      FetchedStale(s, c, w, attempt);
      Fetched(u, c, w, attempt + 1, k - 1);
      PumpingOnward(s, 1, k + 1);
    }
  }

  lemma {:induction false} Accepted(s: System)
    requires Waiting(s) && s.e.captures[0].generation == s.e.generation
    ensures var t := Pumping(s, 4);
            && t.consumer == Fetching(s.e.captures[0], Window(Level(s), false), s.e.generation, 0)
            && Taken(s, t) && t.e.references == s.e.references && t.h == s.h
            && t.e.delivered == s.e.delivered + 1 && t.e.reportedDrops == s.e.reportedDrops + s.e.unreported
  {
    var c := s.e.captures[0];
    var s1 := s.(e := s.e.PopCapture().0, consumer := Popped(c));
    assert Pumping(s, 1) == s1 by { assert Pumping(s, 0) == s; }
    var s2 := s1.(consumer := Expecting(c, s.e.generation));
    assert Pumping(s, 2) == s2;
    assert Level(s2) == Level(s) by { assert Line(s2) == Line(s); }
    var s3 := s2.(e := s2.e.(delivered := s.e.delivered + 1), consumer := Asking(c, Window(Level(s), false)));
    assert Pumping(s, 3) == s3;
  }

  /**
    Left to itself, a pump that finds a capture of the current generation hands it over together
    with the first waiting reference of that generation, and drops the references before it.
   */
  lemma {:induction false} PumpYieldsAPair(s: System, k: nat)
    requires Waiting(s) && s.e.captures[0].generation == s.e.generation
    requires FirstCurrent(s.e.references, s.e.generation, k) && |s.e.references| <= RING_CAPACITY
    ensures var t := Pumping(s, k + 6);
            && t.consumer.Resting? && Taken(s, t)
            && t.h.pairs == s.h.pairs + [Pair(s.e.captures[0], s.e.references[k], Window(Level(s), false))]
            && t.e.references == s.e.references[k + 1..]
            && t.e.delivered == s.e.delivered + 1 && t.e.reportedDrops == s.e.reportedDrops + s.e.unreported
  {
    hide ConsumerStep, Pumping;
    Accepted(s);
    var u := Pumping(s, 4);
    Fetched(u, s.e.captures[0], Window(Level(s), false), 0, k);
    PumpingOnward(s, 4, k + 2);
    assert 4 + (k + 2) == k + 6;
  }

  /**
    A stale capture is dropped together with the oldest waiting reference, whatever that is; both count
    as one drop.
   */
  lemma {:induction false} PumpDropsAStaleCapture(s: System)
    requires Waiting(s) && s.e.captures[0].generation != s.e.generation
    ensures var t := Pumping(s, 3);
            && t.consumer.Resting? && Taken(s, t) && t.h.pairs == s.h.pairs && t.e.delivered == s.e.delivered
            && t.h.drained == s.h.drained + [Drained(s.e.captures[0],
                                                     if s.e.references == [] then None else Some(s.e.references[0]), Level(s))]
            && t.e.references == (if s.e.references == [] then [] else s.e.references[1..])
            && t.e.reportedDrops == s.e.reportedDrops + s.e.unreported + 1
  {
    var c := s.e.captures[0];
    var s1 := s.(e := s.e.PopCapture().0, consumer := Popped(c));
    assert Pumping(s, 1) == s1 by { assert Pumping(s, 0) == s; }
    var s2 := s1.(consumer := Draining(c));
    assert Pumping(s, 2) == s2;
    assert Level(s2) == Level(s) by { assert Line(s2) == Line(s); }
  }

  // ---- the two pops of the object

  /** Popping for a reference finds the first of the generation, if there is one, and drops the ones before it. */
  lemma {:induction false} PopFindsTheFirstReference(queue: seq<Frame>, g: nat, attempts: nat, k: nat)
    requires FirstCurrent(queue, g, k) && k < attempts
    ensures FirstOf(queue, g, attempts) == (queue[k + 1..], Some(queue[k]))
  {
    if 0 < k {
      assert FirstCurrent(queue[1..], g, k - 1) by {
        forall i | 0 <= i < k - 1 ensures queue[1..][i].generation != g { assert queue[1..][i] == queue[i + 1]; }
      }
      PopFindsTheFirstReference(queue[1..], g, attempts - 1, k - 1);
    }
  }

  lemma {:induction false} PopFindsNoReference(queue: seq<Frame>, g: nat, attempts: nat)
    requires |queue| <= attempts && forall i :: 0 <= i < |queue| ==> queue[i].generation != g
    ensures FirstOf(queue, g, attempts) == ([], None)
  {
    if queue != [] {
      forall i | 0 <= i < |queue| - 1 ensures queue[1..][i].generation != g { assert queue[1..][i] == queue[i + 1]; }
      PopFindsNoReference(queue[1..], g, attempts - 1);
    }
  }

  /** The whole pump on the object's two pops: what it gets, and what it leaves in both rings. */
  lemma {:induction false} WholePump(e: Engine, k: nat)
    requires e.captures != [] && e.captures[0].generation == e.generation
    requires FirstCurrent(e.references, e.generation, k) && |e.references| <= RING_CAPACITY
    ensures var (p, capture) := TakeCapture(e); var (references, reference) := FirstOf(p.references, p.generation, RING_CAPACITY);
            && capture == Some(e.captures[0]) && reference == Some(e.references[k])
            && p.captures == e.captures[1..] && references == e.references[k + 1..] && p.delivered == e.delivered + 1
  {
    PopFindsTheFirstReference(e.references, e.generation, RING_CAPACITY, k);
  }
}

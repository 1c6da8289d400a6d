/**
  The engine's ring objects: a single-producer ring without a count, and a capture ring that
  overwrites its oldest frame.
 */
module AudioRings {
  import opened Wrappers
  import opened Rings

  /** A ring of `capacity` slots that tells full from empty by leaving one slot free. */
  class SpscRing<T(0)> {
    const items: array<T>
    var write: nat
    var read: nat
    ghost var contents: seq<T>

    ghost predicate Valid()
      reads this, items
    {
      && 0 < items.Length && read < items.Length && write < items.Length && |contents| < items.Length
      && write == Slot(read, |contents|, items.Length)
      && contents == Ring(items[..], read, |contents|)
    }

    constructor (capacity: nat)
      requires 0 < capacity
      ensures Valid() && fresh(items) && items.Length == capacity && contents == []
    {
      items := new T[capacity];
      write, read, contents := 0, 0, [];
    }

    method CanPush() returns (room: bool)
      requires Valid()
      ensures room == (|contents| < items.Length - 1)
    {
      NextSlot(write, items.Length);
      room := (write + 1) % items.Length != read;
    }

    method Push(x: T) returns (pushed: bool)
      requires Valid()
      modifies this, items
      ensures Valid() && pushed == (|old(contents)| < items.Length - 1)
      ensures contents == if pushed then old(contents) + [x] else old(contents)
    {
      pushed := CanPush();
      if pushed {
        RingPush(items[..], read, |contents|, x);
        items[write] := x;
        write := (write + 1) % items.Length;
        contents := contents + [x];
      }
    }

    method Pop() returns (x: Option<T>)
      requires Valid()
      modifies this
      ensures Valid()
      ensures x == if old(contents) == [] then None else Some(old(contents)[0])
      ensures contents == if old(contents) == [] then [] else old(contents)[1..]
    {
      if read == write {
        assert |contents| == 0;
        return None;
      }
      RingPop(items[..], read, |contents|);
      x := Some(items[read]);
      read := (read + 1) % items.Length;
      contents := contents[1..];
    }
  }

  /** A slot of the capture ring: an even sequence marks a complete item. */
  datatype Stamped<T> = Stamped(sequence: nat, item: T)

  /**
    A ring whose producer never waits: a push overwrites the oldest item, and the consumer learns
    at its next pop exactly how many it has missed.
   */
  class OverwriteRing<T(0)> {
    const slots: array<Stamped<T>>
    var published: nat
    var consumed: nat
    ghost var pushed: seq<T>  // everything ever pushed

    /** Slot `i % capacity` still holds item number `i`. */
    ghost predicate Holds(i: nat)
      requires 0 < slots.Length && i < |pushed|
      reads this, slots
    {
      slots[i % slots.Length] == Stamped(2 * (i + 1), pushed[i])
    }

    ghost predicate Valid()
      reads this, slots
    {
      && 0 < slots.Length && consumed <= published == |pushed|
      && forall i: nat :: i < |pushed| && |pushed| <= i + slots.Length ==> Holds(i)
    }

    /** The place of the oldest item that has been neither consumed nor overwritten. */
    ghost function Oldest(): (i: nat)
      requires Valid()
      reads this, slots
      ensures consumed <= i <= published
    {
      if consumed + slots.Length < published then published - slots.Length else consumed
    }

    ghost function Contents(): seq<T>
      requires Valid()
      reads this, slots
    {
      pushed[Oldest()..]
    }

    ghost function Unreported(): nat
      requires Valid()
      reads this, slots
    {
      Oldest() - consumed
    }

    constructor (capacity: nat, zero: T)
      requires 0 < capacity
      ensures Valid() && fresh(slots) && slots.Length == capacity && Contents() == [] && Unreported() == 0
    {
      slots := new Stamped<T>[capacity](_ => Stamped(0, zero));
      published, consumed, pushed := 0, 0, [];
    }

    lemma OtherSlot(i: nat, n: nat)
      requires 0 < slots.Length && i < n < i + slots.Length
      ensures i % slots.Length != n % slots.Length
    {
      if i % slots.Length == n % slots.Length {
        MultipleApart(i, n, slots.Length);
      }
    }

    method PushDropOldest(x: T)
      requires Valid()
      modifies this, slots
      ensures Valid()
      ensures var full := |old(Contents())| == slots.Length;
              && |old(Contents())| <= slots.Length
              && Contents() == (if full then old(Contents())[1..] else old(Contents())) + [x]
              && Unreported() == old(Unreported()) + if full then 1 else 0
    {
      var n := published;
      slots[n % slots.Length] := Stamped(2 * (n + 1), x);
      pushed := pushed + [x];
      published := n + 1;
      forall i: nat | i < |pushed| && |pushed| <= i + slots.Length ensures Holds(i) {
        if i < n {
          assert old(Holds(i));
          OtherSlot(i, n);
        }
      }
    }

    /** A complete pop: the missed items are reported, and the oldest remaining one is handed over. */
    method Pop() returns (x: Option<T>, drops: nat)
      requires Valid()
      modifies this
      ensures Valid()
      ensures old(Contents()) == [] ==> x.None? && drops == 0 && Contents() == [] && Unreported() == old(Unreported())
      ensures old(Contents()) != [] ==>
                && x == Some(old(Contents())[0]) && drops == old(Unreported())
                && Contents() == old(Contents())[1..] && Unreported() == 0
    {
      if published <= consumed {
        return None, 0;
      }
      var oldest := if slots.Length < published then published - slots.Length else 0;
      drops := if consumed < oldest then oldest - consumed else 0;
      var next := if consumed < oldest then oldest else consumed;
      assert Holds(next) && next == Oldest();
      x := Some(slots[next % slots.Length].item);
      consumed := next + 1;
      forall i: nat | i < |pushed| && |pushed| <= i + slots.Length ensures Holds(i) {
        assert old(Holds(i));
      }
      assert Oldest() == consumed;
      assert pushed[next..][1..] == pushed[consumed..];
    }
  }

  lemma MultipleApart(i: nat, n: nat, size: nat)
    requires 0 < size && i < n && i % size == n % size
    ensures i + size <= n
  {
    var a, b := i / size, n / size;
    assert i == a * size + i % size && n == b * size + n % size;
    if b <= a {
      ProductMonotone(b, a, size);
    } else {
      ProductMonotone(a + 1, b, size);
    }
  }

  lemma ProductMonotone(a: nat, b: nat, size: nat)
    requires a <= b
    ensures a * size <= b * size
  {
  }
}

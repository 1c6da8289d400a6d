/** Circular buffers: the live items of a fixed array, oldest first, and how pushes and pops change them. */
module Rings {

  /** The slot `offset` places after `read`, going round. */
  function Slot(read: nat, offset: nat, size: nat): (i: nat)
    requires read < size && offset <= size
    ensures i < size
  {
    if read + offset < size then read + offset else read + offset - size
  }

  function Ring<T>(q: seq<T>, read: nat, count: nat): (r: seq<T>)
    requires read < |q| && count <= |q|
    ensures |r| == count
  {
    if read + count <= |q| then q[read..read + count] else q[read..] + q[..read + count - |q|]
  }

  lemma RingAt<T>(q: seq<T>, read: nat, count: nat, i: nat)
    requires read < |q| && i < count <= |q|
    ensures Ring(q, read, count)[i] == q[Slot(read, i, |q|)]
  {
  }

  lemma NextSlot(i: nat, size: nat)
    requires i < size
    ensures (i + 1) % size == if i + 1 == size then 0 else i + 1
  {
    if i + 1 < size { SmallMod(i + 1, size); }
  }

  lemma SmallMod(i: nat, size: nat)
    requires i < size
    ensures i % size == i
  {
  }

  lemma RingPush<T>(q: seq<T>, read: nat, count: nat, x: T)
    requires read < |q| && count < |q|
    ensures Ring(q[Slot(read, count, |q|) := x], read, count + 1) == Ring(q, read, count) + [x]
    ensures (Slot(read, count, |q|) + 1) % |q| == Slot(read, count + 1, |q|)
  {
    var w := Slot(read, count, |q|);
    NextSlot(w, |q|);
    forall i: nat | i < count + 1
      ensures Ring(q[w := x], read, count + 1)[i] == (Ring(q, read, count) + [x])[i]
    {
      RingAt(q[w := x], read, count + 1, i);
      if i < count { RingAt(q, read, count, i); }
    }
  }

  lemma RingPop<T>(q: seq<T>, read: nat, count: nat)
    requires read < |q| && 0 < count <= |q|
    ensures Ring(q, read, count)[0] == q[read]
    ensures Ring(q, (read + 1) % |q|, count - 1) == Ring(q, read, count)[1..]
    ensures Slot((read + 1) % |q|, count - 1, |q|) == Slot(read, count, |q|)
  {
    NextSlot(read, |q|);
    forall i: nat | i < count - 1
      ensures Ring(q, (read + 1) % |q|, count - 1)[i] == Ring(q, read, count)[1..][i]
    {
      RingAt(q, (read + 1) % |q|, count - 1, i);
      RingAt(q, read, count, i + 1);
    }
  }
}

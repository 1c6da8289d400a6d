/** The two fixed buffers the recognizer owns: a circular queue and a linear sample buffer. */
module Buffers {
  import opened Rings

  /** A circular queue over a fixed array, with a read index, a write index and a count. */
  class CircularQueue<T(0)> {
    const items: array<T>
    var read: nat
    var write: nat
    var count: nat
    ghost var contents: seq<T>  // the live items, oldest first

    ghost predicate Valid()
      reads this, items
    {
      && 0 < items.Length
      && read < items.Length && write < items.Length && count <= items.Length
      && |contents| == count
      && contents == Ring(items[..], read, count)
    }

    /** The write index is where the next item goes. Dropping the count alone loses this. */
    ghost predicate Aligned()
      requires Valid()
      reads this, items
    {
      write == Slot(read, count, items.Length)
    }

    constructor (capacity: nat)
      requires 0 < capacity
      ensures Valid() && Aligned() && fresh(items) && items.Length == capacity && contents == []
    {
      items := new T[capacity];
      read, write, count := 0, 0, 0;
      contents := [];
    }

    method Push(x: T)
      requires Valid() && Aligned() && count < items.Length
      modifies this, items
      ensures Valid() && Aligned() && contents == old(contents) + [x]
    {
      RingPush(items[..], read, count, x);
      items[write] := x;
      write := (write + 1) % items.Length;
      count := count + 1;
      contents := contents + [x];
    }

    method Pop() returns (x: T)
      requires Valid() && 0 < count
      modifies this
      ensures Valid() && old(Aligned()) ==> Aligned()
      ensures Valid() && x == old(contents)[0] && contents == old(contents)[1..]
    {
      RingPop(items[..], read, count);
      x := items[read];
      read := (read + 1) % items.Length;
      count := count - 1;
      contents := contents[1..];
    }

    /** Empties the queue and moves the read index up to the write index. */
    method Clear()
      requires Valid()
      modifies this
      ensures Valid() && Aligned() && contents == []
    {
      count := 0;
      read := write;
      contents := [];
    }

    /** Empties the queue by zeroing the count only. */
    method DropAll()
      requires Valid()
      modifies this
      ensures Valid() && contents == []
    {
      count := 0;
      contents := [];
    }
  }

  /** A fixed buffer filled from the front. */
  class SampleBuffer {
    const data: array<int>
    var count: nat
    ghost var contents: seq<int>

    ghost predicate Valid()
      reads this, data
    {
      count <= data.Length && contents == data[..count]
    }

    constructor (size: nat)
      ensures Valid() && fresh(data) && data.Length == size && contents == []
    {
      data := new int[size];
      count := 0;
      contents := [];
    }

    /** Copies the first `valid` samples behind the filled part. */
    method Append(samples: seq<int>, valid: nat)
      requires Valid() && valid <= |samples| && count + valid <= data.Length
      modifies this, data
      ensures Valid() && contents == old(contents) + samples[..valid]
    {
      var offset := count;
      for i := 0 to valid
        invariant unchanged(this)
        invariant data[..offset + i] == contents + samples[..i]
      {
        data[offset + i] := samples[i];
        assert data[..offset + i + 1] == data[..offset + i] + [samples[i]];
      }
      count := offset + valid;
      contents := contents + samples[..valid];
    }

    method Truncate(n: nat)
      requires Valid() && n <= count
      modifies this
      ensures Valid() && contents == old(contents)[..n]
    {
      count := n;
      contents := contents[..n];
    }
  }
}

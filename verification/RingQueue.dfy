/** `RingQueue<SIZE>` (util/LogBufferQueue.cpp:68-104): the pool of recycled buffers, a circular array of
    SIZE + 1 owning pointers of which one is always empty.  It is a FIFO queue of at most SIZE buffers. */
module RingQueue {
  import opened Util
  import opened LogBufferQueue

  /** Stepping an index of a circular array of length `n`. */
  lemma StepIndex(i: nat, n: nat)
    requires i < n
    ensures (i + 1) % n == if i + 1 == n then 0 else i + 1
  {
    if i + 1 == n { assert n % n == 0; } else { assert (i + 1) % n == i + 1; }
  }

  class RingQueue {
    const slots: array<Option<nat>>  // log_buffers_
    var writeIndex: nat
    var readIndex: nat

    function Size(): int { slots.Length - 1 }

    function Count(): int
      reads this
    {
      if readIndex <= writeIndex then writeIndex - readIndex else writeIndex + slots.Length - readIndex
    }

    /** The array index of the `k`-th element. */
    function Position(k: int): int
      reads this
    {
      if readIndex + k < slots.Length then readIndex + k else readIndex + k - slots.Length
    }

    ghost predicate Valid()
      reads this, slots
    {
      writeIndex < slots.Length && readIndex < slots.Length &&
      forall k :: 0 <= k < Count() ==> slots[Position(k)].Some?
    }

    ghost function Contents(): (s: seq<nat>)
      requires Valid()
      reads this, slots
      ensures |s| == Count() <= Size()
    {
      seq(Count(), k requires 0 <= k < Count() && Valid() reads this, slots => slots[Position(k)].value)
    }

    constructor (size: nat)
      ensures Valid() && fresh(slots) && Size() == size && Contents() == []
    {
      slots := new Option<nat>[size + 1](_ => None);
      writeIndex, readIndex := 0, 0;
    }

    /** Refuses the buffer exactly when the queue is full. */
    method Push(buf: nat) returns (ok: bool)
      requires Valid()
      modifies this`writeIndex, slots
      ensures Valid() && ok == (|old(Contents())| < Size())
      ensures Contents() == if ok then old(Contents()) + [buf] else old(Contents())
    {
      StepIndex(writeIndex, slots.Length);
      var next := (writeIndex + 1) % slots.Length;
      if next == readIndex {
        return false;
      }
      assert Position(Count()) == writeIndex;
      slots[writeIndex] := Some(buf);
      writeIndex := next;
      assert Count() == old(Count()) + 1 && Position(old(Count())) == old(writeIndex);
      forall k | 0 <= k < Count()
        ensures slots[Position(k)] == if k < old(Count()) then old(slots[Position(k)]) else Some(buf)
      {
        assert Position(k) == old(Position(k));
      }
      assert Contents() == old(Contents()) + [buf];
      return true;
    }

    /** Yields the oldest buffer unless the queue is empty, and gives up its ownership. */
    method Pop() returns (buf: Option<nat>)
      requires Valid()
      modifies this`readIndex, slots
      ensures Valid() && (buf.None? <==> old(Contents()) == [])
      ensures buf.Some? ==> buf.value == old(Contents())[0] && Contents() == old(Contents())[1..]
      ensures buf.None? ==> Contents() == old(Contents())
    {
      if writeIndex == readIndex {
        return None;
      }
      StepIndex(readIndex, slots.Length);
      assert Position(0) == readIndex;
      buf := slots[readIndex];
      slots[readIndex] := None;
      readIndex := (readIndex + 1) % slots.Length;
      assert forall k :: 0 <= k < Count() ==> Position(k) == old(Position(k + 1));
      assert Contents() == old(Contents())[1..];
    }
  }

  /** A ring of the source's size behaves as the `ring` component of the concurrent model: a consumer's offer is
      `DoRecycle`, a rotator's request is `DoReuse`, or `DoAllocate` when nothing comes back. */
  method Offer(ring: RingQueue, s: State) returns (t: State)
    requires ring.Valid() && ring.Size() == 4 && s.reader.Recycling? && ring.Contents() == s.ring
    modifies ring, ring.slots
    ensures ring.Valid() && t == DoRecycle(s) && ring.Contents() == t.ring
  {
    var ok := ring.Push(s.reader.buf);
    t := s.(reader := Ready, ring := if ok then s.ring + [s.reader.buf] else s.ring);
  }

  method Request(ring: RingQueue, cfg: Config, s: State, p: nat) returns (t: State)
    requires ring.Valid() && ring.Size() == 4 && p < |s.producers| && ring.Contents() == s.ring
    requires Enabled(cfg, s, PickBuffer(p))
    modifies ring, ring.slots
    ensures ring.Valid() && t == Next(cfg, s, PickBuffer(p)) && ring.Contents() == t.ring
  {
    var buf := ring.Pop();
    match buf
    case Some(b) => t := DoReuse(s, p);
    case None => t := DoAllocate(cfg, s, p);
  }
}

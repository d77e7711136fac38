/** What the line queue guarantees over whole runs, for any number of producers and any buffer size. */
module LogBufferQueueTheorems {
  import opened Util
  import opened LogBufferQueue
  import opened LogBufferQueueInvariant
  import opened LogBufferQueueProof

  // ---------------------------------------------------------------- order

  lemma {:induction false} RunKeepsInv(cfg: Config, s: State, steps: seq<Step>)
    requires Inv(cfg, s) && IsRun(cfg, s, steps) && (cfg.clears || NeverReuses(cfg, s, steps))
    ensures Inv(cfg, Exec(cfg, s, steps))
    decreases |steps|
  {
    if steps != [] {
      StepKeepsInv(cfg, s, steps[0]);
      RunKeepsInv(cfg, Next(cfg, s, steps[0]), steps[1..]);
    }
  }

  lemma InvImpliesFifo(cfg: Config, s: State)
    requires Inv(cfg, s)
    ensures Fifo(s)
  {
    if s.queue != [] {
      var front := s.h.pend[0];
      assert s.tickets == s.h.base + (front + Concat(s.h.pend[1..]));
    }
  }

  /** Repaired form: in every reachable state the consumer has received exactly the first lines in ticket order.
      None is lost, duplicated, stale or reordered, across any rotation and recycling. */
  lemma EveryRunIsFifo(cfg: Config, threads: nat, steps: seq<Step>)
    requires cfg.slots > 0 && cfg.clears && IsRun(cfg, Init(cfg, threads), steps)
    ensures Fifo(Exec(cfg, Init(cfg, threads), steps))
  {
    InitInv(cfg, threads);
    RunKeepsInv(cfg, Init(cfg, threads), steps);
    InvImpliesFifo(cfg, Exec(cfg, Init(cfg, threads), steps));
  }

  /** Written form: the same holds for every run that never takes a buffer out of the recycling ring. */
  lemma RunWithoutReuseIsFifo(cfg: Config, threads: nat, steps: seq<Step>)
    requires cfg.slots > 0 && IsRun(cfg, Init(cfg, threads), steps) && NeverReuses(cfg, Init(cfg, threads), steps)
    ensures Fifo(Exec(cfg, Init(cfg, threads), steps))
  {
    InitInv(cfg, threads);
    RunKeepsInv(cfg, Init(cfg, threads), steps);
    InvImpliesFifo(cfg, Exec(cfg, Init(cfg, threads), steps));
  }

  // ---------------------------------------------------------------- ownership

  /** A producer with an unfinished ticket holds the current buffer, and no two own the same slot of it. */
  lemma SlotOwnership(cfg: Config, s: State, p: nat, q: nat)
    requires Inv(cfg, s) && p < |s.producers| && q < |s.producers|
    requires HasSlot(s.producers[p]) && HasSlot(s.producers[q])
    ensures !s.producers[p].Claimed? ==> s.producers[p].buf == s.current
    ensures s.producers[p].slot < cfg.slots
    ensures s.producers[p].slot == s.producers[q].slot ==> p == q
  {
  }

  /** At most one producer rotates, and only when every slot of the old generation is counted and nobody owns one;
      as long as the old buffer is still queued, all its slots not yet taken are published with their lines. */
  lemma RotationIsExclusive(cfg: Config, s: State, p: nat)
    requires Inv(cfg, s) && p < |s.producers| && IsRotator(s.producers[p])
    ensures forall q :: 0 <= q < |s.producers| && IsRotator(s.producers[q]) ==> q == p
    ensures forall q :: 0 <= q < |s.producers| ==> !HasSlot(s.producers[q])
    ensures PhaseOf(s).Full? ==> s.writeIndex >= cfg.slots && forall i :: 0 <= i < cfg.slots ==> i in s.h.counted
    ensures PhaseOf(s).Full? && CurrentQueued(s.queue, s.current) ==>
      forall i: nat :: (if |s.queue| == 1 then Taken(cfg.slots, s.reader, s.readIndex) else 0) <= i < cfg.slots ==>
        s.bufs[s.current].flags[i] && s.bufs[s.current].items[i] == s.h.pend[|s.queue| - 1][i]
  {
    if PhaseOf(s).Full? {
      RotatorAlone(s.h.owner, s.h.unset, s.h.counted, s.producers);
      IndexSet(s.h.counted, |s.h.owner|);
      if CurrentQueued(s.queue, s.current) {
        PublishedTail(cfg, s);
      }
    }
  }

  /** Slots of the newest buffer that are neither unset nor taken hold their lines. */
  lemma PublishedTail(cfg: Config, s: State)
    requires Core(cfg, s) && CurrentQueued(s.queue, s.current)
    ensures var last := |s.queue| - 1;
      forall i: nat ::
        ((if last == 0 then Taken(cfg.slots, s.reader, s.readIndex) else 0) <= i < |s.h.pend[last]| &&
         i < cfg.slots && i !in s.h.unset) ==>
        s.bufs[s.current].flags[i] && s.bufs[s.current].items[i] == s.h.pend[last][i]
  {
    var last := |s.queue| - 1;
    var tk, cl := if last == 0 then Taken(cfg.slots, s.reader, s.readIndex) else 0,
                  if last == 0 then Clearing(s.reader, s.readIndex) else None;
    forall i: nat | tk <= i < |s.h.pend[last]| && i < cfg.slots && i !in s.h.unset
      ensures s.bufs[s.current].flags[i] && s.bufs[s.current].items[i] == s.h.pend[last][i]
    {
      var un := UnsetIn(s.queue[last], s.current, s.h.unset);
      assert BufferOk(cfg.clears, s.bufs[s.queue[last]], s.h.pend[last], tk, un, cl);
      assert SlotOk(cfg.clears, s.bufs[s.queue[last]], i, s.h.pend[last], tk, un, cl);
    }
  }

  // ---------------------------------------------------------------- progress

  /** The step a producer takes next inside `push`. */
  function ProducerStep(pc: Producer, p: nat): Step
    requires !pc.Idle?
  {
    match pc
    case Calling(_) => TakeTicket(p)
    case Spinning(_) => SpinExit(p)
    case Claimed(_, _) => LoadCurrent(p)
    case Holding(_, _, _) => Construct(p)
    case Constructed(_, _) => Publish(p)
    case Published(_, _) => Count(p)
    case Last(_) => ResetCount(p)
    case Rotating => PickBuffer(p)
    case Storing(_) => StoreCurrent(p)
    case Linking(_) => Link(p)
    case Reopening => Reopen(p)
  }

  /** No producer is ever stuck inside `push` (every buffer access is in bounds, the lock is free when it is
      wanted), except one that spins while the write index is too large. */
  lemma ProducerCanStep(cfg: Config, s: State, p: nat)
    requires Inv(cfg, s) && p < |s.producers| && !s.producers[p].Idle?
    ensures Enabled(cfg, s, ProducerStep(s.producers[p], p)) <==>
            !(s.producers[p].Spinning? && s.writeIndex >= cfg.slots)
  {
    hide Store, Reading, SpareClean;
    ProducerInBounds(cfg, s, p);
    hide Core;
  }

  lemma ProducerInBounds(cfg: Config, s: State, p: nat)
    requires Peers(cfg, s) && p < |s.producers|
    ensures (
      var pc := s.producers[p];
      && (pc.Holding? || pc.Constructed? ==> InBuffer(s, pc.buf, pc.slot))
      && (pc.Published? || pc.Last? ==> pc.buf < |s.bufs|)
      && (pc.Linking? ==> !s.locked))
  {
    hide RotatorUnique, Counts;
    var pc := s.producers[p];
    assert HasSlot(pc) ==> Holds(s.queue, s.h.pend, s.current, s.bufs, pc);
    CurrentThere(cfg, s);
    if pc.Linking? { LinkingUnlocked(cfg, s, p); }
  }

  lemma CurrentThere(cfg: Config, s: State)
    requires Peers(cfg, s)
    ensures s.current < |s.bufs|
  {
  }

  lemma LinkingUnlocked(cfg: Config, s: State, p: nat)
    requires Peers(cfg, s) && p < |s.producers| && s.producers[p].Linking?
    ensures !s.locked
  {
    hide Owners, Generation, Counts, Holdings, BufferShapes;
  }

  /** While the write index is too large, some producer that owns a slot or rotates can take its next step: nobody spins
      in a state in which all the others wait. */
  lemma SpinnersAreServed(cfg: Config, s: State)
    requires Inv(cfg, s) && s.writeIndex >= cfg.slots
    ensures exists p :: 0 <= p < |s.producers| && (HasSlot(s.producers[p]) || IsRotator(s.producers[p])) &&
              Enabled(cfg, s, ProducerStep(s.producers[p], p))
  {
    var p: nat;
    if s.h.rotator >= 0 {
      p := s.h.rotator;
    } else {
      assert PhaseOf(s) == Filling && |s.h.counted| < |s.h.owner|;
      if forall i :: 0 <= i < |s.h.owner| ==> i in s.h.counted { FullSet(s.h.counted, |s.h.owner|); }
      var i :| 0 <= i < |s.h.owner| && i !in s.h.counted;
      p := s.h.owner[i];
    }
    ProducerCanStep(cfg, s, p);
  }

  /** A set that holds every index below `n` has at least `n` elements. */
  lemma {:induction false} FullSet(s: set<nat>, n: nat)
    requires forall i :: 0 <= i < n ==> i in s
    ensures |s| >= n
  {
    if n > 0 { FullSet(s - {n - 1}, n - 1); }
  }

  // ---------------------------------------------------------------- draining

  /** The step the consumer takes next inside `pop`. */
  function ReaderStep(s: State): Step {
    match s.reader
    case Ready => if s.readBuffer.None? then FetchFront else CheckFlag
    case Seen => MoveItem
    case Moved => Advance
    case Retiring => Retire
    case Recycling(_) => Recycle
  }

  /** `pop` would return false: no buffer is queued, or the next slot's flag is not set. */
  predicate PopFails(s: State) {
    s.reader.Ready? &&
    match s.readBuffer
    case None => s.queue == []
    case Some(b) => !(InBuffer(s, b, s.readIndex) && s.bufs[b].flags[s.readIndex])
  }

  /** Decreases with every consumer step that does not end in a failed `pop`. */
  function Rank(s: State): int {
    6 * (|s.tickets| - |s.popped|) +
    match s.reader
    case Ready => if s.readBuffer.None? then 2 else 1
    case Seen => 0
    case Moved => 5
    case Retiring => 4
    case Recycling(_) => 3
  }

  /** Buffers in the queue, the ring and the consumer's hand. */
  function Stock(s: State): nat {
    |s.queue| + |s.ring| + if s.reader.Recycling? then 1 else 0
  }

  /** A producer step touches nothing of the consumer. */
  lemma ProducerFrame(cfg: Config, s: State, step: Step)
    requires Enabled(cfg, s, step) && !IsReaderStep(step)
    ensures Next(cfg, s, step).popped == s.popped && Next(cfg, s, step).reader == s.reader
  {
  }

  lemma ReaderEnabled(cfg: Config, s: State)
    requires Core(cfg, s) && !s.locked
    ensures Enabled(cfg, s, ReaderStep(s)) && IsReaderStep(ReaderStep(s))
  {
  }

  /** A consumer step touches nothing of the producers, and uses up rank unless `pop` fails. */
  lemma ReaderFrame(cfg: Config, s: State)
    requires Enabled(cfg, s, ReaderStep(s)) && !s.locked
    ensures var t := Next(cfg, s, ReaderStep(s));
      t.producers == s.producers && t.tickets == s.tickets && t.h.unset == s.h.unset && t.writeIndex == s.writeIndex &&
      !t.locked && (!cfg.clears ==> t.bufs == s.bufs) && (!PopFails(s) ==> Rank(t) < Rank(s)) &&
      (Stock(s) <= RING_SIZE ==> Stock(t) == Stock(s))
  {
  }

  /** The consumer can always take its next access unless the lock is taken; it belongs to a failing `pop` or uses up
      rank. */
  lemma ReaderProgress(cfg: Config, s: State)
    requires Core(cfg, s) && !s.locked
    ensures Enabled(cfg, s, ReaderStep(s)) && IsReaderStep(ReaderStep(s))
    ensures var t := Next(cfg, s, ReaderStep(s));
      Core(cfg, t) && PhaseOf(t) == PhaseOf(s) && (SpareClean(s) ==> SpareClean(t)) &&
      (!PopFails(s) ==> 0 <= |t.tickets| - |t.popped| && Rank(t) < Rank(s))
  {
    ReaderEnabled(cfg, s);
    ReaderFrame(cfg, s);
    CoreLengths(cfg, s);
    ReaderStepKeepsCore(cfg, s, ReaderStep(s));
    CoreLengths(cfg, Next(cfg, s, ReaderStep(s)));
  }

  predicate InFlight(reader: Reader) {
    reader.Moved? || reader.Retiring? || reader.Recycling?
  }

  /** Only moving the item hands over a line, and the call that did so ends in `Ready`. */
  lemma ReaderReceives(cfg: Config, s: State)
    requires Enabled(cfg, s, ReaderStep(s))
    ensures var t := Next(cfg, s, ReaderStep(s));
      if s.reader.Seen? then t.reader.Moved? && |t.popped| == |s.popped| + 1 && s.popped <= t.popped
      else
        t.popped == s.popped && (InFlight(t.reader) ==> InFlight(s.reader)) &&
        (InFlight(s.reader) ==> InFlight(t.reader) || t.reader.Ready?)
  {
  }

  /** Everything a caller needs to know about one access of a consumer that does not fail. */
  lemma ReaderAccess(cfg: Config, s: State)
    requires Inv(cfg, s) && !s.locked && !PopFails(s)
    ensures Enabled(cfg, s, ReaderStep(s))
    ensures var t := Next(cfg, s, ReaderStep(s));
      Inv(cfg, t) && !t.locked && t.producers == s.producers && t.tickets == s.tickets && 0 <= Rank(t) < Rank(s) &&
      if s.reader.Seen? then t.reader.Moved? && |t.popped| == |s.popped| + 1 && s.popped <= t.popped
      else
        t.popped == s.popped && (InFlight(t.reader) ==> InFlight(s.reader)) &&
        (InFlight(s.reader) ==> InFlight(t.reader) || t.reader.Ready?)
  {
    ReaderProgress(cfg, s);
    ReaderFrame(cfg, s);
    ReaderReceives(cfg, s);
    CoreLengths(cfg, Next(cfg, s, ReaderStep(s)));
  }

  lemma CoreLengths(cfg: Config, s: State)
    requires Core(cfg, s)
    ensures |s.popped| <= |s.tickets|
  {
    if s.queue != [] { assert s.tickets == s.h.base + (s.h.pend[0] + Concat(s.h.pend[1..])); }
  }

  /** If no claimed slot is unset, a failing `pop` means that every line has been received. */
  lemma FailedPopIsEmpty(cfg: Config, s: State)
    requires Core(cfg, s) && PopFails(s) && s.h.unset == {} && !s.locked
    ensures s.popped == s.tickets && |s.queue| <= 1
    ensures PhaseOf(s).Choosing? ==> s.queue == []
  {
    if s.queue != [] {
      var b, front := s.bufs[s.queue[0]], s.h.pend[0];
      assert BufferOk(cfg.clears, b, front, s.readIndex, {}, None);
      assert SlotOk(cfg.clears, b, s.readIndex, front, s.readIndex, {}, None);
      assert s.readIndex == |front|;
      assert |s.queue| == 1 && s.h.pend == [front];
      assert Concat(s.h.pend) == front + Concat(s.h.pend[1..]) == front;
      assert front[..s.readIndex] == front;
    }
  }

  lemma RunCons(cfg: Config, s: State, step: Step, rest: seq<Step>)
    requires Enabled(cfg, s, step) && IsRun(cfg, Next(cfg, s, step), rest)
    ensures IsRun(cfg, s, [step] + rest)
    ensures Exec(cfg, s, [step] + rest) == Exec(cfg, Next(cfg, s, step), rest)
  {
    assert ([step] + rest)[1..] == rest;
  }

  lemma {:induction false} RunAppend(cfg: Config, s: State, a: seq<Step>, b: seq<Step>)
    requires IsRun(cfg, s, a) && IsRun(cfg, Exec(cfg, s, a), b)
    ensures IsRun(cfg, s, a + b) && Exec(cfg, s, a + b) == Exec(cfg, Exec(cfg, s, a), b)
    decreases |a|
  {
    hide Enabled, Next;
    if a == [] {
      assert a + b == b;
    } else {
      RunAppend(cfg, Next(cfg, s, a[0]), a[1..], b);
      assert a + b == [a[0]] + (a[1..] + b);
      RunCons(cfg, s, a[0], a[1..] + b);
    }
  }

  lemma RunThree(cfg: Config, s: State, a: Step, s1: State, b: Step, s2: State, c: Step, t: State)
    requires Enabled(cfg, s, a) && s1 == Next(cfg, s, a) && Enabled(cfg, s1, b) && s2 == Next(cfg, s1, b)
    requires Enabled(cfg, s2, c) && t == Next(cfg, s2, c)
    ensures IsRun(cfg, s, [a, b, c]) && Exec(cfg, s, [a, b, c]) == t
  {
    RunCons(cfg, s2, c, []);
    RunCons(cfg, s1, b, [c]);
    assert [b] + [c] == [b, c];
    RunCons(cfg, s, a, [b, c]);
    assert [a] + [b, c] == [a, b, c];
  }

  /** The consumer alone reaches a failing `pop`. */
  lemma {:induction false} DrainRun(cfg: Config, s: State) returns (steps: seq<Step>, t: State)
    requires Core(cfg, s) && !s.locked
    ensures IsRun(cfg, s, steps) && Exec(cfg, s, steps) == t && forall step :: step in steps ==> IsReaderStep(step)
    ensures Core(cfg, t) && PopFails(t) && PhaseOf(t) == PhaseOf(s) && t.producers == s.producers
    ensures t.tickets == s.tickets && t.h.unset == s.h.unset && !t.locked && (!cfg.clears ==> t.bufs == s.bufs)
    ensures t.writeIndex == s.writeIndex && (Stock(s) <= RING_SIZE ==> Stock(t) == Stock(s))
    decreases Rank(s)
  {
    CoreLengths(cfg, s);
    if PopFails(s) {
      steps, t := [], s;
    } else {
      ReaderProgress(cfg, s);
      ReaderFrame(cfg, s);
      CoreLengths(cfg, Next(cfg, s, ReaderStep(s)));
      var rest;
      rest, t := DrainRun(cfg, Next(cfg, s, ReaderStep(s)));
      steps := [ReaderStep(s)] + rest;
      RunCons(cfg, s, ReaderStep(s), rest);
    }
  }
}

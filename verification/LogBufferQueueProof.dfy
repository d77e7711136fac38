/** Every step of the line queue keeps the invariant. */
module LogBufferQueueProof {
  import opened Util
  import opened LogBufferQueue
  import opened LogBufferQueueInvariant

  lemma InitInv(cfg: Config, threads: nat)
    requires cfg.slots > 0
    ensures Inv(cfg, Init(cfg, threads))
  {
    var s := Init(cfg, threads);
    assert PhaseOf(s) == Filling;
    InitPeers(cfg, threads);
    InitStore(cfg, threads);
    hide Peers, Store;
  }

  lemma InitPeers(cfg: Config, threads: nat)
    requires cfg.slots > 0
    ensures Peers(cfg, Init(cfg, threads))
  {
  }

  lemma InitStore(cfg: Config, threads: nat)
    requires cfg.slots > 0
    ensures Store(cfg, Init(cfg, threads))
  {
  }

  // ---------------------------------------------------------------- small facts

  lemma {:induction false} ConcatExtend(pend: seq<seq<Line>>, line: Line)
    requires pend != []
    ensures Concat(ExtendLast(pend, line)) == Concat(pend) + [line]
  {
    var e := ExtendLast(pend, line);
    if |pend| == 1 {
      assert e[1..] == [] && pend[1..] == [];
    } else {
      ConcatExtend(pend[1..], line);
      assert e[0] == pend[0];
      assert e[1..] == ExtendLast(pend[1..], line);
    }
  }

  lemma ConcatOpen(pend: seq<seq<Line>>)
    ensures Concat(pend + [[]]) == Concat(pend)
  {
    ConcatSnoc(pend, []);
  }

  /** A set of indices below `n` has at most `n` elements, and all of them if it has `n`. */
  lemma {:induction false} IndexSet(s: set<nat>, n: nat)
    requires forall i :: i in s ==> i < n
    ensures |s| <= n
    ensures |s| == n ==> forall i :: 0 <= i < n ==> i in s
    decreases n
  {
    if n == 0 {
      assert s == {};
    } else {
      var r := s - {n - 1};
      IndexSet(r, n - 1);
      assert if n - 1 in s then s == r + {n - 1} else s == r;
    }
  }

  /** While a producer is rotating, every slot of the old generation is counted and nobody owns one. */
  lemma RotatorAlone(owner: seq<nat>, unset: set<nat>, counted: set<nat>, producers: seq<Producer>)
    requires Owners(owner, unset, counted, producers) && |counted| == |owner|
    ensures forall p :: 0 <= p < |producers| ==> !HasSlot(producers[p])
    ensures unset == {}
  {
    IndexSet(counted, |owner|);
  }

  // ---------------------------------------------------------------- slots

  /** The owner of the next slot claims it. */
  lemma ClaimSlots(clears: bool, bufs: seq<LogBuffer>, queue: seq<nat>, pend: seq<seq<Line>>, current: nat,
                   unset: set<nat>, taken: nat, clearing: Option<nat>, line: Line)
    requires Slots(clears, bufs, queue, pend, current, unset, taken, clearing)
    requires CurrentQueued(queue, current) && taken <= |Front(pend)|
    requires forall j, k :: 0 <= j < k < |queue| ==> queue[j] != queue[k]
    ensures Slots(clears, bufs, queue, ExtendLast(pend, line), current, unset + {|pend[|queue| - 1]|}, taken, clearing)
  {
    var pend' := ExtendLast(pend, line);
    var unset' := unset + {|pend[|queue| - 1]|};
    forall k | 0 <= k < |queue|
      ensures BufferOk(clears, bufs[queue[k]], pend'[k], if k == 0 then taken else 0,
                       UnsetIn(queue[k], current, unset'),
                       if k == 0 then clearing else None)
    {
      var b, tk, cl := bufs[queue[k]], if k == 0 then taken else 0, if k == 0 then clearing else None;
      forall i: nat | i < |b.flags| && i < |b.items|
        ensures SlotOk(clears, b, i, pend'[k], tk, UnsetIn(queue[k], current, unset'), cl)
      {
        assert SlotOk(clears, b, i, pend[k], tk, UnsetIn(queue[k], current, unset), cl);
      }
    }
  }

  /** The owner of an unset slot writes its item, or stores its flag once the item is there. */
  lemma WriteSlots(clears: bool, bufs: seq<LogBuffer>, queue: seq<nat>, pend: seq<seq<Line>>, current: nat,
                   unset: set<nat>, taken: nat, clearing: Option<nat>, b: LogBuffer, slot: nat)
    requires Slots(clears, bufs, queue, pend, current, unset, taken, clearing)
    requires CurrentQueued(queue, current) && slot in unset && slot < |pend[|queue| - 1]|
    requires forall j, k :: 0 <= j < k < |queue| ==> queue[j] != queue[k]
    requires |b.flags| == |bufs[current].flags| && |b.items| == |bufs[current].items|
    requires slot < |b.flags| && slot < |b.items|
    requires forall i :: 0 <= i < |b.flags| && i != slot ==> b.flags[i] == bufs[current].flags[i]
    requires forall i :: 0 <= i < |b.items| && i != slot ==> b.items[i] == bufs[current].items[i]
    requires b.flags[slot] ==> b.items[slot] == pend[|queue| - 1][slot]
    ensures Slots(clears, bufs[current := b], queue, pend, current, if b.flags[slot] then unset - {slot} else unset,
                  taken, clearing)
  {
    var unset' := if b.flags[slot] then unset - {slot} else unset;
    var bufs' := bufs[current := b];
    forall k | 0 <= k < |queue|
      ensures BufferOk(clears, bufs'[queue[k]], pend[k], if k == 0 then taken else 0,
                       UnsetIn(queue[k], current, unset'),
                       if k == 0 then clearing else None)
    {
      var c, tk, cl := bufs[queue[k]], if k == 0 then taken else 0, if k == 0 then clearing else None;
      forall i: nat | i < |c.flags| && i < |c.items|
        ensures SlotOk(clears, bufs'[queue[k]], i, pend[k], tk, UnsetIn(queue[k], current, unset'), cl)
      {
        assert SlotOk(clears, c, i, pend[k], tk, UnsetIn(queue[k], current, unset), cl);
      }
    }
  }

  /** Changing a buffer's count leaves every slot as it is. */
  lemma CountSlots(clears: bool, bufs: seq<LogBuffer>, queue: seq<nat>, pend: seq<seq<Line>>, current: nat,
                   unset: set<nat>, taken: nat, clearing: Option<nat>, ring: seq<nat>, hand: Option<nat>, c: nat)
    requires Slots(clears, bufs, queue, pend, current, unset, taken, clearing) && current < |bufs|
    requires RetiredFlags(clears, bufs, ring, hand)
    ensures Slots(clears, bufs[current := bufs[current].(count := c)], queue, pend, current, unset, taken, clearing)
    ensures RetiredFlags(clears, bufs[current := bufs[current].(count := c)], ring, hand)
  {
    var bufs' := bufs[current := bufs[current].(count := c)];
    forall k | 0 <= k < |queue|
      ensures BufferOk(clears, bufs'[queue[k]], pend[k], if k == 0 then taken else 0, UnsetIn(queue[k], current, unset),
                       if k == 0 then clearing else None)
    {
      var b, tk, cl := bufs[queue[k]], if k == 0 then taken else 0, if k == 0 then clearing else None;
      forall i: nat | i < |b.flags| && i < |b.items|
        ensures SlotOk(clears, bufs'[queue[k]], i, pend[k], tk, UnsetIn(queue[k], current, unset), cl)
      {
        assert SlotOk(clears, b, i, pend[k], tk, UnsetIn(queue[k], current, unset), cl);
      }
    }
  }

  /** The consumer takes the next slot of the front buffer. */
  lemma TakeSlots(clears: bool, bufs: seq<LogBuffer>, queue: seq<nat>, pend: seq<seq<Line>>, current: nat,
                  unset: set<nat>, r: nat)
    requires Slots(clears, bufs, queue, pend, current, unset, r, None)
    requires queue != [] && r < |Front(pend)| && r < |bufs[queue[0]].flags| && r < |bufs[queue[0]].items|
    requires bufs[queue[0]].flags[r]
    ensures Slots(clears, bufs, queue, pend, current, unset, r + 1, Some(r))
    ensures bufs[queue[0]].items[r] == pend[0][r]
  {
    var b, u := bufs[queue[0]], UnsetIn(queue[0], current, unset);
    assert BufferOk(clears, b, pend[0], r, u, None);
    assert SlotOk(clears, b, r, pend[0], r, u, None);
    var r' := r + 1;
    forall i: nat | i < |b.flags| && i < |b.items| ensures SlotOk(clears, b, i, pend[0], r', u, Some(r)) {
      assert SlotOk(clears, b, i, pend[0], r, u, None);
    }
    assert BufferOk(clears, b, pend[0], r + 1, u, Some(r));
  }

  /** The repaired consumer clears the slot it has taken; the written one leaves it. */
  lemma ClearSlots(clears: bool, bufs: seq<LogBuffer>, queue: seq<nat>, pend: seq<seq<Line>>, current: nat,
                   unset: set<nat>, r: nat, b': LogBuffer)
    requires Slots(clears, bufs, queue, pend, current, unset, r + 1, Some(r))
    requires queue != [] && r < |Front(pend)| && r < |bufs[queue[0]].flags| && r < |bufs[queue[0]].items|
    requires forall j, k :: 0 <= j < k < |queue| ==> queue[j] != queue[k]
    requires var b := bufs[queue[0]]; b' == if clears then b.(flags := b.flags[r := false]) else b
    ensures Slots(clears, bufs[queue[0] := b'], queue, pend, current, unset, r + 1, None)
  {
    var b, u := bufs[queue[0]], UnsetIn(queue[0], current, unset);
    assert BufferOk(clears, b, pend[0], r + 1, u, Some(r));
    var r' := r + 1;
    forall i: nat | i < |b.flags| && i < |b.items| ensures SlotOk(clears, b', i, pend[0], r', u, None) {
      assert SlotOk(clears, b, i, pend[0], r + 1, u, Some(r));
    }
    assert BufferOk(clears, b', pend[0], r + 1, u, None);
  }

  /** A completely taken buffer leaves the queue: no slot is unset in it, and its flags are known. */
  lemma RetireSlots(clears: bool, bufs: seq<LogBuffer>, queue: seq<nat>, pend: seq<seq<Line>>, current: nat,
                    unset: set<nat>, slots: nat)
    requires Slots(clears, bufs, queue, pend, current, unset, slots, None)
    requires queue != [] && |bufs[queue[0]].flags| == |bufs[queue[0]].items| == |pend[0]| == slots
    ensures Slots(clears, bufs, queue[1..], pend[1..], current, unset, 0, None)
    ensures AllFlags(bufs[queue[0]], !clears)
    ensures queue[0] == current ==> forall i :: 0 <= i < slots ==> i !in unset
  {
    var b, u := bufs[queue[0]], UnsetIn(queue[0], current, unset);
    assert BufferOk(clears, b, pend[0], slots, u, None);
    forall i: nat | i < slots ensures i !in u && b.flags[i] == !clears {
      assert SlotOk(clears, b, i, pend[0], slots, u, None);
    }
    forall k | 0 <= k < |queue[1..]|
      ensures BufferOk(clears, bufs[queue[1..][k]], pend[1..][k], 0, UnsetIn(queue[1..][k], current, unset), None)
    {
      assert BufferOk(clears, bufs[queue[k + 1]], pend[k + 1], 0, UnsetIn(queue[k + 1], current, unset), None);
    }
  }

  /** Slots of an empty new generation, when no slot of the old one is unset. */
  lemma SwitchSlots(clears: bool, bufs: seq<LogBuffer>, queue: seq<nat>, pend: seq<seq<Line>>, current: nat,
                    next: nat, taken: nat, clearing: Option<nat>)
    requires Slots(clears, bufs, queue, pend, current, {}, taken, clearing)
    ensures Slots(clears, bufs, queue, pend, next, {}, taken, clearing)
  {
    assert forall b :: UnsetIn(b, next, {}) == UnsetIn(b, current, {}) == {};
  }

  // ---------------------------------------------------------------- LogBufferQueue::push

  /** A step that only moves one producer between two points at which it owns no slot. */
  lemma PreserveMove(cfg: Config, s: State, p: nat, pc: Producer)
    requires Peers(cfg, s) && p < |s.producers|
    requires s.producers[p].Idle? || s.producers[p].Calling? || s.producers[p].Spinning?
    requires pc.Idle? || pc.Calling? || pc.Spinning?
    ensures Peers(cfg, At(s, p, pc)) && PhaseOf(At(s, p, pc)) == PhaseOf(s)
  {
    hide Generation, Counts, BufferShapes;
  }

  lemma PreserveMiss(cfg: Config, s: State, p: nat)
    requires Peers(cfg, s) && p < |s.producers| && s.producers[p].Calling? && s.writeIndex >= cfg.slots
    ensures Peers(cfg, DoMiss(s, p)) && PhaseOf(DoMiss(s, p)) == PhaseOf(s)
  {
    hide Counts, BufferShapes, Holds;
  }

  lemma ClaimPeers(cfg: Config, s: State, p: nat)
    requires Peers(cfg, s) && p < |s.producers| && s.producers[p].Calling? && s.writeIndex < cfg.slots
    ensures Peers(cfg, DoClaim(s, p)) && PhaseOf(DoClaim(s, p)) == PhaseOf(s) == Filling
    ensures CurrentQueued(s.queue, s.current) && |s.h.pend[|s.queue| - 1]| == s.writeIndex
  {
  }

  lemma ClaimStore(cfg: Config, s: State, p: nat)
    requires Store(cfg, s) && Reading(cfg, s) && p < |s.producers| && s.producers[p].Calling?
    requires PhaseOf(DoClaim(s, p)) == PhaseOf(s) && CurrentQueued(s.queue, s.current)
    requires |s.h.pend| == |s.queue| && |s.h.pend[|s.queue| - 1]| == s.writeIndex < cfg.slots
    ensures Store(cfg, DoClaim(s, p))
  {
    ClaimSlots(cfg.clears, s.bufs, s.queue, s.h.pend, s.current, s.h.unset, Taken(cfg.slots, s.reader, s.readIndex),
               Clearing(s.reader, s.readIndex), s.producers[p].line);
  }

  lemma ClaimReading(cfg: Config, s: State, p: nat)
    requires Reading(cfg, s) && p < |s.producers| && s.producers[p].Calling? && CurrentQueued(s.queue, s.current)
    requires |s.h.pend| == |s.queue| && |s.h.pend[|s.queue| - 1]| == s.writeIndex < cfg.slots
    ensures Reading(cfg, DoClaim(s, p))
  {
    ConcatExtend(s.h.pend, s.producers[p].line);
    assert Front(s.h.pend) <= Front(DoClaim(s, p).h.pend);
  }

  lemma PreserveClaim(cfg: Config, s: State, p: nat)
    requires Core(cfg, s) && p < |s.producers| && s.producers[p].Calling? && s.writeIndex < cfg.slots
    ensures Core(cfg, DoClaim(s, p)) && PhaseOf(DoClaim(s, p)) == Filling
  {
    ClaimPeers(cfg, s, p);
    ClaimStore(cfg, s, p);
    ClaimReading(cfg, s, p);
  }

  lemma PreserveLoad(cfg: Config, s: State, p: nat)
    requires Peers(cfg, s) && p < |s.producers| && s.producers[p].Claimed?
    ensures Peers(cfg, DoLoadCurrent(s, p)) && PhaseOf(DoLoadCurrent(s, p)) == PhaseOf(s)
  {
  }

  lemma ConstructPeers(cfg: Config, s: State, p: nat)
    requires Peers(cfg, s) && p < |s.producers| && s.producers[p].Holding?
    requires InBuffer(s, s.producers[p].buf, s.producers[p].slot)
    ensures Peers(cfg, DoConstruct(s, p)) && PhaseOf(DoConstruct(s, p)) == PhaseOf(s)
  {
  }

  lemma PublishPeers(cfg: Config, s: State, p: nat)
    requires Peers(cfg, s) && p < |s.producers| && s.producers[p].Constructed?
    requires InBuffer(s, s.producers[p].buf, s.producers[p].slot)
    ensures Peers(cfg, DoPublish(s, p)) && PhaseOf(DoPublish(s, p)) == PhaseOf(s)
  {
  }

  /** The slot's owner writes into the current buffer only. */
  lemma WriteStore(cfg: Config, s: State, t: State, slot: nat)
    requires Peers(cfg, s) && Store(cfg, s) && Reading(cfg, s) && CurrentQueued(s.queue, s.current)
    requires slot in s.h.unset && |s.h.pend| == |s.queue| && slot < |s.h.pend[|s.queue| - 1]|
    requires s.current < |s.bufs| && |t.bufs| == |s.bufs|
    requires var b, c := s.bufs[s.current], t.bufs[s.current];
      t.bufs == s.bufs[s.current := c] && slot < |b.flags| && slot < |b.items| &&
      |b.flags| == |c.flags| && |b.items| == |c.items| &&
      (forall i :: 0 <= i < |b.flags| && i != slot ==> b.flags[i] == c.flags[i]) &&
      (forall i :: 0 <= i < |b.items| && i != slot ==> b.items[i] == c.items[i]) &&
      (c.flags[slot] ==> c.items[slot] == s.h.pend[|s.queue| - 1][slot])
    requires t == s.(bufs := t.bufs, producers := t.producers,
                     h := s.h.(unset := if t.bufs[s.current].flags[slot] then s.h.unset - {slot} else s.h.unset))
    requires PhaseOf(t) == PhaseOf(s)
    ensures Store(cfg, t) && Reading(cfg, t)
  {
    WriteSlots(cfg.clears, s.bufs, s.queue, s.h.pend, s.current, s.h.unset, Taken(cfg.slots, s.reader, s.readIndex),
               Clearing(s.reader, s.readIndex), t.bufs[s.current], slot);
    assert s.queue[|s.queue| - 1] == s.current;
    assert s.reader.Moved? || s.reader.Seen? ==> s.queue[0] == s.current ==> s.readIndex != slot by {
      assert BufferOk(cfg.clears, s.bufs[s.queue[0]], s.h.pend[0], Taken(cfg.slots, s.reader, s.readIndex),
         UnsetIn(s.queue[0], s.current, s.h.unset), Clearing(s.reader, s.readIndex));
      assert s.queue[0] == s.current ==>
        SlotOk(cfg.clears, s.bufs[s.queue[0]], slot, s.h.pend[0], Taken(cfg.slots, s.reader, s.readIndex),
         UnsetIn(s.queue[0], s.current, s.h.unset), Clearing(s.reader, s.readIndex));
    }
  }

  lemma PreserveConstruct(cfg: Config, s: State, p: nat)
    requires Core(cfg, s) && p < |s.producers| && s.producers[p].Holding?
    requires InBuffer(s, s.producers[p].buf, s.producers[p].slot)
    ensures Core(cfg, DoConstruct(s, p)) && PhaseOf(DoConstruct(s, p)) == PhaseOf(s)
  {
    ConstructPeers(cfg, s, p);
    var slot := s.producers[p].slot;
    assert Holds(s.queue, s.h.pend, s.current, s.bufs, s.producers[p]);
    var last := |s.queue| - 1;
    assert SlotOk(cfg.clears, s.bufs[s.queue[last]], slot, s.h.pend[last],
                  if last == 0 then Taken(cfg.slots, s.reader, s.readIndex) else 0,
         UnsetIn(s.queue[last], s.current, s.h.unset), if last == 0 then Clearing(s.reader, s.readIndex) else None);
    WriteStore(cfg, s, DoConstruct(s, p), slot);
  }

  lemma PreservePublish(cfg: Config, s: State, p: nat)
    requires Core(cfg, s) && p < |s.producers| && s.producers[p].Constructed?
    requires InBuffer(s, s.producers[p].buf, s.producers[p].slot)
    ensures Core(cfg, DoPublish(s, p)) && PhaseOf(DoPublish(s, p)) == PhaseOf(s)
  {
    PublishPeers(cfg, s, p);
    assert Holds(s.queue, s.h.pend, s.current, s.bufs, s.producers[p]);
    WriteStore(cfg, s, DoPublish(s, p), s.producers[p].slot);
  }

  lemma CountPeers(cfg: Config, s: State, p: nat)
    requires Peers(cfg, s) && p < |s.producers| && s.producers[p].Published?
    requires s.producers[p].buf < |s.bufs|
    ensures Peers(cfg, DoCount(cfg, s, p)) && PhaseOf(s) == Filling && !PhaseOf(DoCount(cfg, s, p)).Choosing?
    ensures s.producers[p].buf == s.current
  {
    CountPhase(cfg, s, p);
    var t := DoCount(cfg, s, p);
    var pc, slot := t.producers[p], s.producers[p].slot;
    assert |t.h.counted| == |s.h.counted| + 1;
    CountOwners(s.h.owner, s.h.unset, s.h.counted, s.producers, s.h.rotator, p, pc);
    hide Owners, RotatorUnique;
    CountHoldings(s.queue, s.h.pend, s.current, s.bufs, s.producers, p, pc);
    hide Holdings;
    CountedAll(cfg, s, t, p);
  }

  lemma CountPhase(cfg: Config, s: State, p: nat)
    requires Peers(cfg, s) && p < |s.producers| && s.producers[p].Published?
    ensures PhaseOf(s) == Filling && s.h.rotator == -1 && s.producers[p].slot !in s.h.counted
    ensures s.producers[p].buf == s.current && s.producers[p].slot < |s.h.owner|
  {
    hide BufferShapes;
    if PhaseOf(s).Full? { RotatorAlone(s.h.owner, s.h.unset, s.h.counted, s.producers); }
  }

  /** Counting a published slot. */
  lemma CountOwners(owner: seq<nat>, unset: set<nat>, counted: set<nat>, producers: seq<Producer>, rotator: int, p: nat,
                    pc: Producer)
    requires Owners(owner, unset, counted, producers) && RotatorUnique(producers, rotator) && rotator == -1
    requires p < |producers| && producers[p].Published? && (pc.Idle? || pc.Last?)
    ensures Owners(owner, unset, counted + {producers[p].slot}, producers[p := pc])
    ensures RotatorUnique(producers[p := pc], if pc.Last? then p else -1)
    ensures forall i :: i in counted + {producers[p].slot} ==> i < |owner|
  {
  }

  lemma CountHoldings(queue: seq<nat>, pend: seq<seq<Line>>, current: nat, bufs: seq<LogBuffer>,
                      producers: seq<Producer>, p: nat, pc: Producer)
    requires Holdings(queue, pend, current, bufs, producers) && p < |producers| && current < |bufs|
    requires pc.Idle? || pc == Last(current)
    ensures Holdings(queue, pend, current, bufs[current := bufs[current].(count := bufs[current].count + 1)],
                     producers[p := pc])
  {
  }

  lemma CountedAll(cfg: Config, s: State, t: State, p: nat)
    requires Peers(cfg, s) && PhaseOf(s) == Filling && s.h.rotator == -1 && p < |s.producers| && s.current < |s.bufs|
    requires s.producers[p].Published? && s.producers[p].buf == s.current && t == DoCount(cfg, s, p)
    requires |t.h.counted| == |s.h.counted| + 1 && forall i :: i in t.h.counted ==> i < |t.h.owner|
    requires Owners(t.h.owner, t.h.unset, t.h.counted, t.producers) && RotatorUnique(t.producers, t.h.rotator)
    requires Holdings(t.queue, t.h.pend, t.current, t.bufs, t.producers)
    ensures Peers(cfg, t) && !PhaseOf(t).Choosing?
  {
    hide Owners, RotatorUnique, Holdings;
    IndexSet(t.h.counted, |t.h.owner|);
  }

  lemma CountStore(cfg: Config, s: State, t: State, c: nat)
    requires Store(cfg, s) && Reading(cfg, s) && s.current < |s.bufs|
    requires t == s.(bufs := s.bufs[s.current := s.bufs[s.current].(count := c)], producers := t.producers,
                     h := s.h.(counted := t.h.counted, rotator := t.h.rotator))
    requires Spare(PhaseOf(t)) == Spare(PhaseOf(s))
    ensures Store(cfg, t) && Reading(cfg, t)
  {
    CountSlots(cfg.clears, s.bufs, s.queue, s.h.pend, s.current, s.h.unset, Taken(cfg.slots, s.reader, s.readIndex),
               Clearing(s.reader, s.readIndex), s.ring, Hand(s.reader), c);
  }

  lemma PreserveCount(cfg: Config, s: State, p: nat)
    requires Core(cfg, s) && p < |s.producers| && s.producers[p].Published? && s.producers[p].buf < |s.bufs|
    ensures Core(cfg, DoCount(cfg, s, p)) && !PhaseOf(DoCount(cfg, s, p)).Choosing?
  {
    CountPeers(cfg, s, p);
    CountStore(cfg, s, DoCount(cfg, s, p), s.bufs[s.current].count + 1);
  }

  lemma ResetPeers(cfg: Config, s: State, p: nat)
    requires Peers(cfg, s) && p < |s.producers| && s.producers[p].Last? && s.producers[p].buf < |s.bufs|
    ensures Peers(cfg, DoResetCount(s, p)) && PhaseOf(s).Full? && PhaseOf(DoResetCount(s, p)).Full?
    ensures s.producers[p].buf == s.current
  {
  }

  lemma PreserveReset(cfg: Config, s: State, p: nat)
    requires Core(cfg, s) && p < |s.producers| && s.producers[p].Last? && s.producers[p].buf < |s.bufs|
    ensures Core(cfg, DoResetCount(s, p)) && !PhaseOf(DoResetCount(s, p)).Choosing?
  {
    ResetPeers(cfg, s, p);
    CountStore(cfg, s, DoResetCount(s, p), 0);
  }

  // ---------------------------------------------------------------- setupNextWriteLogBuffer

  lemma ReusePeers(cfg: Config, s: State, p: nat)
    requires Peers(cfg, s) && p < |s.producers| && s.producers[p].Rotating? && s.ring != []
    ensures Peers(cfg, DoReuse(s, p)) && PhaseOf(s).Full? && PhaseOf(DoReuse(s, p)) == Choosing(s.ring[0], false)
    ensures s.h.unset == {}
  {
    RotatorAlone(s.h.owner, s.h.unset, s.h.counted, s.producers);
  }

  lemma PreserveReuse(cfg: Config, s: State, p: nat)
    requires Core(cfg, s) && p < |s.producers| && s.producers[p].Rotating? && s.ring != []
    ensures Core(cfg, DoReuse(s, p))
    ensures PhaseOf(DoReuse(s, p)) == Choosing(s.ring[0], false) && s.ring[0] < |s.bufs|
    ensures AllFlags(s.bufs[s.ring[0]], !cfg.clears)
  {
    ReusePeers(cfg, s, p);
  }

  lemma AllocatePeers(cfg: Config, s: State, p: nat)
    requires Peers(cfg, s) && p < |s.producers| && s.producers[p].Rotating?
    ensures Peers(cfg, DoAllocate(cfg, s, p)) && PhaseOf(s).Full?
    ensures PhaseOf(DoAllocate(cfg, s, p)) == Choosing(|s.bufs|, false)
    ensures s.h.unset == {}
  {
    RotatorAlone(s.h.owner, s.h.unset, s.h.counted, s.producers);
  }

  lemma PreserveAllocate(cfg: Config, s: State, p: nat)
    requires Core(cfg, s) && p < |s.producers| && s.producers[p].Rotating?
    ensures Inv(cfg, DoAllocate(cfg, s, p))
  {
    AllocatePeers(cfg, s, p);
  }

  lemma PreserveStore(cfg: Config, s: State, p: nat)
    requires Core(cfg, s) && p < |s.producers| && s.producers[p].Storing?
    ensures Core(cfg, DoStoreCurrent(s, p))
    ensures SpareClean(s) ==> SpareClean(DoStoreCurrent(s, p))
  {
    StorePeers(cfg, s, p);
    SwitchSlots(cfg.clears, s.bufs, s.queue, s.h.pend, s.current, s.producers[p].next,
                Taken(cfg.slots, s.reader, s.readIndex), Clearing(s.reader, s.readIndex));
    hide Peers, Slots, Places, RetiredFlags, Order;
  }

  lemma StorePeers(cfg: Config, s: State, p: nat)
    requires Peers(cfg, s) && Store(cfg, s) && p < |s.producers| && s.producers[p].Storing?
    ensures Peers(cfg, DoStoreCurrent(s, p)) && s.h.unset == {}
    ensures PhaseOf(s) == Choosing(s.producers[p].next, false)
    ensures PhaseOf(DoStoreCurrent(s, p)) == Choosing(s.producers[p].next, true)
  {
    hide Slots, RetiredFlags;
  }

  lemma LinkPeers(cfg: Config, s: State, p: nat)
    requires Peers(cfg, s) && p < |s.producers| && s.producers[p].Linking?
    ensures Peers(cfg, DoLink(s, p)) && PhaseOf(s) == Choosing(s.producers[p].next, true)
    ensures PhaseOf(DoLink(s, p)) == Opening && s.h.unset == {}
  {
  }

  lemma LinkStore(cfg: Config, s: State, p: nat)
    requires Peers(cfg, s) && Store(cfg, s) && Reading(cfg, s) && SpareClean(s)
    requires p < |s.producers| && s.producers[p].Linking? && s.h.unset == {}
    requires PhaseOf(s) == Choosing(s.producers[p].next, true) && PhaseOf(DoLink(s, p)) == Opening
    ensures Store(cfg, DoLink(s, p))
  {
    LinkSlots(cfg.clears, s.bufs, s.queue, s.h.pend, s.current, Taken(cfg.slots, s.reader, s.readIndex),
              Clearing(s.reader, s.readIndex), s.producers[p].next);
    hide Slots, RetiredFlags, Peers, Order;
  }

  /** A clean buffer is linked. */
  lemma LinkSlots(clears: bool, bufs: seq<LogBuffer>, queue: seq<nat>, pend: seq<seq<Line>>, current: nat, taken: nat,
                  clearing: Option<nat>, next: nat)
    requires Slots(clears, bufs, queue, pend, current, {}, taken, clearing)
    requires next < |bufs| && AllFlags(bufs[next], false) && (queue == [] ==> taken == 0 && clearing.None?)
    ensures Slots(clears, bufs, queue + [next], pend + [[]], current, {}, taken, clearing)
  {
  }

  lemma LinkReading(cfg: Config, s: State, p: nat)
    requires Reading(cfg, s) && p < |s.producers| && s.producers[p].Linking?
    ensures Reading(cfg, DoLink(s, p))
  {
    ConcatOpen(s.h.pend);
  }

  lemma PreserveLink(cfg: Config, s: State, p: nat)
    requires Inv(cfg, s) && p < |s.producers| && s.producers[p].Linking?
    ensures Inv(cfg, DoLink(s, p))
  {
    LinkPeers(cfg, s, p);
    LinkStore(cfg, s, p);
    LinkReading(cfg, s, p);
  }

  lemma PreserveReopen(cfg: Config, s: State, p: nat)
    requires Core(cfg, s) && p < |s.producers| && s.producers[p].Reopening?
    ensures Inv(cfg, DoReopen(s, p))
  {
  }

  // ---------------------------------------------------------------- LogBufferQueue::pop

  lemma PreserveFetch(cfg: Config, s: State)
    requires Core(cfg, s) && Enabled(cfg, s, FetchFront)
    ensures Core(cfg, DoFetchFront(s)) && PhaseOf(DoFetchFront(s)) == PhaseOf(s)
  {
  }

  lemma PreserveCheck(cfg: Config, s: State)
    requires Core(cfg, s) && Enabled(cfg, s, CheckFlag)
    ensures Core(cfg, DoCheckFlag(s)) && PhaseOf(DoCheckFlag(s)) == PhaseOf(s)
  {
    FlagIsClaimed(cfg, s);
    hide Slots, Places, RetiredFlags, Order, Owners, Generation, Counts, Holdings, RotatorUnique, BufferShapes;
  }

  /** A slot whose flag is set has been claimed. */
  lemma FlagIsClaimed(cfg: Config, s: State)
    requires Store(cfg, s) && Reading(cfg, s) && Enabled(cfg, s, CheckFlag)
    ensures s.queue != [] && s.queue[0] == s.readBuffer.value && |s.h.pend| == |s.queue|
    ensures s.bufs[s.queue[0]].flags[s.readIndex] ==> s.readIndex < |s.h.pend[0]|
  {
    hide Places, RetiredFlags, Order, PhaseOf;
    var b, u := s.bufs[s.queue[0]], UnsetIn(s.queue[0], s.current, s.h.unset);
    assert BufferOk(cfg.clears, b, s.h.pend[0], s.readIndex, u, None);
    assert SlotOk(cfg.clears, b, s.readIndex, s.h.pend[0], s.readIndex, u, None);
  }

  lemma MoveStore(cfg: Config, s: State)
    requires Store(cfg, s) && Reading(cfg, s) && Enabled(cfg, s, MoveItem)
    requires PhaseOf(DoMoveItem(s)) == PhaseOf(s)
    ensures Store(cfg, DoMoveItem(s)) && s.bufs[s.queue[0]].items[s.readIndex] == s.h.pend[0][s.readIndex]
  {
    TakeSlots(cfg.clears, s.bufs, s.queue, s.h.pend, s.current, s.h.unset, s.readIndex);
  }

  lemma MoveReading(cfg: Config, s: State)
    requires Reading(cfg, s) && Enabled(cfg, s, MoveItem)
    requires s.queue != [] && s.queue[0] < |s.bufs| && |s.bufs[s.queue[0]].items| > s.readIndex
    requires s.h.pend != [] && s.readIndex < |s.h.pend[0]|
    requires s.bufs[s.queue[0]].items[s.readIndex] == s.h.pend[0][s.readIndex]
    ensures Reading(cfg, DoMoveItem(s))
  {
    assert s.h.pend[0][..s.readIndex + 1] == s.h.pend[0][..s.readIndex] + [s.h.pend[0][s.readIndex]];
  }

  lemma PreserveMoveItem(cfg: Config, s: State)
    requires Core(cfg, s) && Enabled(cfg, s, MoveItem)
    ensures Core(cfg, DoMoveItem(s)) && PhaseOf(DoMoveItem(s)) == PhaseOf(s)
  {
    MoveStore(cfg, s);
    MoveReading(cfg, s);
  }

  lemma ClearPeers(slots: nat, bufs: seq<LogBuffer>, b: nat, r: nat, queue: seq<nat>, pend: seq<seq<Line>>,
                   current: nat, owner: seq<nat>, counted: set<nat>, phase: Phase, producers: seq<Producer>)
    requires BufferShapes(slots, bufs) && b < |bufs| && r < |bufs[b].flags|
    requires Counts(slots, bufs, current, owner, counted, phase) && Holdings(queue, pend, current, bufs, producers)
    ensures var bufs' := bufs[b := bufs[b].(flags := bufs[b].flags[r := false])];
      BufferShapes(slots, bufs') && Counts(slots, bufs', current, owner, counted, phase) &&
      Holdings(queue, pend, current, bufs', producers)
  {
  }

  lemma AdvancePeers(cfg: Config, s: State)
    requires Peers(cfg, s) && s.readBuffer.Some? && InBuffer(s, s.readBuffer.value, s.readIndex)
    ensures Peers(cfg, DoAdvance(cfg, s)) && PhaseOf(DoAdvance(cfg, s)) == PhaseOf(s)
  {
    hide BufferShapes, Counts, Holdings, Owners, Generation, RotatorUnique;
    ClearPeers(cfg.slots, s.bufs, s.readBuffer.value, s.readIndex, s.queue, s.h.pend, s.current, s.h.owner,
               s.h.counted, PhaseOf(s), s.producers);
  }

  lemma ClearRetired(clears: bool, bufs: seq<LogBuffer>, ring: seq<nat>, b: nat, b': LogBuffer)
    requires RetiredFlags(clears, bufs, ring, None) && b < |bufs| && b !in ring
    ensures RetiredFlags(clears, bufs[b := b'], ring, None)
  {
    assert forall k :: 0 <= k < |ring| ==> ring[k] != b;
  }

  lemma AdvanceStore(cfg: Config, s: State)
    requires Store(cfg, s) && Reading(cfg, s) && Enabled(cfg, s, Advance)
    requires PhaseOf(DoAdvance(cfg, s)) == PhaseOf(s)
    ensures Store(cfg, DoAdvance(cfg, s))
  {
    hide Slots, RetiredFlags, PhaseOf, Order, Concat;
    var b := s.bufs[s.queue[0]];
    var b' := if cfg.clears then b.(flags := b.flags[s.readIndex := false]) else b;
    var t := DoAdvance(cfg, s);
    ClearSlots(cfg.clears, s.bufs, s.queue, s.h.pend, s.current, s.h.unset, s.readIndex, b');
    ClearRetired(cfg.clears, s.bufs, s.ring, s.queue[0], b');
    assert t.bufs == s.bufs[s.queue[0] := b'];
    assert Taken(cfg.slots, t.reader, t.readIndex) == s.readIndex + 1 && Hand(t.reader) == None;
  }

  lemma AdvanceSpare(cfg: Config, s: State)
    requires Store(cfg, s) && Reading(cfg, s) && Enabled(cfg, s, Advance) && SpareClean(s)
    requires PhaseOf(DoAdvance(cfg, s)) == PhaseOf(s)
    ensures SpareClean(DoAdvance(cfg, s))
  {
  }

  lemma AdvanceReading(cfg: Config, s: State)
    requires Reading(cfg, s) && Enabled(cfg, s, Advance)
    requires s.queue != [] && |s.h.pend| == |s.queue| && |s.h.pend[0]| <= cfg.slots
    ensures Reading(cfg, DoAdvance(cfg, s))
  {
  }

  lemma PreserveAdvance(cfg: Config, s: State)
    requires Core(cfg, s) && Enabled(cfg, s, Advance)
    ensures Core(cfg, DoAdvance(cfg, s)) && PhaseOf(DoAdvance(cfg, s)) == PhaseOf(s)
    ensures SpareClean(s) ==> SpareClean(DoAdvance(cfg, s))
  {
    AdvancePeers(cfg, s);
    AdvanceStore(cfg, s);
    if SpareClean(s) { AdvanceSpare(cfg, s); }
    FrontBound(cfg, s);
    AdvanceReading(cfg, s);
  }

  lemma FrontBound(cfg: Config, s: State)
    requires Peers(cfg, s) && s.queue != []
    ensures |s.h.pend| == |s.queue| && |s.h.pend[0]| <= cfg.slots
  {
  }

  lemma RetirePeers(cfg: Config, s: State)
    requires Peers(cfg, s) && s.queue != []
    requires s.queue[0] == s.current ==> forall i :: 0 <= i < cfg.slots ==> i !in s.h.unset
    requires forall j, k :: 0 <= j < k < |s.queue| ==> s.queue[j] != s.queue[k]
    requires !s.locked && |s.h.pend| == |s.queue| && |s.h.pend[0]| == cfg.slots
    ensures Peers(cfg, DoRetire(s)) && PhaseOf(DoRetire(s)) == PhaseOf(s)
  {
  }

  lemma RetireStore(cfg: Config, s: State)
    requires Store(cfg, s) && Reading(cfg, s) && s.reader.Retiring? && s.queue != []
    requires PhaseOf(DoRetire(s)) == PhaseOf(s)
    requires Slots(cfg.clears, s.bufs, s.queue[1..], s.h.pend[1..], s.current, s.h.unset, 0, None)
    requires s.queue[0] < |s.bufs| && AllFlags(s.bufs[s.queue[0]], !cfg.clears)
    ensures Store(cfg, DoRetire(s))
  {
  }

  lemma RetireReading(cfg: Config, s: State)
    requires Reading(cfg, s) && s.reader.Retiring? && s.queue != []
    ensures Reading(cfg, DoRetire(s))
  {
    assert s.h.pend[0][..cfg.slots] == s.h.pend[0];
  }

  lemma PreserveRetire(cfg: Config, s: State)
    requires Core(cfg, s) && Enabled(cfg, s, Retire)
    ensures Core(cfg, DoRetire(s)) && PhaseOf(DoRetire(s)) == PhaseOf(s)
  {
    RetireSlots(cfg.clears, s.bufs, s.queue, s.h.pend, s.current, s.h.unset, cfg.slots);
    RetirePeers(cfg, s);
    RetireStore(cfg, s);
    RetireReading(cfg, s);
  }

  lemma RecycleStore(cfg: Config, s: State)
    requires Store(cfg, s) && s.reader.Recycling?
    requires PhaseOf(DoRecycle(s)) == PhaseOf(s)
    ensures Store(cfg, DoRecycle(s))
  {
    hide Slots, AllFlags, PhaseOf;
  }

  lemma PreserveRecycle(cfg: Config, s: State)
    requires Core(cfg, s) && s.reader.Recycling?
    ensures Core(cfg, DoRecycle(s)) && PhaseOf(DoRecycle(s)) == PhaseOf(s)
  {
    RecycleStore(cfg, s);
    hide Store, Order, Owners, Generation, Counts, Holdings, RotatorUnique, BufferShapes;
  }

  // ---------------------------------------------------------------- all steps

  /** Every consumer step keeps `Core`, whatever the spare buffer holds. */
  lemma ReaderStepKeepsCore(cfg: Config, s: State, step: Step)
    requires Core(cfg, s) && IsReaderStep(step) && Enabled(cfg, s, step)
    ensures Core(cfg, Next(cfg, s, step)) && PhaseOf(Next(cfg, s, step)) == PhaseOf(s)
    ensures SpareClean(s) ==> SpareClean(Next(cfg, s, step))
  {
    hide Core;
    match step
    case FetchFront => PreserveFetch(cfg, s);
    case CheckFlag => PreserveCheck(cfg, s);
    case MoveItem => PreserveMoveItem(cfg, s);
    case Advance => PreserveAdvance(cfg, s);
    case Retire => PreserveRetire(cfg, s);
    case Recycle => PreserveRecycle(cfg, s);
  }

  lemma PushStepKeepsInv(cfg: Config, s: State, step: Step)
    requires Inv(cfg, s) && !IsReaderStep(step) && Enabled(cfg, s, step)
    requires step.Call? || step.TakeTicket? || step.SpinExit? || step.LoadCurrent? || step.Construct? || step.Publish?
    ensures Inv(cfg, Next(cfg, s, step))
  {
    match step
    case Call(p, line) => PreserveMove(cfg, s, p, Calling(line));
    case TakeTicket(p) => if s.writeIndex < cfg.slots { PreserveClaim(cfg, s, p); } else { PreserveMiss(cfg, s, p); }
    case SpinExit(p) => PreserveMove(cfg, s, p, Calling(s.producers[p].line));
    case LoadCurrent(p) => PreserveLoad(cfg, s, p);
    case Construct(p) => PreserveConstruct(cfg, s, p);
    case Publish(p) => PreservePublish(cfg, s, p);
  }

  lemma RotateStepKeepsInv(cfg: Config, s: State, step: Step)
    requires Inv(cfg, s) && !IsReaderStep(step) && Enabled(cfg, s, step) && (cfg.clears || !Reuses(s, step))
    requires step.Count? || step.ResetCount? || step.PickBuffer? || step.StoreCurrent? || step.Link? || step.Reopen?
    ensures Inv(cfg, Next(cfg, s, step))
  {
    match step
    case Count(p) => PreserveCount(cfg, s, p);
    case ResetCount(p) => PreserveReset(cfg, s, p);
    case PickBuffer(p) => if s.ring != [] { PreserveReuse(cfg, s, p); } else { PreserveAllocate(cfg, s, p); }
    case StoreCurrent(p) => PreserveStore(cfg, s, p);
    case Link(p) => PreserveLink(cfg, s, p);
    case Reopen(p) => PreserveReopen(cfg, s, p);
  }

  /** The invariant is inductive: for every step of the repaired form, and for every step of the written form
      that does not take a buffer out of the recycling ring. */
  lemma StepKeepsInv(cfg: Config, s: State, step: Step)
    requires Inv(cfg, s) && Enabled(cfg, s, step) && (cfg.clears || !Reuses(s, step))
    ensures Inv(cfg, Next(cfg, s, step))
  {
    if IsReaderStep(step) {
      ReaderStepKeepsCore(cfg, s, step);
    } else if step.Count? || step.ResetCount? || step.PickBuffer? || step.StoreCurrent? || step.Link? || step.Reopen? {
      RotateStepKeepsInv(cfg, s, step);
    } else {
      PushStepKeepsInv(cfg, s, step);
    }
  }
}

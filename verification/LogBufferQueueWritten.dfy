/** `LogBuffer::pop` as written never clears a slot's flag.  Exactly when that matters, and that it does. */
module LogBufferQueueWritten {
  import opened Util
  import opened LogBufferQueue
  import opened LogBufferQueueInvariant
  import opened LogBufferQueueProof
  import opened LogBufferQueueTheorems

  lemma {:induction false} NoPickNeverReuses(cfg: Config, s: State, steps: seq<Step>)
    requires IsRun(cfg, s, steps) && forall step :: step in steps ==> !step.PickBuffer?
    ensures NeverReuses(cfg, s, steps)
    decreases |steps|
  {
    if steps != [] { NoPickNeverReuses(cfg, Next(cfg, s, steps[0]), steps[1..]); }
  }

  /** A buffer is linked into an empty queue and the write index reopened. */
  lemma LinkAlone(cfg: Config, s: State, p: nat) returns (t: State)
    requires p < |s.producers| && s.producers[p].Storing? && s.queue == [] && !s.locked
    ensures IsRun(cfg, s, [StoreCurrent(p), Link(p), Reopen(p)])
    ensures Exec(cfg, s, [StoreCurrent(p), Link(p), Reopen(p)]) == t
    ensures t.queue == [s.producers[p].next] && !t.locked && t.bufs == s.bufs && t.reader == s.reader
    ensures t.readBuffer == s.readBuffer && t.readIndex == s.readIndex && t.popped == s.popped && t.tickets == s.tickets
  {
    var s1 := DoStoreCurrent(s, p);
    var s2 := DoLink(s1, p);
    t := DoReopen(s2, p);
    RunThree(cfg, s, StoreCurrent(p), s1, Link(p), s2, Reopen(p), t);
  }

  /** The consumer finds a line in the front buffer if its first flag is set. */
  lemma PopAlone(cfg: Config, s: State) returns (t: State)
    requires s.queue != [] && !s.locked && InBuffer(s, s.queue[0], 0) && s.bufs[s.queue[0]].flags[0]
    requires s.reader.Ready? && s.readBuffer.None? && s.readIndex == 0
    ensures IsRun(cfg, s, [FetchFront, CheckFlag, MoveItem]) && Exec(cfg, s, [FetchFront, CheckFlag, MoveItem]) == t
    ensures t.tickets == s.tickets && |t.popped| == |s.popped| + 1
  {
    var s1 := DoFetchFront(s);
    var s2 := DoCheckFlag(s1);
    t := DoMoveItem(s2);
    RunThree(cfg, s, FetchFront, s1, CheckFlag, s2, MoveItem, t);
  }

  /** A consumer that has received everything is handed one line more by a buffer linked with its first flag set. */
  lemma StaleTail(cfg: Config, s: State, p: nat) returns (steps: seq<Step>)
    requires p < |s.producers| && s.producers[p].Storing? && s.queue == [] && !s.locked
    requires s.reader.Ready? && s.readBuffer.None? && s.readIndex == 0 && s.popped == s.tickets
    requires InBuffer(s, s.producers[p].next, 0) && s.bufs[s.producers[p].next].flags[0]
    ensures IsRun(cfg, s, steps) && !Fifo(Exec(cfg, s, steps))
    ensures forall step :: step in steps ==> !step.PickBuffer?
  {
    var t := LinkAlone(cfg, s, p);
    var u := PopAlone(cfg, t);
    steps := [StoreCurrent(p), Link(p), Reopen(p)] + [FetchFront, CheckFlag, MoveItem];
    RunAppend(cfg, s, [StoreCurrent(p), Link(p), Reopen(p)], [FetchFront, CheckFlag, MoveItem]);
  }

  /** After a reuse the consumer receives everything there is; the reused buffer keeps its flags. */
  lemma ReuseDrained(cfg: Config, s: State, p: nat) returns (drain: seq<Step>, u: State)
    requires Inv(cfg, s) && !cfg.clears && Enabled(cfg, s, PickBuffer(p)) && s.ring != []
    ensures IsRun(cfg, DoReuse(s, p), drain) && Exec(cfg, DoReuse(s, p), drain) == u
    ensures forall step :: step in drain ==> IsReaderStep(step)
    ensures p < |u.producers| && u.producers[p].Storing? && u.queue == [] && !u.locked
    ensures u.reader.Ready? && u.readBuffer.None? && u.readIndex == 0 && u.popped == u.tickets
    ensures InBuffer(u, u.producers[p].next, 0) && u.bufs[u.producers[p].next].flags[0]
  {
    PreserveReuse(cfg, s, p);
    hide IsRun, Exec;
    drain, u := DrainRun(cfg, DoReuse(s, p));
    FailedPopIsEmpty(cfg, u);
  }

  /** Written form: once the first buffer is taken out of the recycling ring, the consumer can be handed a line it has
      already received. */
  lemma ReuseBreaksOrder(cfg: Config, s: State, p: nat) returns (more: seq<Step>)
    requires Inv(cfg, s) && !cfg.clears && Enabled(cfg, s, PickBuffer(p)) && s.ring != []
    ensures var t := Next(cfg, s, PickBuffer(p));
      IsRun(cfg, t, more) && NeverReuses(cfg, t, more) && !Fifo(Exec(cfg, t, more))
  {
    var t := Next(cfg, s, PickBuffer(p));
    assert t == DoReuse(s, p);
    var drain, u := ReuseDrained(cfg, s, p);
    hide Inv, IsRun, Exec, NeverReuses, Fifo, Enabled, Next, DoReuse, InBuffer;
    var tail := StaleTail(cfg, u, p);
    RunAppend(cfg, t, drain, tail);
    more := drain + tail;
    NoPickNeverReuses(cfg, t, more);
  }

  /** Every continuation without reuse keeps the order. */
  ghost predicate Safe(cfg: Config, s: State) {
    forall more :: IsRun(cfg, s, more) && NeverReuses(cfg, s, more) ==> Fifo(Exec(cfg, s, more))
  }

  /** Written form, exactly: after a run without reuse, a step is safe for all further runs without reuse if and
      only if it does not itself take a buffer out of the recycling ring. */
  lemma WrittenFormExact(cfg: Config, threads: nat, steps: seq<Step>, step: Step)
    requires cfg.slots > 0 && !cfg.clears
    requires IsRun(cfg, Init(cfg, threads), steps) && NeverReuses(cfg, Init(cfg, threads), steps)
    requires Enabled(cfg, Exec(cfg, Init(cfg, threads), steps), step)
    ensures var s := Exec(cfg, Init(cfg, threads), steps);
      Safe(cfg, Next(cfg, s, step)) <==> !Reuses(s, step)
  {
    InitInv(cfg, threads);
    RunKeepsInv(cfg, Init(cfg, threads), steps);
    var s := Exec(cfg, Init(cfg, threads), steps);
    hide Inv, Safe;
    if Reuses(s, step) {
      ReuseIsUnsafe(cfg, s, step);
    } else {
      StepKeepsInv(cfg, s, step);
      InvIsSafe(cfg, Next(cfg, s, step));
    }
  }

  ghost predicate AlwaysSafe(cfg: Config, s: State, steps: seq<Step>)
    requires IsRun(cfg, s, steps)
    decreases |steps|
  {
    Safe(cfg, s) && (steps == [] || AlwaysSafe(cfg, Next(cfg, s, steps[0]), steps[1..]))
  }

  /** Written form, over whole runs: a run passes through safe states only if and only if it never reuses a buffer. */
  lemma WrittenRunsExact(cfg: Config, threads: nat, steps: seq<Step>)
    requires cfg.slots > 0 && !cfg.clears && IsRun(cfg, Init(cfg, threads), steps)
    ensures AlwaysSafe(cfg, Init(cfg, threads), steps) <==> NeverReuses(cfg, Init(cfg, threads), steps)
  {
    InitInv(cfg, threads);
    WrittenRunsFrom(cfg, Init(cfg, threads), steps);
  }

  lemma {:induction false} WrittenRunsFrom(cfg: Config, s: State, steps: seq<Step>)
    requires Inv(cfg, s) && !cfg.clears && IsRun(cfg, s, steps)
    ensures AlwaysSafe(cfg, s, steps) <==> NeverReuses(cfg, s, steps)
    decreases |steps|
  {
    InvIsSafe(cfg, s);
    hide Inv, Safe, Fifo;
    if steps != [] {
      if Reuses(s, steps[0]) {
        ReuseIsUnsafe(cfg, s, steps[0]);
      } else {
        StepKeepsInv(cfg, s, steps[0]);
        WrittenRunsFrom(cfg, Next(cfg, s, steps[0]), steps[1..]);
      }
    }
  }

  lemma InvIsSafe(cfg: Config, s: State)
    requires Inv(cfg, s)
    ensures Safe(cfg, s)
  {
    forall more | IsRun(cfg, s, more) && NeverReuses(cfg, s, more)
      ensures Fifo(Exec(cfg, s, more))
    {
      RunKeepsInv(cfg, s, more);
      InvImpliesFifo(cfg, Exec(cfg, s, more));
    }
  }

  lemma ReuseIsUnsafe(cfg: Config, s: State, step: Step)
    requires Inv(cfg, s) && !cfg.clears && Enabled(cfg, s, step) && Reuses(s, step)
    ensures !Safe(cfg, Next(cfg, s, step))
  {
    var more := ReuseBreaksOrder(cfg, s, step.p);
  }

  // ---------------------------------------------------------------- the failure is reachable

  /** No producer but `p` is inside `push`. */
  ghost predicate Alone(s: State, p: nat) {
    p < |s.producers| && forall q :: 0 <= q < |s.producers| && q != p ==> s.producers[q].Idle?
  }

  function PushRank(cfg: Config, s: State, p: nat): int
    requires p < |s.producers|
  {
    8 * (cfg.slots - s.writeIndex) +
    match s.producers[p]
    case Idle => 7
    case Calling(_) => 6
    case Claimed(_, _) => 5 + 8
    case Holding(_, _, _) => 4 + 8
    case Constructed(_, _) => 3 + 8
    case Published(_, _) => 2 + 8
    case _ => 0
  }

  /** Producer `p`, on its own, stands before the rotation. */
  ghost predicate Filling1(cfg: Config, s: State, p: nat) {
    Inv(cfg, s) && Alone(s, p) && s.writeIndex <= cfg.slots &&
    (s.producers[p].Idle? || s.producers[p].Calling? || HasSlot(s.producers[p]) || s.producers[p].Last?) &&
    (s.producers[p].Idle? || s.producers[p].Calling? ==> s.writeIndex < cfg.slots)
  }

  function FillStep(s: State, p: nat): Step
    requires p < |s.producers|
  {
    if s.producers[p].Idle? then Call(p, "") else ProducerStep(s.producers[p], p)
  }

  /** A producer on its own that counts a slot while all tickets are taken counts the last one. */
  lemma LastCount(cfg: Config, s: State, p: nat)
    requires Filling1(cfg, s, p) && s.producers[p].Published? && s.writeIndex == cfg.slots
    ensures s.producers[p].buf == s.current < |s.bufs| && s.bufs[s.current].count + 1 == cfg.slots
  {
    assert Holds(s.queue, s.h.pend, s.current, s.bufs, s.producers[p]);
    assert PhaseOf(s) == Filling && |s.h.owner| == cfg.slots;
    forall i | 0 <= i < |s.h.owner| ensures i in s.h.counted + {s.producers[p].slot} {
    }
    FullSet(s.h.counted + {s.producers[p].slot}, cfg.slots);
  }

  lemma FillShape(cfg: Config, s: State, p: nat)
    requires Alone(s, p) && s.writeIndex <= cfg.slots && Enabled(cfg, s, FillStep(s, p))
    requires s.producers[p].Idle? || s.producers[p].Calling? || HasSlot(s.producers[p])
    requires s.producers[p].Idle? || s.producers[p].Calling? ==> s.writeIndex < cfg.slots
    requires s.producers[p].Published? && s.writeIndex == cfg.slots ==>
      s.bufs[s.producers[p].buf].count + 1 == cfg.slots
    ensures var t := Next(cfg, s, FillStep(s, p));
      Alone(t, p) && t.writeIndex <= cfg.slots && PushRank(cfg, t, p) < PushRank(cfg, s, p) &&
      (t.producers[p].Idle? || t.producers[p].Calling? || HasSlot(t.producers[p]) || t.producers[p].Last?) &&
      (t.producers[p].Idle? || t.producers[p].Calling? ==> t.writeIndex < cfg.slots) &&
      t.ring == s.ring && t.queue == s.queue && t.reader == s.reader && t.locked == s.locked
  {
  }

  lemma FillProgress(cfg: Config, s: State, p: nat)
    requires Filling1(cfg, s, p) && !s.producers[p].Last?
    ensures Enabled(cfg, s, FillStep(s, p)) && !Reuses(s, FillStep(s, p))
    ensures var t := Next(cfg, s, FillStep(s, p));
      Filling1(cfg, t, p) && PushRank(cfg, t, p) < PushRank(cfg, s, p) &&
      t.ring == s.ring && t.queue == s.queue && t.reader == s.reader && t.locked == s.locked
  {
    if !s.producers[p].Idle? { ProducerCanStep(cfg, s, p); }
    if s.producers[p].Published? && s.writeIndex == cfg.slots { LastCount(cfg, s, p); }
    StepKeepsInv(cfg, s, FillStep(s, p));
    FillShape(cfg, s, p);
  }

  lemma FillEnd(cfg: Config, s: State, p: nat)
    requires Filling1(cfg, s, p) && s.producers[p].Last?
    ensures Enabled(cfg, s, ResetCount(p))
    ensures var t := Next(cfg, s, ResetCount(p));
      Inv(cfg, t) && Alone(t, p) && t.producers[p].Rotating? &&
      t.ring == s.ring && t.queue == s.queue && t.reader == s.reader && t.locked == s.locked
  {
    ProducerCanStep(cfg, s, p);
    StepKeepsInv(cfg, s, ResetCount(p));
  }

  /** It fills the current buffer and reaches the rotation. */
  lemma {:induction false} FillRun(cfg: Config, s: State, p: nat) returns (steps: seq<Step>, t: State)
    requires Filling1(cfg, s, p)
    ensures IsRun(cfg, s, steps) && Exec(cfg, s, steps) == t
    ensures Inv(cfg, t) && Alone(t, p) && t.producers[p].Rotating?
    ensures t.ring == s.ring && t.queue == s.queue && t.reader == s.reader && t.locked == s.locked
    decreases PushRank(cfg, s, p)
  {
    if s.producers[p].Last? {
      FillEnd(cfg, s, p);
      steps, t := [ResetCount(p)], Next(cfg, s, ResetCount(p));
      RunCons(cfg, s, ResetCount(p), []);
    } else {
      FillProgress(cfg, s, p);
      var rest;
      rest, t := FillRun(cfg, Next(cfg, s, FillStep(s, p)), p);
      steps := [FillStep(s, p)] + rest;
      RunCons(cfg, s, FillStep(s, p), rest);
    }
  }

  /** A rotation with an empty ring allocates a buffer and reopens the queue. */
  lemma RotateStates(cfg: Config, s: State, p: nat) returns (s1: State, s2: State, s3: State, t: State)
    requires Inv(cfg, s) && Alone(s, p) && s.producers[p].Rotating? && s.ring == [] && !s.locked
    ensures s1 == DoAllocate(cfg, s, p) && s1.producers[p].Storing? && s2 == DoStoreCurrent(s1, p)
    ensures s2.producers[p].Linking? && !s2.locked && s3 == DoLink(s2, p)
    ensures s3.producers[p].Reopening? && t == DoReopen(s3, p) && Inv(cfg, t)
  {
    s1 := DoAllocate(cfg, s, p);
    PreserveAllocate(cfg, s, p);
    s2 := DoStoreCurrent(s1, p);
    PreserveStore(cfg, s1, p);
    s3 := DoLink(s2, p);
    PreserveLink(cfg, s2, p);
    t := DoReopen(s3, p);
    PreserveReopen(cfg, s3, p);
  }

  lemma RotateRun(cfg: Config, s: State, p: nat) returns (steps: seq<Step>, t: State)
    requires Inv(cfg, s) && Alone(s, p) && s.producers[p].Rotating? && s.ring == [] && !s.locked
    ensures IsRun(cfg, s, steps) && Exec(cfg, s, steps) == t
    ensures Inv(cfg, t) && Alone(t, p) && t.producers[p].Idle? && t.writeIndex == 0 && !t.locked
    ensures t.ring == [] && |t.queue| == |s.queue| + 1 && t.reader == s.reader
  {
    hide Inv;
    var s1, s2, s3;
    s1, s2, s3, t := RotateStates(cfg, s, p);
    RunThree(cfg, s1, StoreCurrent(p), s2, Link(p), s3, Reopen(p), t);
    hide Next, Alone;
    steps := [PickBuffer(p)] + [StoreCurrent(p), Link(p), Reopen(p)];
    RunCons(cfg, s, PickBuffer(p), [StoreCurrent(p), Link(p), Reopen(p)]);
  }

  lemma AfterDrain(cfg: Config, s: State, t: State, p: nat)
    requires Inv(cfg, s) && Alone(s, p) && s.producers[p].Idle? && s.writeIndex == 0 && !s.locked
    requires s.ring == [] && |s.queue| == 2 && s.reader.Ready?
    requires Core(cfg, t) && PopFails(t) && PhaseOf(t) == PhaseOf(s) && t.producers == s.producers && !t.locked
    requires t.h.unset == s.h.unset && t.writeIndex == 0 && Stock(t) == Stock(s)
    ensures Filling1(cfg, t, p) && t.ring != []
  {
    forall i | i in s.h.unset ensures false {
    }
    FailedPopIsEmpty(cfg, t);
    assert PhaseOf(s) == Filling;
  }

  /** One producer fills two buffers in turn while the consumer keeps up. */
  lemma FirstRounds(cfg: Config, threads: nat) returns (steps: seq<Step>, t: State)
    requires cfg.slots > 0 && threads > 0
    ensures IsRun(cfg, Init(cfg, threads), steps) && Exec(cfg, Init(cfg, threads), steps) == t
    ensures Filling1(cfg, t, 0) && t.ring != []
  {
    hide IsRun, Exec, Enabled, Next, Core;
    InitInv(cfg, threads);
    var s0 := Init(cfg, threads);
    var r1, s1 := FillRun(cfg, s0, 0);
    var r2, s2 := RotateRun(cfg, s1, 0);
    var r3;
    r3, t := DrainRun(cfg, s2);
    AfterDrain(cfg, s2, t, 0);
    RunAppend(cfg, s0, r1, r2);
    RunAppend(cfg, s0, r1 + r2, r3);
    steps := r1 + r2 + r3;
  }

  /** Written form: with any buffer size and any number of producers, some run hands the consumer a stale line. */
  lemma WrittenFormFails(cfg: Config, threads: nat) returns (steps: seq<Step>)
    requires cfg.slots > 0 && !cfg.clears && threads > 0
    ensures IsRun(cfg, Init(cfg, threads), steps) && !Fifo(Exec(cfg, Init(cfg, threads), steps))
  {
    hide Inv, IsRun, Exec, Fifo, Next, NeverReuses;
    var a, s := FirstRounds(cfg, threads);
    var b, t := FillRun(cfg, s, 0);
    var c := ReuseBreaksOrder(cfg, t, 0);
    RunCons(cfg, t, PickBuffer(0), c);
    RunAppend(cfg, s, b, [PickBuffer(0)] + c);
    RunAppend(cfg, Init(cfg, threads), a, b + ([PickBuffer(0)] + c));
    steps := a + (b + ([PickBuffer(0)] + c));
  }
}

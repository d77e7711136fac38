/** How far the line queue is from letting spinning producers go on, and what one call of `pop` hands over. */
module LogBufferQueueProgress {
  import opened Util
  import opened LogBufferQueue
  import opened LogBufferQueueInvariant
  import opened LogBufferQueueProof
  import opened LogBufferQueueTheorems

  // ---------------------------------------------------------------- spinning producers are let go

  /** A step of a producer that owns a slot or rotates. */
  predicate IsServiceStep(step: Step) {
    step.LoadCurrent? || step.Construct? || step.Publish? || step.Count? || step.ResetCount? || step.PickBuffer? ||
    step.StoreCurrent? || step.Link? || step.Reopen?
  }

  /** How many such steps a producer is from its return, at most. */
  function PcWork(pc: Producer): nat {
    match pc
    case Idle => 0
    case Calling(_) => 0
    case Spinning(_) => 0
    case Claimed(_, _) => 9
    case Holding(_, _, _) => 8
    case Constructed(_, _) => 7
    case Published(_, _) => 6
    case Last(_) => 5
    case Rotating => 4
    case Storing(_) => 3
    case Linking(_) => 2
    case Reopening => 1
  }

  function Work(producers: seq<Producer>): nat {
    if producers == [] then 0 else PcWork(producers[0]) + Work(producers[1..])
  }

  lemma {:induction false} WorkChange(producers: seq<Producer>, p: nat, pc: Producer)
    requires p < |producers|
    ensures Work(producers[p := pc]) == Work(producers) - PcWork(producers[p]) + PcWork(pc)
    decreases |producers|
  {
    if p == 0 {
      assert producers[0 := pc][1..] == producers[1..];
    } else {
      WorkChange(producers[1..], p - 1, pc);
      assert producers[p := pc][1..] == producers[1..][p - 1 := pc];
    }
  }

  /** While the write index is too large it stays so until it is reopened; every service step uses up work, and no
      other step, of any producer or of the consumer, adds any. */
  lemma WorkStep(cfg: Config, s: State, step: Step)
    requires s.writeIndex >= cfg.slots && Enabled(cfg, s, step)
    ensures (
      var t := Next(cfg, s, step);
      && (if IsServiceStep(step) then Work(t.producers) < Work(s.producers) else Work(t.producers) == Work(s.producers))
      && (if step.Reopen? then t.writeIndex == 0 else t.writeIndex >= cfg.slots))
  {
    hide Work, EmptyBuffer, ExtendLast;
    if !IsReaderStep(step) {
      WorkChange(s.producers, step.p, Next(cfg, s, step).producers[step.p]);
      assert Next(cfg, s, step).producers == s.producers[step.p := Next(cfg, s, step).producers[step.p]];
    }
  }

  function ServiceSteps(steps: seq<Step>): nat {
    if steps == [] then 0 else (if IsServiceStep(steps[0]) then 1 else 0) + ServiceSteps(steps[1..])
  }

  /** However the threads are interleaved, the queue is reopened before more service steps than that are taken. */
  lemma {:induction false} SpinningIsBounded(cfg: Config, s: State, steps: seq<Step>)
    requires s.writeIndex >= cfg.slots && IsRun(cfg, s, steps)
    requires forall step :: step in steps ==> !step.Reopen?
    ensures ServiceSteps(steps) + Work(Exec(cfg, s, steps).producers) <= Work(s.producers)
    ensures Exec(cfg, s, steps).writeIndex >= cfg.slots
    decreases |steps|
  {
    if steps != [] {
      WorkStep(cfg, s, steps[0]);
      assert steps[0] in steps && forall step :: step in steps[1..] ==> step in steps;
      SpinningIsBounded(cfg, Next(cfg, s, steps[0]), steps[1..]);
    }
  }

  lemma SomeService(cfg: Config, s: State) returns (step: Step)
    requires Inv(cfg, s) && s.writeIndex >= cfg.slots && (cfg.clears || s.ring == [])
    ensures Enabled(cfg, s, step) && IsServiceStep(step) && !IsReaderStep(step) && (cfg.clears || !Reuses(s, step))
  {
    hide Inv;
    SpinnersAreServed(cfg, s);
    var p :| 0 <= p < |s.producers| && (HasSlot(s.producers[p]) || IsRotator(s.producers[p])) &&
      Enabled(cfg, s, ProducerStep(s.producers[p], p));
    step := ProducerStep(s.producers[p], p);
  }

  /** And service steps alone reopen it. */
  lemma {:induction false} ServiceReopens(cfg: Config, s: State) returns (steps: seq<Step>)
    requires Inv(cfg, s) && s.writeIndex >= cfg.slots && (cfg.clears || s.ring == [])
    ensures IsRun(cfg, s, steps) && (forall step :: step in steps ==> IsServiceStep(step))
    ensures Inv(cfg, Exec(cfg, s, steps)) && Exec(cfg, s, steps).writeIndex == 0
    decreases Work(s.producers)
  {
    hide Inv, Work;
    var step := SomeService(cfg, s);
    var t := Next(cfg, s, step);
    WorkStep(cfg, s, step);
    StepKeepsInv(cfg, s, step);
    ServiceLeavesRing(cfg, s, step);
    hide Enabled, Next;
    var rest := [];
    if !step.Reopen? {
      rest := ServiceReopens(cfg, t);
    }
    RunCons(cfg, s, step, rest);
    steps := [step] + rest;
  }

  lemma ServiceLeavesRing(cfg: Config, s: State, step: Step)
    requires Enabled(cfg, s, step) && IsServiceStep(step)
    ensures s.ring == [] ==> Next(cfg, s, step).ring == []
  {
  }

  // ---------------------------------------------------------------- one call of pop

  /** What moving an item hands over is the next ticket's line. */
  lemma NextLine(cfg: Config, s: State)
    requires Inv(cfg, s) && Enabled(cfg, s, MoveItem)
    ensures |s.popped| < |s.tickets|
    ensures Next(cfg, s, MoveItem).popped == s.popped + [s.tickets[|s.popped|]]
  {
    var t := Next(cfg, s, MoveItem);
    StepKeepsInv(cfg, s, MoveItem);
    InvImpliesFifo(cfg, t);
    assert |t.popped| == |s.popped| + 1 && t.tickets == s.tickets;
    assert t.popped[|s.popped|] == t.tickets[|s.popped|];
  }

  /** A consumer that has seen a flag can move the item. */
  lemma SeenCanMove(cfg: Config, s: State)
    requires Inv(cfg, s) && s.reader.Seen?
    ensures Enabled(cfg, s, MoveItem)
  {
  }

  /** Steps other than moving the item hand over nothing, and only a look at a flag makes the consumer see it. */
  lemma OtherSteps(cfg: Config, s: State, step: Step)
    requires Enabled(cfg, s, step) && !step.MoveItem? && !step.CheckFlag?
    ensures (
      var t := Next(cfg, s, step);
      t.popped == s.popped && s.tickets <= t.tickets && (t.reader.Seen? <==> s.reader.Seen?))
  {
  }

  /** The rest of a call of `pop`, among any steps of the producers. */
  lemma {:induction false} CallEnds(cfg: Config, s: State, steps: seq<Step>)
    requires Inv(cfg, s) && IsRun(cfg, s, steps) && (cfg.clears || NeverReuses(cfg, s, steps))
    requires CheckFlag !in steps && Exec(cfg, s, steps).reader.Ready?
    ensures s.reader.Seen? ==> |s.popped| < |s.tickets|
    ensures Exec(cfg, s, steps).popped == if s.reader.Seen? then s.popped + [s.tickets[|s.popped|]] else s.popped
    decreases |steps|
  {
    if s.reader.Seen? {
      SeenCanMove(cfg, s);
      NextLine(cfg, s);
    }
    if steps != [] {
      var step := steps[0];
      assert step != CheckFlag;
      if !step.MoveItem? { OtherSteps(cfg, s, step); }
      assert step.MoveItem? ==> s.reader.Seen? && Next(cfg, s, step).reader.Moved?;
      StepKeepsInv(cfg, s, step);
      hide Inv, Enabled, Next;
      CallEnds(cfg, Next(cfg, s, step), steps[1..]);
    }
  }

  /** A call of `pop`, from its look at the flag to its return, hands over exactly the next line in ticket order if the
      flag was set, and nothing otherwise, whatever the producers do meanwhile. */
  lemma CallReceives(cfg: Config, s: State, steps: seq<Step>)
    requires Inv(cfg, s) && IsRun(cfg, s, steps) && (cfg.clears || NeverReuses(cfg, s, steps))
    requires steps != [] && steps[0] == CheckFlag && CheckFlag !in steps[1..] && Exec(cfg, s, steps).reader.Ready?
    ensures !PopFails(s) ==> |s.popped| < |s.tickets|
    ensures Exec(cfg, s, steps).popped == if PopFails(s) then s.popped else s.popped + [s.tickets[|s.popped|]]
  {
    StepKeepsInv(cfg, s, CheckFlag);
    CallEnds(cfg, Next(cfg, s, CheckFlag), steps[1..]);
  }
}

/** The hand-off of functors to an event loop (net/EventLoop.cpp:77-127, 153-158, 184-204): one loop thread, any
    number of other threads, the mutex-guarded queue and the eventfd that wakes the poll.  Every step is one access
    to shared state. */
module EventLoop {

  type Functor = nat

  datatype LoopPc =
    | Idle                       // before loop() or after it
    | Checking                   // about to test quit_
    | Polling                    // about to wait in epoll
    | Handling(wakeActive: bool) // running event handlers; the wakeup channel's may still be ahead
    | Calling                    // calling_pending_functors_ set, queue not yet swapped
    | Running                    // running the swapped batch
  datatype CallerPc = Outside | Owing   // Owing: between a push or a quit and the wakeup

  /** `owes`: a functor has pushed and not yet woken.  `early`: something was queued on the loop's own thread before
      loop() started and has not been swapped out yet. */
  datatype State = State(
    pc: LoopPc,
    pending: seq<Functor>,
    batch: seq<Functor>,
    calling: bool,
    quit: bool,
    counter: nat,
    callers: seq<CallerPc>,
    owes: bool,
    early: bool,
    pushed: seq<Functor>,
    ran: seq<Functor>)

  datatype Step =
    | Start
    | TestQuit
    | Poll(wakeActive: bool)
    | ReadWakeup
    | SetCalling
    | Swap
    | RunNext
    | ClearCalling
    | LoopPush(f: Functor)       // queueInLoop on the loop's thread
    | LoopWake
    | LoopQuit
    | CallerPush(caller: nat, f: Functor)
    | CallerQuit(caller: nat)
    | CallerWake(caller: nat)

  /** The eventfd's counter cannot exceed this; a further write fails and leaves it. */
  const EVENTFD_MAX: nat := 0xFFFF_FFFF_FFFF_FFFE

  function Init(threads: nat): State {
    State(Idle, [], [], false, false, 0, seq(threads, _ => Outside), false, false, [], [])
  }

  function Woken(counter: nat): nat {
    if counter < EVENTFD_MAX then counter + 1 else counter
  }

  predicate Enabled(s: State, step: Step) {
    match step
    case Start => s.pc.Idle?
    case TestQuit => s.pc.Checking?
    case Poll(wakeActive) => s.pc.Polling? && (wakeActive ==> s.counter > 0)
    case ReadWakeup => s.pc == Handling(true)
    case SetCalling => s.pc == Handling(false)
    case Swap => s.pc.Calling?
    case RunNext => s.pc.Running? && !s.owes && s.batch != []
    case ClearCalling => s.pc.Running? && !s.owes && s.batch == []
    case LoopPush(_) => (s.pc.Idle? || s.pc.Handling? || s.pc.Running?) && !s.owes
    case LoopWake => s.owes
    case LoopQuit => s.pc.Idle? || s.pc.Handling? || s.pc.Running?
    case CallerPush(i, _) => i < |s.callers| && s.callers[i] == Outside
    case CallerQuit(i) => i < |s.callers| && s.callers[i] == Outside
    case CallerWake(i) => i < |s.callers| && s.callers[i] == Owing
  }

  function Next(s: State, step: Step): State
    requires Enabled(s, step)
  {
    match step
    case Start => s.(pc := Checking, quit := false)
    case TestQuit => s.(pc := if s.quit then Idle else Polling)
    case Poll(wakeActive) => s.(pc := Handling(wakeActive))
    case ReadWakeup => s.(pc := Handling(false), counter := 0)
    case SetCalling => s.(pc := Calling, calling := true)
    case Swap => s.(pc := Running, batch := s.pending, pending := [], early := false)
    case RunNext => s.(batch := s.batch[1..], ran := s.ran + [s.batch[0]])
    case ClearCalling => s.(pc := Checking, calling := false)
    case LoopPush(f) =>
      s.(pending := s.pending + [f], pushed := s.pushed + [f], owes := s.calling, early := s.early || s.pc.Idle?)
    case LoopWake => s.(owes := false, counter := Woken(s.counter))
    case LoopQuit => s.(quit := true)
    case CallerPush(i, f) => s.(pending := s.pending + [f], pushed := s.pushed + [f], callers := s.callers[i := Owing])
    case CallerQuit(i) => s.(quit := true, callers := s.callers[i := Owing])
    case CallerWake(i) => s.(callers := s.callers[i := Outside], counter := Woken(s.counter))
  }

  predicate IsRun(s: State, steps: seq<Step>)
    decreases |steps|
  {
    steps == [] || (Enabled(s, steps[0]) && IsRun(Next(s, steps[0]), steps[1..]))
  }

  function Exec(s: State, steps: seq<Step>): State
    requires IsRun(s, steps)
    decreases |steps|
  {
    if steps == [] then s else Exec(Next(s, steps[0]), steps[1..])
  }

  // ---------------------------------------------------------------- what the labels of a run say

  function PushOf(step: Step): seq<Functor> {
    match step
    case LoopPush(f) => [f]
    case CallerPush(_, f) => [f]
    case _ => []
  }

  /** The functors that are queued by the steps of a run, in order, whoever queues them. */
  function PushedBy(steps: seq<Step>): seq<Functor> {
    if steps == [] then [] else PushOf(steps[0]) + PushedBy(steps[1..])
  }

  predicate AsksToQuit(step: Step) { step.LoopQuit? || step.CallerQuit? }

  /** Whether the loop is asked to stop after a run: somebody has asked, and it has not been started since. */
  predicate QuitBy(quit: bool, steps: seq<Step>)
    decreases |steps|
  {
    if steps == [] then quit
    else QuitBy(if AsksToQuit(steps[0]) then true else if steps[0].Start? then false else quit, steps[1..])
  }

  /** How often the loop waits in its poll. */
  function Polls(steps: seq<Step>): nat {
    if steps == [] then 0 else (if steps[0].Poll? then 1 else 0) + Polls(steps[1..])
  }

  lemma StepLabel(s: State, step: Step)
    requires Enabled(s, step)
    ensures Next(s, step).pushed == s.pushed + PushOf(step) && |Next(s, step).callers| == |s.callers|
    ensures Next(s, step).quit <==> AsksToQuit(step) || (s.quit && !step.Start?)
  {
  }

  /** No functor that is queued goes missing and none is made up, on whichever thread; likewise for a quit. */
  lemma {:induction false} LabelsDecide(s: State, steps: seq<Step>)
    requires IsRun(s, steps)
    ensures Exec(s, steps).pushed == s.pushed + PushedBy(steps)
    ensures Exec(s, steps).quit == QuitBy(s.quit, steps)
    ensures |Exec(s, steps).callers| == |s.callers|
    decreases |steps|
  {
    hide Next, Enabled, PushOf;
    if steps != [] {
      StepLabel(s, steps[0]);
      LabelsDecide(Next(s, steps[0]), steps[1..]);
      assert s.pushed + PushedBy(steps) == s.pushed + PushOf(steps[0]) + PushedBy(steps[1..]);
    }
  }

  /** Another thread can begin a hand-off whenever it is outside one; then it owes a wakeup, which it can always make,
      and which leaves the eventfd readable. */
  lemma CallersNeverWait(s: State, i: nat, f: Functor)
    requires i < |s.callers|
    ensures s.callers[i] == Outside ==> Enabled(s, CallerPush(i, f)) && Next(s, CallerPush(i, f)).callers[i] == Owing
    ensures s.callers[i] == Outside ==> Enabled(s, CallerQuit(i)) && Next(s, CallerQuit(i)).callers[i] == Owing
    ensures s.callers[i] == Owing ==> Enabled(s, CallerWake(i)) && Next(s, CallerWake(i)).callers[i] == Outside
    ensures s.callers[i] == Owing ==> Next(s, CallerWake(i)).counter > 0
    ensures s.callers[i] == Owing && s.counter < 0xFFFF_FFFF_FFFF_FFFE ==>
      Next(s, CallerWake(i)).counter == s.counter + 1
  {
  }

  /** The loop's own thread queues freely except while it swaps, owes a wakeup only until its next step, and never waits
      but in its poll. */
  lemma LoopNeverWaits(s: State, f: Functor)
    requires Phase(s)
    ensures s.pc.Idle? || s.pc.Handling? || s.pc.Running? ==>
      Enabled(s, LoopQuit) && (!s.owes ==> Enabled(s, LoopPush(f)))
    ensures s.owes ==> Enabled(s, LoopWake) && Next(s, LoopWake).counter > 0 && !Next(s, LoopWake).owes
    ensures s.pc.Polling? ==> Enabled(s, Poll(false)) && (Enabled(s, Poll(true)) <==> s.counter > 0)
    ensures !s.pc.Polling? ==> exists step :: Enabled(s, step) && !step.Poll? && OfLoop(step)
  {
    assert Enabled(s, LoopStep(s)) && OfLoop(LoopStep(s));
  }

  /** What the loop's thread goes on with, when its callbacks ask for nothing more. */
  function LoopStep(s: State): Step {
    match s.pc
    case Idle => Start
    case Checking => TestQuit
    case Polling => Poll(s.counter > 0)
    case Handling(wakeActive) => if wakeActive then ReadWakeup else SetCalling
    case Calling => Swap
    case Running => if s.owes then LoopWake else if s.batch != [] then RunNext else ClearCalling
  }

  predicate OfLoop(step: Step) { !step.CallerPush? && !step.CallerQuit? && !step.CallerWake? }

  /** The exception of the wakeup promise, exactly: the loop's own thread queues something while it does not loop, and
      the queue has not been swapped out since. */
  lemma EarlyExactly(s: State, step: Step)
    requires Enabled(s, step)
    ensures Next(s, step).early <==> !step.Swap? && (s.early || (step.LoopPush? && s.pc.Idle?))
  {
  }

  // ---------------------------------------------------------------- the invariant

  /** A wakeup has been made or is about to be. */
  predicate WakeupComing(s: State) {
    s.counter > 0 || s.owes || Owing in s.callers
  }

  /** Functors run in push order, each once. */
  predicate InOrder(s: State) {
    s.ran + s.batch + s.pending == s.pushed
  }

  predicate Phase(s: State) {
    && (s.calling <==> s.pc.Calling? || s.pc.Running?)
    && (s.owes ==> s.pc.Running?)
    && (s.batch != [] ==> s.pc.Running?)
  }

  /** Whenever the next thing that could empty the queue lies behind a poll, that poll will be woken. */
  predicate NoLostWakeup(s: State) {
    && (s.pending != [] && !s.early && (s.pc.Idle? || s.pc.Checking? || s.pc.Polling? || s.pc.Running?) ==>
          WakeupComing(s))
    && (s.quit && s.pc.Polling? ==> WakeupComing(s))
  }

  predicate Inv(s: State) {
    InOrder(s) && Phase(s) && NoLostWakeup(s)
  }

  lemma InitInv(threads: nat)
    ensures Inv(Init(threads))
  {
  }

  lemma SetOwing(callers: seq<CallerPc>, i: nat)
    requires i < |callers|
    ensures Owing in callers[i := Owing]
  {
    assert callers[i := Owing][i] == Owing;
  }

  lemma StepKeepsInv(s: State, step: Step)
    requires Inv(s) && Enabled(s, step)
    ensures Inv(Next(s, step))
  {
    var t := Next(s, step);
    StepKeepsOrder(s, step);
    match step {
      case CallerPush(i, _) => SetOwing(s.callers, i);
      case CallerQuit(i) => SetOwing(s.callers, i);
      case CallerWake(_) => assert t.counter > 0;
      case LoopWake => assert t.counter > 0;
      case Start =>
      case TestQuit =>
      case Poll(_) =>
      case ReadWakeup =>
      case SetCalling =>
      case Swap =>
      case RunNext =>
      case ClearCalling =>
      case LoopPush(_) =>
      case LoopQuit =>
    }
  }

  lemma StepKeepsOrder(s: State, step: Step)
    requires InOrder(s) && Phase(s) && Enabled(s, step)
    ensures InOrder(Next(s, step))
  {
    if step.RunNext? {
      assert s.batch == [s.batch[0]] + s.batch[1..];
    }
  }

  lemma {:induction false} RunKeepsInv(s: State, steps: seq<Step>)
    requires Inv(s) && IsRun(s, steps)
    ensures Inv(Exec(s, steps))
    decreases |steps|
  {
    if steps != [] {
      StepKeepsInv(s, steps[0]);
      RunKeepsInv(Next(s, steps[0]), steps[1..]);
    }
  }

  /** In every reachable state: the functors that have run, that are being run and that wait are together, in order, the
      functors the threads have queued; a loop about to poll over a non-empty queue, or after a quit, has been or is
      about to be woken; with all callers back outside the eventfd is readable, so that the poll cannot block. */
  lemma EveryRunIsSafe(threads: nat, steps: seq<Step>)
    requires IsRun(Init(threads), steps)
    ensures (
      var s := Exec(Init(threads), steps);
      && s.ran + s.batch + s.pending == PushedBy(steps) && s.ran <= PushedBy(steps)
      && (s.pc.Polling? && s.pending != [] && !s.early ==> s.counter > 0 || Owing in s.callers)
      && (s.pc.Polling? && QuitBy(false, steps) ==> s.counter > 0 || Owing in s.callers))
  {
    hide Next, Enabled, Exec, IsRun, PushedBy, QuitBy;
    LabelsDecide(Init(threads), steps);
    InitInv(threads);
    RunKeepsInv(Init(threads), steps);
    var s := Exec(Init(threads), steps);
    assert PushedBy(steps) == s.pushed == s.ran + (s.batch + s.pending);
  }

  // ---------------------------------------------------------------- every functor runs

  predicate Round(before: seq<Functor>, s: State, done: bool) {
    && before <= s.pushed
    && (s.pc.Running? ==> before <= s.ran + s.batch)
    && (done ==> before <= s.ran)
  }

  lemma StepKeepsRound(before: seq<Functor>, s: State, step: Step, done: bool)
    requires Inv(s) && Enabled(s, step) && Round(before, s, done)
    ensures Round(before, Next(s, step), done || step.ClearCalling?)
  {
    hide NoLostWakeup;
    if step.RunNext? {
      assert s.batch == [s.batch[0]] + s.batch[1..];
      assert s.ran + s.batch == (s.ran + [s.batch[0]]) + s.batch[1..];
    } else if step.ClearCalling? {
      assert s.ran + s.batch == s.ran;
    }
  }

  lemma {:induction false} RunKeepsRound(before: seq<Functor>, s: State, steps: seq<Step>, done: bool)
    requires Inv(s) && IsRun(s, steps) && Round(before, s, done)
    ensures Round(before, Exec(s, steps), done || ClearCalling in steps)
    decreases |steps|
  {
    if steps != [] {
      StepKeepsRound(before, s, steps[0], done);
      StepKeepsInv(s, steps[0]);
      RunKeepsRound(before, Next(s, steps[0]), steps[1..], done || steps[0].ClearCalling?);
    }
  }

  /** Whatever is interleaved, one round of the loop runs every functor queued before its swap, by whichever thread. */
  lemma RoundRunsAll(threads: nat, before: seq<Step>, steps: seq<Step>)
    requires IsRun(Init(threads), before) && IsRun(Exec(Init(threads), before), steps)
    requires !Exec(Init(threads), before).pc.Running? && ClearCalling in steps
    ensures PushedBy(before) <= Exec(Exec(Init(threads), before), steps).ran
  {
    InitInv(threads);
    RunKeepsInv(Init(threads), before);
    LabelsDecide(Init(threads), before);
    var s := Exec(Init(threads), before);
    assert PushedBy(before) == s.pushed;
    RunKeepsRound(s.pushed, s, steps, false);
  }

  lemma {:induction false} RunBatch(s: State) returns (steps: seq<Step>)
    requires Inv(s) && s.pc.Running? && !s.owes
    ensures IsRun(s, steps) && Exec(s, steps).pc.Checking? && ClearCalling in steps && Exec(s, steps).quit == s.quit
    ensures PushedBy(steps) == [] && forall step :: step in steps ==> OfLoop(step)
    decreases |s.batch|
  {
    var step := if s.batch == [] then ClearCalling else RunNext;
    var t := Next(s, step);
    if s.batch == [] {
      steps := [];
    } else {
      StepKeepsInv(s, step);
      steps := RunBatch(t);
    }
    steps := [step] + steps;
    assert steps[1..] == if s.batch == [] then [] else steps[1..];
  }

  /** A loop that is woken at its poll goes through one round, alone. */
  lemma WokenRound(s: State) returns (steps: seq<Step>)
    requires Inv(s) && s.pc.Polling? && s.counter > 0
    ensures steps != [] && steps[0] == Poll(true) && IsRun(s, steps) && ClearCalling in steps
    ensures Exec(s, steps).pc.Checking? && Exec(s, steps).quit == s.quit
    ensures PushedBy(steps) == [] && forall step :: step in steps ==> OfLoop(step)
  {
    var a := Next(s, Poll(true));
    var b := Next(a, ReadWakeup);
    var c := Next(b, SetCalling);
    var d := Next(c, Swap);
    StepKeepsInv(s, Poll(true));
    StepKeepsInv(a, ReadWakeup);
    StepKeepsInv(b, SetCalling);
    StepKeepsInv(c, Swap);
    var rest := RunBatch(d);
    LoopCons(c, Swap, rest);
    LoopCons(b, SetCalling, [Swap] + rest);
    LoopCons(a, ReadWakeup, [SetCalling] + ([Swap] + rest));
    LoopCons(s, Poll(true), [ReadWakeup] + ([SetCalling] + ([Swap] + rest)));
    steps := [Poll(true)] + ([ReadWakeup] + ([SetCalling] + ([Swap] + rest)));
  }

  /** One more step of the loop alone. */
  lemma LoopCons(s: State, step: Step, rest: seq<Step>)
    requires Enabled(s, step) && IsRun(Next(s, step), rest) && OfLoop(step) && !step.LoopPush?
    requires PushedBy(rest) == [] && forall other :: other in rest ==> OfLoop(other)
    ensures IsRun(s, [step] + rest) && Exec(s, [step] + rest) == Exec(Next(s, step), rest)
    ensures PushedBy([step] + rest) == [] && forall other :: other in [step] + rest ==> OfLoop(other)
    ensures ClearCalling in rest ==> ClearCalling in [step] + rest
  {
    assert ([step] + rest)[1..] == rest;
  }

  /** A loop at its poll with nobody in the middle of a hand-off needs no timeout: if anything is queued the poll is
      woken, and stepping on alone the loop runs everything queued so far, by whichever thread. */
  lemma PollDelivers(threads: nat, before: seq<Step>) returns (steps: seq<Step>)
    requires IsRun(Init(threads), before)
    requires var s := Exec(Init(threads), before); s.pc.Polling? && s.pending != [] && !s.early && Owing !in s.callers
    ensures IsRun(Exec(Init(threads), before), steps) && steps != [] && steps[0] == Poll(true)
    ensures Exec(Exec(Init(threads), before), steps).ran == PushedBy(before)
    ensures forall step :: step in steps ==> OfLoop(step)
  {
    var s := Exec(Init(threads), before);
    InitInv(threads);
    RunKeepsInv(Init(threads), before);
    steps := WokenRound(s);
    RoundRunsAll(threads, before, steps);
    LabelsDecide(Init(threads), before);
    LabelsDecide(s, steps);
    RunKeepsInv(s, steps);
    var t := Exec(s, steps);
    assert t.ran + t.batch + t.pending == PushedBy(before);
  }

  // ---------------------------------------------------------------- quitting

  /** A quit is withdrawn by a later start of the loop and by nothing else: as long as nobody asks again, it is still
      there if and only if the loop has not been started since. */
  lemma {:induction false} QuitStays(s: State, steps: seq<Step>)
    requires IsRun(s, steps) && s.quit && forall step :: step in steps ==> !AsksToQuit(step)
    ensures Exec(s, steps).quit <==> Start !in steps
  {
    LabelsDecide(s, steps);
    QuitByStart(true, steps);
  }

  lemma {:induction false} QuitByStart(quit: bool, steps: seq<Step>)
    requires forall step :: step in steps ==> !AsksToQuit(step)
    ensures QuitBy(quit, steps) <==> quit && Start !in steps
    decreases |steps|
  {
    if steps != [] {
      assert !AsksToQuit(steps[0]) && forall step :: step in steps[1..] ==> step in steps;
      assert steps == [steps[0]] + steps[1..];
      QuitByStart(quit && !steps[0].Start?, steps[1..]);
    }
  }

  /** Once it is asked to quit, the loop waits at most once more, and not at all unless it is at its poll already. */
  lemma {:induction false} QuitEndsPolling(s: State, steps: seq<Step>)
    requires IsRun(s, steps) && s.quit && Start !in steps
    ensures Polls(steps) <= if s.pc.Polling? then 1 else 0
    ensures s.pc.Idle? ==> Exec(s, steps).pc.Idle?
    decreases |steps|
  {
    if steps != [] {
      assert steps[0] != Start && forall step :: step in steps[1..] ==> step in steps;
      QuitEndsPolling(Next(s, steps[0]), steps[1..]);
    }
  }

  /** A loop that waits in its poll and is asked to quit is woken without a timeout and, alone, gets out of `loop()`. */
  lemma QuitDelivers(threads: nat, before: seq<Step>) returns (steps: seq<Step>)
    requires IsRun(Init(threads), before) && QuitBy(false, before)
    requires var s := Exec(Init(threads), before); s.pc.Polling? && Owing !in s.callers
    ensures IsRun(Exec(Init(threads), before), steps) && steps != [] && steps[0] == Poll(true)
    ensures Exec(Exec(Init(threads), before), steps).pc.Idle? && forall step :: step in steps ==> OfLoop(step)
  {
    var s := Exec(Init(threads), before);
    InitInv(threads);
    RunKeepsInv(Init(threads), before);
    LabelsDecide(Init(threads), before);
    var round := WokenRound(s);
    RunSnoc(s, round, TestQuit);
    steps := round + [TestQuit];
  }

  lemma {:induction false} RunSnoc(s: State, steps: seq<Step>, last: Step)
    requires IsRun(s, steps) && Enabled(Exec(s, steps), last)
    ensures IsRun(s, steps + [last]) && Exec(s, steps + [last]) == Next(Exec(s, steps), last)
    decreases |steps|
  {
    if steps == [] {
      RunCons(s, last, []);
      assert steps + [last] == [last] + [];
    } else {
      RunSnoc(Next(s, steps[0]), steps[1..], last);
      assert steps + [last] == [steps[0]] + (steps[1..] + [last]);
      RunCons(s, steps[0], steps[1..] + [last]);
    }
  }

  lemma RunCons(s: State, step: Step, rest: seq<Step>)
    requires Enabled(s, step) && IsRun(Next(s, step), rest)
    ensures IsRun(s, [step] + rest) && Exec(s, [step] + rest) == Exec(Next(s, step), rest)
  {
    assert ([step] + rest)[1..] == rest;
  }

  /** A quit that comes before loop() begins is lost: the start overwrites it, its wakeup is read in the first round,
      and the loop goes back to waiting as if nobody had asked. */
  lemma EarlyQuitIsLost(s: State) returns (steps: seq<Step>)
    requires s.pc.Idle? && s.quit && s.pending == [] && s.batch == [] && !s.owes && Owing !in s.callers
    ensures IsRun(s, steps)
    ensures forall step :: step in steps ==> !step.LoopPush? && !step.CallerPush? && !step.CallerWake?
    ensures Exec(s, steps).pc.Polling? && !Exec(s, steps).quit && !WakeupComing(Exec(s, steps))
  {
    var started := Next(s, Start);
    var polling := Next(started, TestQuit);
    steps := [];
    if s.counter > 0 {
      steps := QuietRound(polling);
    }
    RunCons(started, TestQuit, steps);
    RunCons(s, Start, [TestQuit] + steps);
    steps := [Start] + ([TestQuit] + steps);
  }

  /** A woken round with nothing queued and no quit leads back to the poll with the eventfd empty. */
  lemma QuietRound(s: State) returns (steps: seq<Step>)
    requires s.pc.Polling? && s.counter > 0 && s.pending == [] && s.batch == [] && !s.quit && !s.owes
    ensures IsRun(s, steps)
    ensures forall step :: step in steps ==> !step.LoopPush? && !step.CallerPush? && !step.CallerWake?
    ensures Exec(s, steps) == s.(counter := 0, calling := false, early := false)
  {
    var a := Next(s, Poll(true));
    var b := Next(a, ReadWakeup);
    var c := Next(b, SetCalling);
    var d := Next(c, Swap);
    var e := Next(d, ClearCalling);
    RunCons(e, TestQuit, []);
    RunCons(d, ClearCalling, [TestQuit] + []);
    RunCons(c, Swap, [ClearCalling] + ([TestQuit] + []));
    RunCons(b, SetCalling, [Swap] + ([ClearCalling] + ([TestQuit] + [])));
    RunCons(a, ReadWakeup, [SetCalling] + ([Swap] + ([ClearCalling] + ([TestQuit] + []))));
    steps := [ReadWakeup] + ([SetCalling] + ([Swap] + ([ClearCalling] + ([TestQuit] + []))));
    RunCons(s, Poll(true), steps);
    steps := [Poll(true)] + steps;
  }

  /** A functor queued on the loop's own thread before loop() begins wakes nobody: without a timeout or another event
      the first poll does not return. */
  lemma EarlyPushSleeps(s: State, f: Functor) returns (steps: seq<Step>)
    requires s.pc.Idle? && s.counter == 0 && !s.calling && !s.owes && Owing !in s.callers
    ensures steps != [] && steps[0] == LoopPush(f) && IsRun(s, steps)
    ensures Exec(s, steps).pc.Polling? && Exec(s, steps).pending == s.pending + [f]
    ensures !WakeupComing(Exec(s, steps))
  {
    var a := Next(s, LoopPush(f));
    var b := Next(a, Start);
    RunCons(b, TestQuit, []);
    RunCons(a, Start, [TestQuit] + []);
    steps := [Start] + ([TestQuit] + []);
    RunCons(s, LoopPush(f), steps);
    steps := [LoopPush(f)] + steps;
  }
}

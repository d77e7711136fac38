/** From the calls of `push` to the tickets, read off the steps of a run alone: every line that is pushed gets exactly
    one ticket, unless its producer is still waiting for one, and each producer's tickets come in the order of its
    calls. */
module LogBufferQueueCalls {
  import opened Util
  import opened LogBufferQueue
  import opened LogBufferQueueInvariant
  import opened LogBufferQueueProof
  import opened LogBufferQueueTheorems

  /** A call of `push`: by which producer, with what line. */
  datatype Pushed = Pushed(p: nat, line: Line)

  function CallOf(step: Step): seq<Pushed> {
    if step.Call? then [Pushed(step.p, step.line)] else []
  }

  /** The calls of a run, in order. */
  function Calls(steps: seq<Step>): seq<Pushed> {
    if steps == [] then [] else CallOf(steps[0]) + Calls(steps[1..])
  }

  function Lines(calls: seq<Pushed>): seq<Line> {
    if calls == [] then [] else Lines(calls[..|calls| - 1]) + [calls[|calls| - 1].line]
  }

  /** The lines that producer `p` pushed, in order. */
  function LinesOf(calls: seq<Pushed>, p: nat): seq<Line> {
    if calls == [] then []
    else
      var last := calls[|calls| - 1];
      LinesOf(calls[..|calls| - 1], p) + if last.p == p then [last.line] else []
  }

  /** The lines of `lines` that are `p`'s, when line `i` is `who[i]`'s. */
  function Pick(lines: seq<Line>, who: seq<nat>, p: nat): seq<Line>
    requires |who| == |lines|
  {
    if lines == [] then []
    else
      var n := |lines| - 1;
      Pick(lines[..n], who[..n], p) + if who[n] == p then [lines[n]] else []
  }

  /** The line of a producer that has been called and has no ticket yet. */
  function InHand(pc: Producer): seq<Line> {
    match pc
    case Calling(line) => [line]
    case Spinning(line) => [line]
    case _ => []
  }

  function InHands(producers: seq<Producer>): multiset<Line> {
    if producers == [] then multiset{} else multiset(InHand(producers[0])) + InHands(producers[1..])
  }

  /** `who` says whose tickets they are: each producer's, followed by the line in its hand, are its calls in order. */
  ghost predicate Attributed(s: State, who: seq<nat>, calls: seq<Pushed>) {
    && |who| == |s.tickets|
    && (forall i :: 0 <= i < |who| ==> who[i] < |s.producers|)
    && forall p: nat :: p < |s.producers| ==> Pick(s.tickets, who, p) + InHand(s.producers[p]) == LinesOf(calls, p)
  }

  /** No line is lost or made up. */
  predicate Accounted(s: State, calls: seq<Pushed>) {
    multiset(s.tickets) + InHands(s.producers) == multiset(Lines(calls))
  }

  // ---------------------------------------------------------------- one step

  lemma {:induction false} HandsChange(producers: seq<Producer>, p: nat, pc: Producer)
    requires p < |producers|
    ensures InHands(producers[p := pc]) + multiset(InHand(producers[p])) == InHands(producers) + multiset(InHand(pc))
    decreases |producers|
  {
    hide InHand;
    var next := producers[p := pc];
    if p == 0 {
      assert next[1..] == producers[1..] && next[0] == pc;
    } else {
      HandsChange(producers[1..], p - 1, pc);
      assert next[1..] == producers[1..][p - 1 := pc] && next[0] == producers[0];
      Besides(multiset(InHand(producers[0])), InHands(next[1..]), multiset(InHand(producers[p])),
              InHands(producers[1..]), multiset(InHand(pc)));
    }
  }

  lemma Besides(a: multiset<Line>, b: multiset<Line>, c: multiset<Line>, d: multiset<Line>, e: multiset<Line>)
    requires b + c == d + e
    ensures a + b + c == a + d + e
  {
    assert a + b + c == a + (b + c);
  }

  lemma LinesSnoc(calls: seq<Pushed>, c: Pushed)
    ensures Lines(calls + [c]) == Lines(calls) + [c.line]
    ensures forall p :: LinesOf(calls + [c], p) == LinesOf(calls, p) + if c.p == p then [c.line] else []
  {
    assert (calls + [c])[..|calls|] == calls;
  }

  lemma PickSnoc(lines: seq<Line>, who: seq<nat>, line: Line, p: nat)
    requires |who| == |lines|
    ensures forall q :: Pick(lines + [line], who + [p], q) == Pick(lines, who, q) + if p == q then [line] else []
  {
    assert (lines + [line])[..|lines|] == lines && (who + [p])[..|who|] == who;
  }

  /** What a step means for the line in a producer's hand, for the tickets and for the calls: the line comes with the
      call, stays in hand until there is a ticket for it, and then is the newest ticket's. */
  predicate MovesLine(s: State, t: State, step: Step) {
    && |t.producers| == |s.producers|
    && if IsReaderStep(step) then t.tickets == s.tickets && t.producers == s.producers
       else
         && step.p < |s.producers| && t.producers == s.producers[step.p := t.producers[step.p]]
         && var before, after := InHand(s.producers[step.p]), InHand(t.producers[step.p]);
            && (step.Call? ==> before == [] && after == [step.line] && t.tickets == s.tickets)
            && (!step.Call? ==> (after == before && t.tickets == s.tickets) || TakesTicket(s, t, before, after))
  }

  predicate TakesTicket(s: State, t: State, before: seq<Line>, after: seq<Line>) {
    after == [] && |before| == 1 && t.tickets == s.tickets + before
  }

  lemma StepMovesLine(cfg: Config, s: State, step: Step)
    requires Enabled(cfg, s, step)
    ensures MovesLine(s, Next(cfg, s, step), step)
  {
  }

  /** Whose the newest ticket is. */
  function Whose(s: State, t: State, step: Step, who: seq<nat>): seq<nat> {
    if IsReaderStep(step) || t.tickets == s.tickets then who else who + [step.p]
  }

  lemma OneAttributed(s: State, t: State, step: Step, who: seq<nat>, calls: seq<Pushed>, p: nat)
    requires MovesLine(s, t, step) && |who| == |s.tickets| && p < |s.producers|
    requires Pick(s.tickets, who, p) + InHand(s.producers[p]) == LinesOf(calls, p)
    ensures |Whose(s, t, step, who)| == |t.tickets|
    ensures Pick(t.tickets, Whose(s, t, step, who), p) + InHand(t.producers[p]) == LinesOf(calls + CallOf(step), p)
  {
    hide InHand, LinesOf, Pick;
    if step.Call? {
      LinesSnoc(calls, Pushed(step.p, step.line));
    } else {
      assert calls + CallOf(step) == calls;
      if !IsReaderStep(step) && t.tickets != s.tickets {
        var before := InHand(s.producers[step.p]);
        assert before == [before[0]];
        PickSnoc(s.tickets, who, before[0], step.p);
      }
    }
  }

  lemma StepAttributes(cfg: Config, s: State, step: Step, who: seq<nat>, calls: seq<Pushed>) returns (who': seq<nat>)
    requires Enabled(cfg, s, step) && Attributed(s, who, calls)
    ensures Attributed(Next(cfg, s, step), who', calls + CallOf(step)) && who <= who'
  {
    hide Enabled, Next, MovesLine, InHand, LinesOf, Pick, CallOf;
    StepMovesLine(cfg, s, step);
    var t := Next(cfg, s, step);
    who' := Whose(s, t, step, who);
    ProducersStay(s, t, step);
    forall p: nat | p < |t.producers|
      ensures Pick(t.tickets, who', p) + InHand(t.producers[p]) == LinesOf(calls + CallOf(step), p)
    {
      OneAttributed(s, t, step, who, calls, p);
    }
  }

  lemma ProducersStay(s: State, t: State, step: Step)
    requires MovesLine(s, t, step)
    ensures |t.producers| == |s.producers| && (IsReaderStep(step) || step.p < |s.producers|)
    ensures t.tickets == s.tickets || (!IsReaderStep(step) && |t.tickets| == |s.tickets| + 1)
  {
  }

  lemma StepAccounts(cfg: Config, s: State, step: Step, calls: seq<Pushed>)
    requires Enabled(cfg, s, step) && Accounted(s, calls)
    ensures Accounted(Next(cfg, s, step), calls + CallOf(step))
  {
    hide Enabled, Next, MovesLine, Accounted, CallOf;
    StepMovesLine(cfg, s, step);
    MoveAccounts(s, Next(cfg, s, step), step, calls);
  }

  lemma MoveAccounts(s: State, t: State, step: Step, calls: seq<Pushed>)
    requires MovesLine(s, t, step) && Accounted(s, calls)
    ensures Accounted(t, calls + CallOf(step))
  {
    hide Lines, InHands, InHand;
    if IsReaderStep(step) {
      assert calls + CallOf(step) == calls;
    } else {
      var before, after := InHand(s.producers[step.p]), InHand(t.producers[step.p]);
      HandsChange(s.producers, step.p, t.producers[step.p]);
      if step.Call? {
        LinesSnoc(calls, Pushed(step.p, step.line));
        Fills(multiset(s.tickets), InHands(s.producers), InHands(t.producers), Lines(calls), step.line);
      } else {
        assert calls + CallOf(step) == calls;
        Empties(InHands(s.producers), before, InHands(t.producers), after, s.tickets, t.tickets);
      }
    }
  }

  /** One hand is filled. */
  lemma Fills(tickets: multiset<Line>, hands: multiset<Line>, hands': multiset<Line>, lines: seq<Line>, line: Line)
    requires tickets + hands == multiset(lines) && hands' + multiset([]) == hands + multiset([line])
    ensures tickets + hands' == multiset(lines + [line])
  {
    assert hands' == hands + multiset([line]);
    assert multiset(lines + [line]) == multiset(lines) + multiset([line]);
  }

  /** One hand stays as it is, or its line becomes the newest ticket's. */
  lemma Empties(hands: multiset<Line>, before: seq<Line>, hands': multiset<Line>, after: seq<Line>,
                tickets: seq<Line>, tickets': seq<Line>)
    requires hands' + multiset(before) == hands + multiset(after)
    requires (after == before && tickets' == tickets) || (after == [] && tickets' == tickets + before)
    ensures multiset(tickets') + hands' == multiset(tickets) + hands
  {
    if after == before && tickets' == tickets {
      assert hands' == hands' + multiset(before) - multiset(before);
    } else {
      assert hands == hands + multiset(after) == hands' + multiset(before);
      assert multiset(tickets') == multiset(tickets) + multiset(before);
    }
  }

  // ---------------------------------------------------------------- whole runs

  lemma {:induction false} RunAttributes(cfg: Config, s: State, steps: seq<Step>, who: seq<nat>, calls: seq<Pushed>)
    returns (who': seq<nat>)
    requires IsRun(cfg, s, steps) && Attributed(s, who, calls) && Accounted(s, calls)
    ensures Attributed(Exec(cfg, s, steps), who', calls + Calls(steps))
    ensures Accounted(Exec(cfg, s, steps), calls + Calls(steps))
    decreases |steps|
  {
    hide Enabled, Next, Attributed, Accounted, CallOf;
    if steps == [] {
      who' := who;
      assert calls + Calls(steps) == calls;
    } else {
      who' := StepAttributes(cfg, s, steps[0], who, calls);
      StepAccounts(cfg, s, steps[0], calls);
      who' := RunAttributes(cfg, Next(cfg, s, steps[0]), steps[1..], who', calls + CallOf(steps[0]));
      assert calls + CallOf(steps[0]) + Calls(steps[1..]) == calls + Calls(steps);
    }
  }

  lemma {:induction false} NothingInHands(producers: seq<Producer>)
    requires forall p :: 0 <= p < |producers| ==> InHand(producers[p]) == []
    ensures InHands(producers) == multiset{}
    decreases |producers|
  {
    if producers != [] { NothingInHands(producers[1..]); }
  }

  lemma InitAttributes(cfg: Config, threads: nat)
    ensures Attributed(Init(cfg, threads), [], []) && Accounted(Init(cfg, threads), [])
  {
    NothingInHands(Init(cfg, threads).producers);
  }

  /** In every run every line that was pushed has one ticket, or is in the hand of a producer that waits for one; and
      the tickets of each producer are its calls, in order. */
  lemma EveryCallGetsItsTicket(cfg: Config, threads: nat, steps: seq<Step>) returns (who: seq<nat>)
    requires IsRun(cfg, Init(cfg, threads), steps)
    ensures Attributed(Exec(cfg, Init(cfg, threads), steps), who, Calls(steps))
    ensures Accounted(Exec(cfg, Init(cfg, threads), steps), Calls(steps))
  {
    InitAttributes(cfg, threads);
    who := RunAttributes(cfg, Init(cfg, threads), steps, [], []);
    assert [] + Calls(steps) == Calls(steps);
  }

  lemma {:induction false} PickPrefix(lines: seq<Line>, who: seq<nat>, n: nat, p: nat)
    requires |who| == |lines| && n <= |lines|
    ensures Pick(lines[..n], who[..n], p) <= Pick(lines, who, p)
    decreases |lines|
  {
    if n < |lines| {
      var m := |lines| - 1;
      PickPrefix(lines[..m], who[..m], n, p);
      assert lines[..m][..n] == lines[..n] && who[..m][..n] == who[..n];
    } else {
      assert lines[..n] == lines && who[..n] == who;
    }
  }

  /** End to end, with flags cleared on consumption or for a run that never reuses a buffer: what the consumer has of
      each producer are the first lines that it pushed, in order. */
  lemma EveryLineArrivesInOrder(cfg: Config, threads: nat, steps: seq<Step>) returns (who: seq<nat>)
    requires cfg.slots > 0 && IsRun(cfg, Init(cfg, threads), steps)
    requires cfg.clears || NeverReuses(cfg, Init(cfg, threads), steps)
    ensures (
      var s := Exec(cfg, Init(cfg, threads), steps);
      && |who| == |s.popped| && (forall i :: 0 <= i < |who| ==> who[i] < threads)
      && (forall p: nat :: p < threads ==> Pick(s.popped, who, p) <= LinesOf(Calls(steps), p))
      && multiset(s.popped) <= multiset(Lines(Calls(steps))))
  {
    hide Inv, Enabled, Next;
    var all := EveryCallGetsItsTicket(cfg, threads, steps);
    InitInv(cfg, threads);
    RunKeepsInv(cfg, Init(cfg, threads), steps);
    var s := Exec(cfg, Init(cfg, threads), steps);
    InvImpliesFifo(cfg, s);
    ThreadsStay(cfg, Init(cfg, threads), steps);
    who := Front(s, all, Calls(steps));
  }

  lemma Front(s: State, all: seq<nat>, calls: seq<Pushed>) returns (who: seq<nat>)
    requires Attributed(s, all, calls) && Accounted(s, calls) && s.popped <= s.tickets
    ensures |who| == |s.popped| && (forall i :: 0 <= i < |who| ==> who[i] < |s.producers|)
    ensures forall p: nat :: p < |s.producers| ==> Pick(s.popped, who, p) <= LinesOf(calls, p)
    ensures multiset(s.popped) <= multiset(Lines(calls))
  {
    hide Pick, LinesOf, Lines, InHands;
    who := all[..|s.popped|];
    assert s.tickets[..|s.popped|] == s.popped;
    assert s.tickets == s.popped + s.tickets[|s.popped|..];
    forall p: nat | p < |s.producers|
      ensures Pick(s.popped, who, p) <= LinesOf(calls, p)
    {
      PickPrefix(s.tickets, all, |s.popped|, p);
      assert Pick(s.tickets, all, p) <= LinesOf(calls, p);
    }
  }

  lemma {:induction false} ThreadsStay(cfg: Config, s: State, steps: seq<Step>)
    requires IsRun(cfg, s, steps)
    ensures |Exec(cfg, s, steps).producers| == |s.producers|
    decreases |steps|
  {
    if steps != [] {
      StepMovesLine(cfg, s, steps[0]);
      ThreadsStay(cfg, Next(cfg, s, steps[0]), steps[1..]);
    }
  }

  /** An idle producer can call `push` at any time, with any line. */
  lemma IdleCanCall(cfg: Config, s: State, p: nat, line: Line)
    requires p < |s.producers|
    ensures Enabled(cfg, s, Call(p, line)) <==> s.producers[p].Idle?
    ensures s.producers[p].Idle? ==> Next(cfg, s, Call(p, line)).producers[p] == Calling(line)
  {
  }
}

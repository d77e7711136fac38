/** The background thread of the asynchronous logger (util/AsyncLogger.cpp:32-48): it interleaves with any number
    of producers while the logger runs, and drains the queue once it sees the shutdown. */
module AsyncLogger {
  import opened Util
  import opened LogBufferQueue
  import opened LogBufferQueueCalls
  import opened LogBufferQueueInvariant
  import opened LogBufferQueueProof
  import opened LogBufferQueueTheorems

  class AsyncLogger {
    const cfg: Config
    var queue: State        // buffer_queue_
    var held: Option<Line>  // the line `pop` has returned and `write` has not been given yet
    var file: seq<Line>     // the lines log_file_ has been given
    ghost var called: seq<Pushed>  // the calls of `push` so far
    ghost var who: seq<nat>        // whose tickets they are

    constructor (cfg: Config, threads: nat)
      requires cfg.slots > 0
      ensures Valid() && this.cfg == cfg && queue == Init(cfg, threads) && file == [] && called == []
    {
      this.cfg, queue, held, file, called, who := cfg, Init(cfg, threads), None, [], [], [];
      new;
      InitInv(cfg, threads);
      InitAttributes(cfg, threads);
    }

    /** What `pop` has returned is in the file, except the line that is held. */
    ghost predicate Written()
      reads this
    {
      (held.Some? ==> queue.reader.Ready?) && file <= queue.popped &&
      if InFlight(queue.reader) then |queue.popped| == |file| + 1
      else if held.Some? then queue.popped == file + [held.value]
      else queue.popped == file
    }

    ghost predicate Valid()
      reads this
    {
      Inv(cfg, queue) && Written() && Attributed(queue, who, called) && Accounted(queue, called)
    }

    /** Every producer has returned from `push`. */
    ghost predicate ProducersDone()
      reads this
    {
      forall p :: 0 <= p < |queue.producers| ==> queue.producers[p].Idle?
    }

    /** A producer takes any step; the written form is trusted only as long as no buffer is reused. */
    method Produce(step: Step)
      requires Valid() && !IsReaderStep(step) && Enabled(cfg, queue, step) && (cfg.clears || !Reuses(queue, step))
      modifies this`queue, this`called, this`who
      ensures Valid() && queue == Next(cfg, old(queue), step)
      ensures called == old(called) + if step.Call? then [Pushed(step.p, step.line)] else []
    {
      hide Inv, Next, Enabled, Reuses, Attributed, Accounted;
      ProducerFrame(cfg, queue, step);
      StepKeepsInv(cfg, queue, step);
      who := StepAttributes(cfg, queue, step, who, called);
      StepAccounts(cfg, queue, step, called);
      queue, called := Next(cfg, queue, step), called + CallOf(step);
    }

    /** One atomic access of the consumer inside `pop`. */
    method Access()
      requires Valid() && held.None? && !queue.locked && !PopFails(queue)
      modifies this`queue, this`held
      ensures Valid() && !queue.locked
      ensures queue.producers == old(queue.producers) && queue.tickets == old(queue.tickets)
      ensures 0 <= Rank(queue) < Rank(old(queue))
    {
      hide Inv, Rank, PopFails, Next, Enabled, ReaderStep, LinesOf, Pick, Lines, InHands, InHand;
      ReaderAccess(cfg, queue);
      var wasInFlight := InFlight(queue.reader);
      queue := Next(cfg, queue, ReaderStep(queue));
      if wasInFlight && queue.reader.Ready? {
        held := Some(queue.popped[|queue.popped| - 1]);
      }
    }

    /** `log_file_->write(log_line)`. */
    method Write()
      requires Valid() && held.Some?
      modifies this`file, this`held
      ensures Valid() && held.None? && file == old(file) + [old(held.value)]
    {
      file := file + [held.value];
      held := None;
    }

    /** Runs a call of `pop` to its end, from wherever it stands: it returns with a line held, or fails. */
    method Pop()
      requires Valid() && held.None? && !queue.locked
      modifies this`queue, this`held
      ensures Valid() && !queue.locked && (held.None? ==> PopFails(queue))
      ensures queue.producers == old(queue.producers) && queue.tickets == old(queue.tickets)
      ensures 0 <= Rank(queue) <= Rank(old(queue)) && (held.Some? ==> Rank(queue) < Rank(old(queue)))
    {
      CoreLengths(cfg, queue);
      while held.None? && !PopFails(queue)
        invariant Valid() && !queue.locked
        invariant queue.producers == old(queue.producers) && queue.tickets == old(queue.tickets)
        invariant 0 <= Rank(queue) <= Rank(old(queue)) && (held.Some? ==> Rank(queue) < Rank(old(queue)))
        decreases Rank(queue)
      {
        Access();
      }
    }

    /** What the thread does once it sees the shutdown, wherever it stood when the shutdown was stored: it finishes
        the call of `pop` it is in, writes that line, and drains.  If the producers are done, it stops with every
        line that was passed to `push` written exactly once, in ticket order, and each producer's in call order. */
    method FinishAndDrain()
      requires Valid() && ProducersDone()
      modifies this`queue, this`held, this`file
      ensures Valid() && file == queue.tickets == old(queue.tickets) && held.None?
      ensures multiset(file) == multiset(Lines(called)) && |who| == |file|
      ensures forall p: nat :: p < |queue.producers| ==> Pick(file, who, p) == LinesOf(called, p)
    {
      hide Inv, Attributed, Accounted, PopFails, Rank, Pick, LinesOf, Lines;
      NobodyHoldsTheLock();
      if held.Some? {
        Write();
      }
      Pop();
      while held.Some?
        invariant Valid() && ProducersDone() && !queue.locked && (held.None? ==> PopFails(queue))
        invariant queue.tickets == old(queue.tickets) && 0 <= Rank(queue)
        decreases Rank(queue), held.Some?
      {
        Write();
        Pop();
      }
      AllWritten();
      EmptyHands();
    }

    lemma AllWritten()
      requires Inv(cfg, queue) && Written() && ProducersDone() && held.None? && PopFails(queue)
      ensures file == queue.tickets
    {
      NobodyHoldsTheLock();
      hide Inv, Core;
      FailedPopIsEmpty(cfg, queue);
    }

    /** Once the producers have returned, the tickets are the lines of their calls. */
    lemma EmptyHands()
      requires Attributed(queue, who, called) && Accounted(queue, called) && ProducersDone()
      ensures multiset(queue.tickets) == multiset(Lines(called)) && |who| == |queue.tickets|
      ensures forall p: nat :: p < |queue.producers| ==> Pick(queue.tickets, who, p) == LinesOf(called, p)
    {
      hide Pick, LinesOf, Lines;
      NothingInHands(queue.producers);
      forall p: nat | p < |queue.producers|
        ensures Pick(queue.tickets, who, p) == LinesOf(called, p)
      {
        assert Pick(queue.tickets, who, p) + InHand(queue.producers[p]) == LinesOf(called, p);
      }
    }

    lemma NobodyHoldsTheLock()
      requires Inv(cfg, queue) && ProducersDone()
      ensures !queue.locked && queue.h.unset == {} && Core(cfg, queue) && 0 <= Rank(queue)
    {
    }
  }
}

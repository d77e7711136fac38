/** The connections of the teardown protocol are the modelled ones: whatever happens to a `TcpConnection`, over any
    sequence of events, is a run of the server on that connection, with as many forced closes queued in the one as in
    the other; and an assertion that fails in the connection fails in the server. */
module ConnectionRefinement {
  import opened ConnectionLife
  import opened Util
  import B = Buffer
  import C = TcpConnection
  import S = TcpServer

  /** Server steps on connection `k`, and what its loop does to get to the tasks of `k`: it runs the heads of its queue,
      having dispatched the events that they wait for. */
  predicate On(step: S.Step, k: nat, loop: nat) {
    match step
    case NewConnection(_) => false
    case RunTask(l) => l == loop
    case Poll(c) => c == k
    case Dispatch(_) => true
    case CloseEvent(c) => c == k
    case CloseTwice(c) => c == k
    case User(c, _) => c == k
  }

  predicate AllOn(steps: seq<S.Step>, k: nat, loop: nat) {
    forall step :: step in steps ==> On(step, k, loop)
  }

  /** The connection is in the server's state what it is on its own. */
  ghost predicate Matches(s: S.State, k: nat, c: C.TcpConnection, polled: bool)
    reads c
  {
    k < |s.conns| && s.conns[k].view == c.Life() && s.conns[k].polled == polled
  }

  lemma Cons(s: S.State, k: nat, loop: nat, step: S.Step, rest: seq<S.Step>)
    requires S.Enabled(s, step) && S.IsRun(S.Next(s, step), rest) && On(step, k, loop) && AllOn(rest, k, loop)
    ensures S.IsRun(s, [step] + rest) && S.Exec(s, [step] + rest) == S.Exec(S.Next(s, step), rest)
    ensures AllOn([step] + rest, k, loop)
  {
    S.RunCons(s, step, rest);
  }

  lemma {:induction false} Append(s: S.State, k: nat, loop: nat, a: seq<S.Step>, b: seq<S.Step>)
    requires S.IsRun(s, a) && S.IsRun(S.Exec(s, a), b) && AllOn(a, k, loop) && AllOn(b, k, loop)
    ensures S.IsRun(s, a + b) && S.Exec(s, a + b) == S.Exec(S.Exec(s, a), b) && AllOn(a + b, k, loop)
    decreases |a|
  {
    hide S.Enabled, S.Next;
    if a == [] {
      assert a + b == b;
    } else {
      assert a[0] in a && forall step :: step in a[1..] ==> step in a;
      Append(S.Next(s, a[0]), k, loop, a[1..], b);
      assert a + b == [a[0]] + (a[1..] + b);
      S.RunCons(s, a[0], a[1..] + b);
    }
  }

  // ---------------------------------------------------------------- single steps

  lemma UserMoveIsStep(s: S.State, k: nat, m: Move)
    requires S.Inv(s) && k < |s.conns| && IsUserMove(m) && May(s.conns[k].view, m)
    ensures S.Enabled(s, S.User(k, m)) && S.Inv(S.Next(s, S.User(k, m)))
    ensures (
      var t := S.Next(s, S.User(k, m));
      |t.conns| == |s.conns| && t.conns[k] == s.conns[k].(view := Moved(s.conns[k].view, m)))
  {
    S.AbortsExactly(s, S.User(k, m));
    S.StepKeepsInv(s, S.User(k, m));
  }

  /** The server's state when user code has led connection `k` to the view `w`: for every forced close that was asked
      for there is a task more. */
  function Sync(s: S.State, k: nat, w: View): S.State
    requires k < |s.conns| && s.conns[k].loop < |s.queues|
  {
    var k0 := s.conns[k];
    var more: nat := if w.forces >= k0.view.forces then w.forces - k0.view.forces else 0;
    s.(conns := s.conns[k := k0.(view := w)],
       queues := s.queues[k0.loop := s.queues[k0.loop] + seq(more, _ => S.ForceClose(k))])
  }

  lemma InLoops(s: S.State, k: nat)
    requires S.Inv(s) && k < |s.conns|
    ensures s.conns[k].loop < |s.queues| && s.aborted.None?
  {
    S.About(s, k);
  }

  lemma SyncStep(s: S.State, k: nat, m: Move, w: View)
    requires k < |s.conns| && S.InRange(s) && IsUserMove(m) && May(s.conns[k].view, m)
    requires w.forces >= Moved(s.conns[k].view, m).forces
    ensures Moved(s.conns[k].view, m).forces >= s.conns[k].view.forces
    ensures Sync(S.DoUser(s, k, m), k, w) == Sync(s, k, w)
  {
    var k0 := s.conns[k];
    var t := S.DoUser(s, k, m);
    var more := w.forces - k0.view.forces;
    if m == RequestClose && Open(k0.view.state) {
      assert [S.ForceClose(k)] + seq(more - 1, _ => S.ForceClose(k)) == seq(more, _ => S.ForceClose(k));
      assert s.queues[k0.loop] + [S.ForceClose(k)] + seq(more - 1, _ => S.ForceClose(k)) ==
             s.queues[k0.loop] + seq(more, _ => S.ForceClose(k));
    }
  }

  lemma {:induction false} MovesAreSteps(s: S.State, k: nat, moves: seq<Move>) returns (steps: seq<S.Step>)
    requires S.Inv(s) && k < |s.conns| && MayAll(s.conns[k].view, moves)
    ensures S.IsRun(s, steps) && S.Inv(S.Exec(s, steps)) && AllOn(steps, k, s.conns[k].loop)
    ensures s.conns[k].loop < |s.queues| && MovedAll(s.conns[k].view, moves).forces >= s.conns[k].view.forces
    ensures S.Exec(s, steps) == Sync(s, k, MovedAll(s.conns[k].view, moves))
    decreases |moves|
  {
    InLoops(s, k);
    if moves == [] {
      steps := [];
      assert s.queues[s.conns[k].loop] + seq(0, _ => S.ForceClose(k)) == s.queues[s.conns[k].loop];
    } else {
      UserMoveIsStep(s, k, moves[0]);
      var t := S.Next(s, S.User(k, moves[0]));
      assert t == S.DoUser(s, k, moves[0]) && S.InRange(s);
      hide S.Inv, S.Enabled, S.Next, S.DoUser, Moved, May, Sync;
      var rest := MovesAreSteps(t, k, moves[1..]);
      SyncStep(s, k, moves[0], MovedAll(s.conns[k].view, moves));
      Cons(s, k, s.conns[k].loop, S.User(k, moves[0]), rest);
      steps := [S.User(k, moves[0])] + rest;
    }
  }

  lemma WanderingIsSteps(s: S.State, k: nat, w: View) returns (steps: seq<S.Step>)
    requires S.Inv(s) && k < |s.conns| && Reaches(s.conns[k].view, w)
    ensures s.conns[k].loop < |s.queues|
    ensures S.IsRun(s, steps) && S.Inv(S.Exec(s, steps)) && AllOn(steps, k, s.conns[k].loop)
    ensures S.Exec(s, steps) == Sync(s, k, w)
  {
    var moves :| MayAll(s.conns[k].view, moves) && MovedAll(s.conns[k].view, moves) == w;
    steps := MovesAreSteps(s, k, moves);
  }

  lemma PollIsStep(s: S.State, k: nat)
    requires S.Inv(s) && k < |s.conns| && s.conns[k].view.chan.added
    ensures S.Enabled(s, S.Poll(k)) && S.Inv(S.Next(s, S.Poll(k)))
    ensures S.Next(s, S.Poll(k)).conns == s.conns[k := s.conns[k].(polled := true)]
  {
    S.AbortsExactly(s, S.Poll(k));
    S.StepKeepsInv(s, S.Poll(k));
  }

  lemma DispatchIsStep(s: S.State, k: nat)
    requires S.Inv(s) && k < |s.conns| && s.conns[k].polled
    ensures S.Enabled(s, S.Dispatch(k)) && S.Inv(S.Next(s, S.Dispatch(k)))
    ensures S.Next(s, S.Dispatch(k)) == s.(conns := s.conns[k := s.conns[k].(polled := false)])
  {
    S.AbortsExactly(s, S.Dispatch(k));
    S.StepKeepsInv(s, S.Dispatch(k));
  }

  /** A close that a polled event brings. */
  lemma CloseIsStep(s: S.State, k: nat)
    requires S.Inv(s) && k < |s.conns| && Open(s.conns[k].view.state) && s.conns[k].polled
    ensures S.Enabled(s, S.CloseEvent(k)) && S.Inv(S.Next(s, S.CloseEvent(k)))
    ensures (
      var t := S.Next(s, S.CloseEvent(k));
      && |t.conns| == |s.conns| && t.conns[k].view == Moved(s.conns[k].view, Move.Close)
      && !t.conns[k].polled && t.conns[k].loop == s.conns[k].loop)
  {
    S.AbortsExactly(s, S.CloseEvent(k));
    S.StepKeepsInv(s, S.CloseEvent(k));
  }

  predicate Heads(s: S.State, k: nat, task: S.Task) {
    k < |s.conns| && s.conns[k].loop < |s.queues| && s.queues[s.conns[k].loop] != [] &&
    s.queues[s.conns[k].loop][0] == task
  }

  /** A forced close whose turn has come. */
  lemma ForceIsStep(s: S.State, k: nat)
    requires S.Inv(s) && Heads(s, k, S.ForceClose(k)) && !s.conns[k].polled
    ensures (
      var step := S.RunTask(s.conns[k].loop);
      var v := Moved(s.conns[k].view, TakeForce);
      && S.Enabled(s, step) && S.Inv(S.Next(s, step)) && |S.Next(s, step).conns| == |s.conns|
      && S.Next(s, step).conns[k].view == (if Open(v.state) then Moved(v, Move.Close) else v)
      && !S.Next(s, step).conns[k].polled && S.Next(s, step).conns[k].loop == s.conns[k].loop)
  {
    S.TaskAllowed(s, s.conns[k].loop);
    S.AbortsExactly(s, S.RunTask(s.conns[k].loop));
    S.StepKeepsInv(s, S.RunTask(s.conns[k].loop));
  }

  /** The step of the server for an event that fails the assertion of `handleClose`. */
  function AbortStep(k: nat, state: ConnState): S.Step {
    if Open(state) then S.CloseTwice(k) else S.CloseEvent(k)
  }

  lemma AbortIsStep(s: S.State, k: nat, r: C.Revents, read: B.ReadResult)
    requires S.Inv(s) && k < |s.conns| && s.conns[k].polled && C.ClosesBadly(s.conns[k].view.state, r, read)
    ensures (
      var step := AbortStep(k, s.conns[k].view.state);
      S.Enabled(s, step) && S.Next(s, step).aborted == Some(k) && On(step, k, s.conns[k].loop))
  {
    S.About(s, k);
  }

  // ---------------------------------------------------------------- getting to a forced close

  /** A task of another connection leaves `k` alone and posts behind what is queued. */
  lemma OtherTask(s: S.State, l: nat, k: nat)
    requires S.Inv(s) && S.Enabled(s, S.RunTask(l)) && k < |s.conns| && s.queues[l][0].conn != k
    ensures (
      var t := S.Next(s, S.RunTask(l));
      && (t.aborted.None? ==> S.Inv(t))
      && |t.conns| == |s.conns| && t.conns[k] == s.conns[k]
      && |t.queues| == |s.queues| && s.queues[l][1..] <= t.queues[l])
  {
    S.StepKeepsInv(s, S.RunTask(l));
    S.TaskAllowed(s, l);
    hide S.Inv;
    OthersTask(S.Pop(s, l), s.queues[l][0], k, l);
  }

  lemma OthersTask(s: S.State, task: S.Task, k: nat, l: nat)
    requires S.InRange(s) && task.conn < |s.conns| && k < |s.conns| && task.conn != k && l < |s.queues|
    ensures (
      var t := S.DoTask(s, task);
      && |t.conns| == |s.conns| && t.conns[k] == s.conns[k]
      && |t.queues| == |s.queues| && s.queues[l] <= t.queues[l])
  {
    hide Moved;
  }

  /** The last task of `k`. */
  lemma DestroyIsStep(s: S.State, k: nat)
    requires S.Inv(s) && Heads(s, k, S.Destroy(k)) && !s.conns[k].polled
    ensures (
      var l := s.conns[k].loop;
      var t := S.Next(s, S.RunTask(l));
      && S.Enabled(s, S.RunTask(l)) && s.conns[k].view.state == Disconnected
      && (t.aborted == if Interested(s.conns[k].view.chan) then Some(k) else None)
      && (t.aborted.None? ==>
            && S.Inv(t) && |t.conns| == |s.conns|
            && t.conns[k].view == Moved(s.conns[k].view, Destroy) && !t.conns[k].polled && t.conns[k].loop == l
            && |t.queues| == |s.queues| && s.queues[l][1..] == t.queues[l]))
  {
    S.TaskAllowed(s, s.conns[k].loop);
    S.AbortsExactly(s, S.RunTask(s.conns[k].loop));
    S.StepKeepsInv(s, S.RunTask(s.conns[k].loop));
    S.About(s, k);
    assert S.QueueOk(s.queues[s.conns[k].loop], s.conns[k].loop, k, s.conns[k]);
    S.PopSame(s.queues[s.conns[k].loop]);
    hide S.Inv;
  }

  /** The place of a task in a queue. */
  function Place(q: seq<S.Task>, task: S.Task): nat
    requires task in q
  {
    if q[0] == task then 0 else 1 + Place(q[1..], task)
  }

  lemma {:induction false} PlaceExtends(q: seq<S.Task>, r: seq<S.Task>, task: S.Task)
    requires task in q && q <= r
    ensures task in r && Place(r, task) == Place(q, task)
    decreases |q|
  {
    if q[0] != task {
      assert r[1..][..|q| - 1] == q[1..];
      PlaceExtends(q[1..], r[1..], task);
    }
  }

  lemma ForceQueued(s: S.State, k: nat)
    requires S.Inv(s) && k < |s.conns| && s.conns[k].view.forces > 0
    ensures s.conns[k].loop < |s.queues| && S.ForceClose(k) in s.queues[s.conns[k].loop]
    ensures s.conns[k].view.state != Connecting
  {
    S.About(s, k);
    hide S.Inv;
    assert S.QueueOk(s.queues[s.conns[k].loop], s.conns[k].loop, k, s.conns[k]);
  }

  /** Of the tasks of `k` only its forced closes and its last task can be at the head. */
  lemma HeadOf(s: S.State, k: nat)
    requires S.Inv(s) && k < |s.conns| && s.conns[k].view.forces > 0
    requires s.queues[s.conns[k].loop] != [] && s.queues[s.conns[k].loop][0].conn == k
    ensures s.queues[s.conns[k].loop][0] == S.ForceClose(k) || s.queues[s.conns[k].loop][0] == S.Destroy(k)
  {
    S.About(s, k);
    hide S.Inv;
    assert S.QueueOk(s.queues[s.conns[k].loop], s.conns[k].loop, k, s.conns[k]);
    S.PopSame(s.queues[s.conns[k].loop]);
  }

  /** The loop works through its queue until a forced close of `k` is at the head.  If the last task of `k` comes first,
      it is carried out on the connection as well; if an assertion fails on the way, the process ends. */
  method DrainTo(c: C.TcpConnection, s: S.State, k: nat) returns (steps: seq<S.Step>, t: S.State)
    requires c.Valid() && !c.aborted && S.Inv(s) && Matches(s, k, c, false) && c.Life().forces > 0
    modifies c, c.input, c.output
    ensures c.Valid() && c.Grew() && c.pending == old(c.pending)
    ensures S.IsRun(s, steps) && S.Exec(s, steps) == t && AllOn(steps, k, s.conns[k].loop)
    ensures t.aborted.None? ==>
      && !c.aborted && S.Inv(t) && Matches(t, k, c, false) && Heads(t, k, S.ForceClose(k))
      && t.conns[k].loop == s.conns[k].loop
    ensures c.aborted ==> t.aborted == Some(k)
    decreases (ForceQueued(s, k); Place(s.queues[s.conns[k].loop], S.ForceClose(k))), S.PolledCount(s.conns)
  {
    hide Reaches, Moved, Concat, C.TcpConnection.Streams, C.HalfClose, C.InterestOk, C.Forces, S.Enabled, S.Next, S.Inv;
    var l := s.conns[k].loop;
    ForceQueued(s, k);
    var head := s.queues[l][0];
    S.TaskAllowed(s, l);
    if head == S.ForceClose(k) {
      steps, t := [], s;
    } else if S.Busy(s, l, head.conn) {
      DispatchIsStep(s, head.conn);
      S.PolledChange(s.conns, head.conn, s.conns[head.conn].(polled := false));
      var rest;
      rest, t := DrainTo(c, S.Next(s, S.Dispatch(head.conn)), k);
      Cons(s, k, l, S.Dispatch(head.conn), rest);
      steps := [S.Dispatch(head.conn)] + rest;
    } else {
      var u := S.Next(s, S.RunTask(l));
      var rest := [];
      t := u;
      if head.conn != k {
        OtherTask(s, l, k);
      } else {
        HeadOf(s, k);
        DestroyIsStep(s, k);
        c.ConnectDestroyed([]);
      }
      if u.aborted.None? {
        Closer(s, u, l, k);
        rest, t := DrainTo(c, u, k);
      }
      Cons(s, k, l, S.RunTask(l), rest);
      steps := [S.RunTask(l)] + rest;
    }
  }

  lemma Closer(s: S.State, u: S.State, l: nat, k: nat)
    requires l < |s.queues| && l < |u.queues| && s.queues[l] != [] && s.queues[l][1..] <= u.queues[l]
    requires S.ForceClose(k) in s.queues[l] && s.queues[l][0] != S.ForceClose(k)
    ensures S.ForceClose(k) in u.queues[l]
    ensures Place(u.queues[l], S.ForceClose(k)) < Place(s.queues[l], S.ForceClose(k))
  {
    assert s.queues[l] == [s.queues[l][0]] + s.queues[l][1..];
    PlaceExtends(s.queues[l][1..], u.queues[l], S.ForceClose(k));
  }

  // ---------------------------------------------------------------- events

  /** The server has ended, or stands where the connection stands. */
  ghost predicate Agree(t: S.State, k: nat, c: C.TcpConnection, polled: bool, loop: nat)
    reads c
  {
    t.aborted.Some? || (!c.aborted && S.Inv(t) && Matches(t, k, c, polled) && t.conns[k].loop == loop)
  }

  /** The part of an event that is not user code. */
  function Lead(e: C.Event, added: bool, arrives: bool, k: nat): seq<S.Step> {
    if e.Polled? && added then [S.Poll(k)]
    else if arrives && e.PollEvent? then [if C.Closes(e) then S.CloseEvent(k) else S.Dispatch(k)]
    else []
  }

  lemma LeadIsRun(s: S.State, k: nat, e: C.Event, arrives: bool)
    requires S.Inv(s) && k < |s.conns| && (arrives && e.PollEvent? ==> s.conns[k].polled)
    requires arrives && C.Closes(e) ==> Open(s.conns[k].view.state)
    ensures (
      var lead := Lead(e, s.conns[k].view.chan.added, arrives, k);
      && S.IsRun(s, lead) && S.Inv(S.Exec(s, lead)) && AllOn(lead, k, s.conns[k].loop)
      && |S.Exec(s, lead).conns| == |s.conns| && S.Exec(s, lead).conns[k].loop == s.conns[k].loop
      && S.Exec(s, lead).conns[k].view ==
         (if arrives && C.Closes(e) then Moved(s.conns[k].view, Move.Close) else s.conns[k].view)
      && S.Exec(s, lead).conns[k].polled ==
         if e.Polled? then s.conns[k].polled || s.conns[k].view.chan.added
         else s.conns[k].polled && !(arrives && e.PollEvent?))
  {
    if e.Polled? && s.conns[k].view.chan.added {
      PollIsStep(s, k);
    } else if arrives && e.PollEvent? {
      if C.Closes(e) { CloseIsStep(s, k); } else { DispatchIsStep(s, k); }
    }
    hide S.Inv, S.Enabled, S.Next, Moved;
    var lead := Lead(e, s.conns[k].view.chan.added, arrives, k);
    if lead != [] {
      Cons(s, k, s.conns[k].loop, lead[0], []);
      assert lead == [lead[0]] + [];
    }
  }

  /** An event other than a forced close. */
  method EventRefines(c: C.TcpConnection, e: C.Event, s: S.State, k: nat, polled: bool)
    returns (still: bool, t: S.State, ghost steps: seq<S.Step>)
    requires c.Valid() && !c.aborted && C.MayBePolled(polled, c.state, c.revived)
    requires S.Inv(s) && Matches(s, k, c, polled)
    requires C.Arrives(c, e, polled) && e.TaskEvent? ==> !c.pending[0].ForceCloseTask?
    modifies c, c.input, c.output
    ensures c.Valid() && c.Grew() && (!c.aborted ==> C.MayBePolled(still, c.state, c.revived))
    ensures S.IsRun(s, steps) && S.Exec(s, steps) == t && AllOn(steps, k, s.conns[k].loop)
    ensures Agree(t, k, c, still, s.conns[k].loop)
    ensures c.aborted <==> t.aborted.Some?
    ensures c.aborted ==> t.aborted == Some(k)
  {
    hide Reaches, Moved, S.Inv, S.Enabled, S.Next, Concat, C.TcpConnection.Streams, C.HalfClose, C.InterestOk, C.Forces,
      Sync;
    var lead := Lead(e, c.added, C.Arrives(c, e, polled), k);
    ghost var arrives := C.Arrives(c, e, polled);
    var abort := AbortStep(k, c.state);
    still := C.Happen(c, e, polled);
    if c.aborted {
      AbortIsStep(s, k, e.revents, e.read);
      t := S.Next(s, abort);
      Cons(s, k, s.conns[k].loop, abort, []);
      steps := [abort] + [];
    } else {
      LeadIsRun(s, k, e, arrives);
      var u := S.Exec(s, lead);
      ghost var rest := WanderingIsSteps(u, k, c.Life());
      t := Sync(u, k, c.Life());
      Append(s, k, s.conns[k].loop, lead, rest);
      steps := lead + rest;
      SyncKeeps(u, k, c.Life());
      InLoops(t, k);
    }
  }

  lemma SyncKeeps(s: S.State, k: nat, w: View)
    requires k < |s.conns| && s.conns[k].loop < |s.queues|
    ensures |Sync(s, k, w).conns| == |s.conns| && Sync(s, k, w).conns[k] == s.conns[k].(view := w)
  {
  }

  /** A forced close: the loop gets to it, and it runs. */
  method ForceRefines(c: C.TcpConnection, e: C.Event, s: S.State, k: nat)
    returns (t: S.State, ghost steps: seq<S.Step>)
    requires c.Valid() && !c.aborted && C.MayBePolled(false, c.state, c.revived)
    requires S.Inv(s) && Matches(s, k, c, false)
    requires e.TaskEvent? && c.pending != [] && c.pending[0].ForceCloseTask?
    modifies c, c.input, c.output
    ensures c.Valid() && c.Grew()
    ensures S.IsRun(s, steps) && S.Exec(s, steps) == t && AllOn(steps, k, s.conns[k].loop)
    ensures Agree(t, k, c, false, s.conns[k].loop)
    ensures c.aborted ==> t.aborted == Some(k)
  {
    hide Reaches, Moved, S.Inv, S.Enabled, S.Next, C.TcpConnection.Valid, C.Follows, Sync;
    C.ForcesDrop(c.pending);
    hide C.Forces;
    ghost var then0 := c.Now();
    var drain;
    drain, t := DrainTo(c, s, k);
    ghost var then1 := c.Now();
    steps := drain;
    if t.aborted.None? {
      ForceIsStep(t, k);
      KeepsOpen(c.Life());
      Unpolled(c.state, c.revived);
      var still := C.Happen(c, e, false);
      C.FollowsOn(then0, then1, c.Now());
      var step := S.RunTask(s.conns[k].loop);
      var u := S.Next(t, step);
      ghost var rest := WanderingIsSteps(u, k, c.Life());
      Cons(t, k, s.conns[k].loop, step, rest);
      Append(s, k, s.conns[k].loop, drain, [step] + rest);
      steps := drain + ([step] + rest);
      t := Sync(u, k, c.Life());
      SyncKeeps(u, k, c.Life());
    }
  }

  lemma Unpolled(state: ConnState, revived: bool)
    ensures C.MayBePolled(false, state, revived)
  {
  }

  lemma KeepsOpen(v: View)
    ensures Moved(v, TakeForce).state == v.state
  {
  }

  /** Every sequence of events: what happens to the connection is a run of the server, up to the end of the process. */
  method RunRefines(c: C.TcpConnection, events: seq<C.Event>, s: S.State, k: nat, polled: bool)
    returns (still: bool, t: S.State, ghost steps: seq<S.Step>)
    requires c.Valid() && !c.aborted && C.MayBePolled(polled, c.state, c.revived)
    requires S.Inv(s) && Matches(s, k, c, polled)
    modifies c, c.input, c.output
    ensures c.Valid() && c.Grew()
    ensures S.IsRun(s, steps) && S.Exec(s, steps) == t && AllOn(steps, k, s.conns[k].loop)
    ensures Agree(t, k, c, still, s.conns[k].loop)
    ensures c.aborted ==> t.aborted == Some(k)
    decreases |events|
  {
    hide Reaches, Moved, S.Inv, S.Enabled, S.Next, Concat, C.TcpConnection.Streams, C.HalfClose, C.InterestOk, C.Forces;
    still, t, steps := polled, s, [];
    if events != [] {
      var e := events[0];
      if e.TaskEvent? && !polled && c.pending != [] && c.pending[0].ForceCloseTask? {
        t, steps := ForceRefines(c, e, s, k);
      } else {
        still, t, steps := EventRefines(c, e, s, k, polled);
      }
      if t.aborted.None? {
        ghost var first, loop := steps, s.conns[k].loop;
        var u := t;
        still, t, steps := RunRefines(c, events[1..], u, k, still);
        Append(s, k, loop, first, steps);
        steps := first + steps;
      }
    }
  }

  /** The first task of a connection. */
  method EstablishRefines(c: C.TcpConnection, calls: seq<C.Call>, s: S.State, k: nat)
    returns (t: S.State, ghost steps: seq<S.Step>)
    requires c.Valid() && !c.aborted && S.Inv(s) && Heads(s, k, S.Establish(k)) && Matches(s, k, c, false)
    modifies c, c.input, c.output
    ensures c.Valid() && c.Grew() && !c.aborted && C.MayBePolled(false, c.state, c.revived)
    ensures S.IsRun(s, steps) && S.Exec(s, steps) == t && AllOn(steps, k, s.conns[k].loop)
    ensures S.Inv(t) && Matches(t, k, c, false)
  {
    EstablishIsStep(s, k);
    hide Reaches, Moved, S.Inv, S.Enabled, S.Next, Concat, C.TcpConnection.Streams, C.HalfClose, C.InterestOk, C.Forces,
      Sync;
    var step := S.RunTask(s.conns[k].loop);
    var u := S.Next(s, step);
    c.ConnectEstablished(calls);
    ghost var rest := WanderingIsSteps(u, k, c.Life());
    Cons(s, k, s.conns[k].loop, step, rest);
    steps := [step] + rest;
    t := Sync(u, k, c.Life());
    SyncKeeps(u, k, c.Life());
  }

  lemma EstablishIsStep(s: S.State, k: nat)
    requires S.Inv(s) && Heads(s, k, S.Establish(k)) && !s.conns[k].polled
    ensures (
      var step := S.RunTask(s.conns[k].loop);
      && S.Enabled(s, step) && S.Inv(S.Next(s, step)) && |S.Next(s, step).conns| == |s.conns|
      && s.conns[k].view.state == Connecting
      && S.Next(s, step).conns[k].view == Moved(s.conns[k].view, Move.Establish)
      && !S.Next(s, step).conns[k].polled && S.Next(s, step).conns[k].loop == s.conns[k].loop)
  {
    S.TaskAllowed(s, s.conns[k].loop);
    S.AbortsExactly(s, S.RunTask(s.conns[k].loop));
    S.StepKeepsInv(s, S.RunTask(s.conns[k].loop));
    S.About(s, k);
    assert S.QueueOk(s.queues[s.conns[k].loop], s.conns[k].loop, k, s.conns[k]);
    S.PopSame(s.queues[s.conns[k].loop]);
  }

  /** The last task of a connection: it aborts in the one exactly if it aborts in the other. */
  method DestroyRefines(c: C.TcpConnection, calls: seq<C.Call>, s: S.State, k: nat)
    requires c.Valid() && !c.aborted && S.Inv(s) && Heads(s, k, S.Destroy(k)) && Matches(s, k, c, false)
    modifies c, c.input, c.output
    ensures c.Valid() && c.Grew() && S.Enabled(s, S.RunTask(s.conns[k].loop))
    ensures (
      var t := S.Next(s, S.RunTask(s.conns[k].loop));
      && (c.aborted <==> t.aborted.Some?) && (c.aborted ==> t.aborted == Some(k))
      && (!c.aborted ==> S.Inv(t) && Matches(t, k, c, false)))
  {
    hide Reaches, Moved, S.Inv, S.Enabled, S.Next, Concat, C.TcpConnection.Streams, C.HalfClose, C.InterestOk, C.Forces;
    DestroyIsStep(s, k);
    c.ConnectDestroyed(calls);
  }
}

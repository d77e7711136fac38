/** Creating and tearing down the connections of a server (net/TcpServer.cpp:59-109, net/TcpConnection.cpp:158-169,
    207-237, 276-288): the main loop owns the connection map, every connection lives in one loop, and the loops talk
    through first-in first-out task queues.  Loop 0 is the main loop; a server without threads uses it for everything
    and then `runInLoop` runs its argument at once. */
module TcpServer {

  import opened Util
  import L = ConnectionLife

  datatype Life = EstablishedLife | ClosedLife | ErasedLife | DestroyedLife

  /** `polled`: the loop's last poll has reported an event of the connection that is still to be dispatched. */
  datatype Conn = Conn(name: string, loop: nat, view: L.View, polled: bool, log: seq<Life>)

  datatype Task = Establish(conn: nat) | ForceClose(conn: nat) | Remove(conn: nat) | Destroy(conn: nat)

  /** `aborted` names a connection at which an assertion failed; the process ends there. */
  datatype State = State(
    server: string,
    conns: seq<Conn>,
    connections: map<string, nat>,
    nextId: nat,
    queues: seq<seq<Task>>,
    aborted: Option<nat>)

  datatype Step =
    | NewConnection(loop: nat)
    | RunTask(loop: nat)
    | Poll(conn: nat)                    // an event is reported, for a descriptor in the epoll set
    | Dispatch(conn: nat)                // and dispatched, without closing
    | CloseEvent(conn: nat)              // or dispatched, and the end of the stream or a hang-up
    | CloseTwice(conn: nat)              // or both of these: a hang-up without input, and a read of nothing
    | User(conn: nat, move: L.Move)      // user code of any thread, and writing

  function Init(server: string, threads: nat): State {
    State(server, [], map[], 1, seq(threads + 1, _ => []), None)
  }

  // ---------------------------------------------------------------- names

  function Digit(d: nat): char
    requires d < 10
  {
    '0' + d as char
  }

  function Decimal(n: nat): (s: string)
    ensures s != []
  {
    if n < 10 then [Digit(n)] else Decimal(n / 10) + [Digit(n % 10)]
  }

  /** `server` is the server's name and address. */
  function Name(server: string, id: nat): string { server + "#" + Decimal(id) }

  lemma {:induction false} DecimalInjective(m: nat, n: nat)
    requires Decimal(m) == Decimal(n)
    ensures m == n
  {
    assert Decimal(m)[|Decimal(m)| - 1] == Digit(m % 10);
    assert Decimal(n)[|Decimal(n)| - 1] == Digit(n % 10);
    if m >= 10 && n >= 10 {
      assert Decimal(m / 10) == Decimal(m)[..|Decimal(m)| - 1];
      assert Decimal(n / 10) == Decimal(n)[..|Decimal(n)| - 1];
      DecimalInjective(m / 10, n / 10);
    }
  }

  /** What a decimal says. */
  function Reading(s: string): int {
    if s == [] then 0 else 10 * Reading(s[..|s| - 1]) + (s[|s| - 1] as int - '0' as int)
  }

  lemma {:induction false} DecimalReads(n: nat)
    ensures Reading(Decimal(n)) == n && forall i :: 0 <= i < |Decimal(n)| ==> '0' <= Decimal(n)[i] <= '9'
    ensures n > 0 ==> Decimal(n)[0] != '0'
  {
    if n < 10 {
      assert Decimal(n)[..0] == [];
    } else {
      DecimalReads(n / 10);
      assert Decimal(n)[..|Decimal(n)| - 1] == Decimal(n / 10);
    }
  }

  lemma NamesUnique(server: string, m: nat, n: nat)
    requires Name(server, m) == Name(server, n)
    ensures m == n
  {
    var prefix := server + "#";
    assert Name(server, m)[|prefix|..] == Decimal(m) && Name(server, n)[|prefix|..] == Decimal(n);
    DecimalInjective(m, n);
  }

  // ---------------------------------------------------------------- steps

  predicate InRange(s: State) {
    |s.queues| > 0 && forall c: nat :: c < |s.conns| ==> s.conns[c].loop < |s.queues|
  }

  function Post(s: State, loop: nat, task: Task): State
    requires loop < |s.queues|
  {
    s.(queues := s.queues[loop := s.queues[loop] + [task]])
  }

  function SetConn(s: State, c: nat, k: Conn): State
    requires c < |s.conns|
  {
    s.(conns := s.conns[c := k])
  }

  function Abort(s: State, c: nat): State { s.(aborted := Some(c)) }

  function DoEstablish(s: State, c: nat): State
    requires c < |s.conns|
  {
    var k := s.conns[c];
    if k.view.state != L.Connecting then Abort(s, c)
    else SetConn(s, c, k.(view := L.Moved(k.view, L.Establish), log := k.log + [EstablishedLife]))
  }

  /** `removeConnectionInLoop`: the erase must remove exactly one entry. */
  function DoRemove(s: State, c: nat): State
    requires c < |s.conns| && InRange(s)
  {
    var k := s.conns[c];
    if k.name !in s.connections then Abort(s, c)
    else
      Post(SetConn(s.(connections := s.connections - {k.name}), c, k.(log := k.log + [ErasedLife])), k.loop, Destroy(c))
  }

  /** `handleClose` and the `removeConnection` it ends with. */
  function DoClose(s: State, c: nat): State
    requires c < |s.conns| && InRange(s)
  {
    var k := s.conns[c];
    if !L.Open(k.view.state) then Abort(s, c)
    else
      var t := SetConn(s, c, k.(view := L.Moved(k.view, L.Close), polled := false, log := k.log + [ClosedLife]));
      if k.loop == 0 then DoRemove(t, c) else Post(t, 0, Remove(c))
  }

  /** `connectDestroyed`: the channel may be removed only without interest. */
  function DoDestroy(s: State, c: nat): State
    requires c < |s.conns|
  {
    var k := s.conns[c];
    if k.view.state == L.Connected then
      SetConn(s, c, k.(view := L.Moved(L.Moved(k.view, L.Close), L.Destroy),
                       log := k.log + [ClosedLife, DestroyedLife]))
    else if L.Interested(k.view.chan) then Abort(s, c)
    else SetConn(s, c, k.(view := L.Moved(k.view, L.Destroy), log := k.log + [DestroyedLife]))
  }

  /** `forceCloseInLoop`. */
  function DoForce(s: State, c: nat): State
    requires c < |s.conns| && InRange(s)
  {
    var k := s.conns[c];
    var t := SetConn(s, c, k.(view := L.Moved(k.view, L.TakeForce)));
    if L.Open(k.view.state) then DoClose(t, c) else t
  }

  function DoTask(s: State, task: Task): State
    requires task.conn < |s.conns| && InRange(s)
  {
    match task
    case Establish(c) => DoEstablish(s, c)
    case ForceClose(c) => DoForce(s, c)
    case Remove(c) => DoRemove(s, c)
    case Destroy(c) => DoDestroy(s, c)
  }

  function Pop(s: State, loop: nat): State
    requires loop < |s.queues| && s.queues[loop] != []
  {
    s.(queues := s.queues[loop := s.queues[loop][1..]])
  }

  function DoNew(s: State, loop: nat): State
    requires loop < |s.queues|
  {
    var c := |s.conns|;
    var name := Name(s.server, s.nextId);
    var t := s.(conns := s.conns + [Conn(name, loop, L.CREATED, false, [])],
                connections := s.connections[name := c],
                nextId := s.nextId + 1);
    if loop == 0 then DoEstablish(t, c) else Post(t, loop, Establish(c))
  }

  /** A loop runs its tasks only after it has dispatched all events of a poll. */
  predicate Busy(s: State, loop: nat, c: nat)
    requires c < |s.conns|
  {
    s.conns[c].loop == loop && s.conns[c].polled
  }

  /** A connection is handed to user code when it is established; with threads, new connections go to their loops. */
  predicate Enabled(s: State, step: Step) {
    s.aborted.None? && InRange(s) &&
    match step
    case NewConnection(loop) => loop < |s.queues| && (|s.queues| > 1 <==> loop > 0)
    case RunTask(loop) =>
      && loop < |s.queues| && s.queues[loop] != [] && s.queues[loop][0].conn < |s.conns|
      && !Busy(s, loop, s.queues[loop][0].conn)
    case Poll(c) => c < |s.conns| && s.conns[c].view.chan.added
    case Dispatch(c) => c < |s.conns| && s.conns[c].polled
    case CloseEvent(c) => c < |s.conns| && s.conns[c].polled
    case CloseTwice(c) => c < |s.conns| && s.conns[c].polled
    case User(c, move) => c < |s.conns| && L.IsUserMove(move) && L.May(s.conns[c].view, move)
  }

  function Next(s: State, step: Step): State
    requires Enabled(s, step)
  {
    match step
    case NewConnection(loop) => DoNew(s, loop)
    case RunTask(loop) => DoTask(Pop(s, loop), s.queues[loop][0])
    case Poll(c) => SetConn(s, c, s.conns[c].(polled := true))
    case Dispatch(c) => SetConn(s, c, s.conns[c].(polled := false))
    case CloseEvent(c) => DoClose(s, c)
    case CloseTwice(c) => Abort(DoClose(s, c), c)
    case User(c, move) => DoUser(s, c, move)
  }

  /** `forceClose` also posts the task that closes. */
  function DoUser(s: State, c: nat, move: L.Move): State
    requires c < |s.conns| && InRange(s)
  {
    var k := s.conns[c];
    var t := SetConn(s, c, k.(view := L.Moved(k.view, move)));
    if move == L.RequestClose && L.Open(k.view.state) then Post(t, k.loop, ForceClose(c)) else t
  }

  /** What can happen next: a new connection, any call of user code on an established one, any event of a descriptor in
      the epoll set, which is then dispatched in one of three ways. */
  lemma WhatMayHappen(s: State, c: nat, move: L.Move)
    requires s.aborted.None? && InRange(s) && c < |s.conns|
    requires move == L.ShutDown || move == L.RequestClose || move == L.StartRead || move == L.StopRead
    ensures exists loop :: Enabled(s, NewConnection(loop)) && (loop == 0 <==> |s.queues| == 1)
    ensures s.conns[c].view.state != L.Connecting ==> Enabled(s, User(c, move))
    ensures Enabled(s, Poll(c)) <==> s.conns[c].view.chan.added
    ensures s.conns[c].view.chan.added ==>
      var t := Next(s, Poll(c));
      t.conns[c] == s.conns[c].(polled := true) && t.queues == s.queues && t.connections == s.connections &&
      Enabled(t, Dispatch(c)) && Enabled(t, CloseEvent(c)) && Enabled(t, CloseTwice(c))
  {
    var loop := if |s.queues| == 1 then 0 else 1;
    assert Enabled(s, NewConnection(loop));
  }

  predicate IsRun(s: State, steps: seq<Step>)
    decreases |steps|
  {
    steps == [] || (Enabled(s, steps[0]) && IsRun(Next(s, steps[0]), steps[1..]))
  }

  function Exec(s: State, steps: seq<Step>): State
    requires IsRun(s, steps)
    decreases |steps|
  {
    if steps == [] then s else Exec(Next(s, steps[0]), steps[1..])
  }

  // ---------------------------------------------------------------- the invariant

  const LIFE: seq<Life> := [EstablishedLife, ClosedLife, ErasedLife, DestroyedLife]

  predicate ViewOk(v: L.View, lived: nat) {
    && (v.state == L.Connecting <==> lived == 0)
    && (L.Open(v.state) <==> lived == 1)
    && (lived == 0 ==> v == L.CREATED)
    && (lived == 1 ==> v.reading == v.chan.wantsRead && (v.chan.added <==> L.Interested(v.chan)))
    && (lived >= 2 ==> !v.chan.wantsWrite && (v.chan == L.IDLE || v.revived))
    && (v.revived ==> lived >= 2)
  }

  /** The part of the life behind a connection fixes its state and where it is on its way. */
  predicate LifeOk(k: Conn) {
    && |k.log| <= 4 && k.log == LIFE[..|k.log|]
    && ViewOk(k.view, |k.log|)
    && (k.loop == 0 ==> |k.log| != 0 && |k.log| != 2)
    && (k.polled ==> |k.log| == 1 || k.view.revived)
  }

  /** The map holds exactly the connections not yet erased, each under its own name. */
  predicate Listed(server: string, connections: map<string, nat>, c: nat, k: Conn) {
    && k.name == Name(server, c + 1)
    && (k.name in connections <==> |k.log| <= 2)
    && (k.name in connections ==> connections[k.name] == c)
  }

  predicate Keys(server: string, connections: map<string, nat>, count: nat) {
    forall name :: name in connections ==> connections[name] < count && name == Name(server, connections[name] + 1)
  }

  function One(b: bool): nat { if b then 1 else 0 }

  /** The task that takes a connection one step further is queued exactly once, in the right loop, and so is every
      forced close that was asked for. */
  predicate QueueOk(q: seq<Task>, loop: nat, c: nat, k: Conn) {
    && multiset(q)[Establish(c)] == One(|k.log| == 0 && loop == k.loop)
    && multiset(q)[Remove(c)] == One(|k.log| == 2 && loop == 0)
    && multiset(q)[Destroy(c)] == One(|k.log| == 3 && loop == k.loop)
    && multiset(q)[ForceClose(c)] == if loop == k.loop then k.view.forces else 0
  }

  predicate Known(q: seq<Task>, count: nat) {
    forall t :: t in q ==> t.conn < count
  }

  predicate ConnsOk(server: string, conns: seq<Conn>, connections: map<string, nat>, loops: nat) {
    forall c: nat :: c < |conns| ==>
      LifeOk(conns[c]) && Listed(server, connections, c, conns[c]) && conns[c].loop < loops
  }

  predicate QueuesOk(queues: seq<seq<Task>>, conns: seq<Conn>) {
    && (forall l: nat :: l < |queues| ==> Known(queues[l], |conns|))
    && forall l: nat, c: nat :: l < |queues| && c < |conns| ==> QueueOk(queues[l], l, c, conns[c])
  }

  predicate Inv(s: State) {
    && |s.queues| > 0
    && s.nextId == |s.conns| + 1
    && ConnsOk(s.server, s.conns, s.connections, |s.queues|)
    && Keys(s.server, s.connections, |s.conns|)
    && QueuesOk(s.queues, s.conns)
    && s.aborted.None?
  }

  lemma InitInv(server: string, threads: nat)
    ensures Inv(Init(server, threads))
  {
  }

  // ---------------------------------------------------------------- every step keeps the invariant

  /** Only tasks of connection `c` were added or taken. */
  ghost predicate SameFor(q: seq<Task>, r: seq<Task>, c: nat) {
    forall t: Task :: t.conn != c ==> multiset(r)[t] == multiset(q)[t]
  }

  lemma PostSame(q: seq<Task>, t: Task)
    ensures SameFor(q, q + [t], t.conn)
  {
  }

  lemma PopSame(q: seq<Task>)
    requires q != []
    ensures SameFor(q, q[1..], q[0].conn)
    ensures multiset(q) == multiset(q[1..]) + multiset{q[0]}
  {
    assert q == [q[0]] + q[1..];
  }

  lemma SameTrans(q: seq<Task>, r: seq<Task>, u: seq<Task>, c: nat)
    requires SameFor(q, r, c) && SameFor(r, u, c)
    ensures SameFor(q, u, c)
  {
  }

  /** `conns` with connection `c` changed or, at the end, added. */
  predicate ChangesOnly(conns: seq<Conn>, conns': seq<Conn>, c: nat) {
    && c < |conns'|
    && (|conns'| == |conns| || (c == |conns| && |conns'| == |conns| + 1))
    && forall d: nat :: d < |conns| && d != c ==> conns'[d] == conns[d]
  }

  ghost predicate LocalQueues(queues: seq<seq<Task>>, queues': seq<seq<Task>>, c: nat, k: Conn) {
    && |queues'| == |queues|
    && forall l: nat :: l < |queues| && l < |queues'| ==>
         SameFor(queues[l], queues'[l], c) && QueueOk(queues'[l], l, c, k)
  }

  lemma QueuesFrame(queues: seq<seq<Task>>, queues': seq<seq<Task>>, conns: seq<Conn>, conns': seq<Conn>, c: nat)
    requires QueuesOk(queues, conns) && ChangesOnly(conns, conns', c) && LocalQueues(queues, queues', c, conns'[c])
    ensures QueuesOk(queues', conns')
  {
    hide QueueOk;
    forall l: nat | l < |queues'|
      ensures Known(queues'[l], |conns'|)
    {
      assert l < |queues| && Known(queues[l], |conns|);
      forall t | t in queues'[l]
        ensures t.conn < |conns'|
      {
        assert multiset(queues'[l])[t] > 0;
        assert t.conn != c ==> t in multiset(queues[l]);
      }
    }
    forall l: nat, d: nat | l < |queues'| && d < |conns'|
      ensures QueueOk(queues'[l], l, d, conns'[d])
    {
      assert l < |queues|;
      if d != c {
        QueueOfOther(queues[l], queues'[l], l, c, d, conns[d]);
      }
    }
  }

  lemma QueueOfOther(q: seq<Task>, r: seq<Task>, l: nat, c: nat, d: nat, k: Conn)
    requires SameFor(q, r, c) && d != c && QueueOk(q, l, d, k)
    ensures QueueOk(r, l, d, k)
  {
  }

  lemma ConnsFrame(server: string, conns: seq<Conn>, conns': seq<Conn>, connections: map<string, nat>,
                   connections': map<string, nat>, loops: nat, c: nat)
    requires ConnsOk(server, conns, connections, loops) && Keys(server, connections, |conns|)
    requires ChangesOnly(conns, conns', c)
    requires LifeOk(conns'[c]) && Listed(server, connections', c, conns'[c]) && conns'[c].loop < loops
    requires forall name :: name != Name(server, c + 1) ==> (name in connections' <==> name in connections)
    requires forall name :: name != Name(server, c + 1) && name in connections' ==>
               connections'[name] == connections[name]
    ensures ConnsOk(server, conns', connections', loops) && Keys(server, connections', |conns'|)
  {
    hide LifeOk;
    forall d: nat | d < |conns'|
      ensures LifeOk(conns'[d]) && Listed(server, connections', d, conns'[d]) && conns'[d].loop < loops
    {
      if d != c {
        assert conns'[d] == conns[d] && conns[d].name == Name(server, d + 1);
        if Name(server, d + 1) == Name(server, c + 1) { NamesUnique(server, d + 1, c + 1); }
      }
    }
  }

  /** What one step does is local to one connection: its place in its life, its map entry, its tasks. */
  ghost predicate Local(s: State, t: State, c: nat) {
    && t.server == s.server && t.nextId == |t.conns| + 1
    && ChangesOnly(s.conns, t.conns, c)
    && LifeOk(t.conns[c]) && Listed(t.server, t.connections, c, t.conns[c]) && t.conns[c].loop < |t.queues|
    && (forall name :: name != Name(s.server, c + 1) ==> (name in t.connections <==> name in s.connections))
    && (forall name :: name != Name(s.server, c + 1) && name in t.connections ==>
          t.connections[name] == s.connections[name])
    && LocalQueues(s.queues, t.queues, c, t.conns[c])
    && t.aborted == s.aborted
  }

  lemma LocalKeepsInv(s: State, t: State, c: nat)
    requires Inv(s) && Local(s, t, c)
    ensures Inv(t)
  {
    hide LifeOk, Listed, QueueOk, SameFor, QueuesOk, ConnsOk, Keys;
    ConnsFrame(s.server, s.conns, t.conns, s.connections, t.connections, |s.queues|, c);
    QueuesFrame(s.queues, t.queues, s.conns, t.conns, c);
  }

  // ---------------------------------------------------------------- the steps are local

  /** A new connection is listed under its own name, for its loop to establish. */
  lemma NewIsNamed(s: State, loop: nat)
    requires Inv(s) && Enabled(s, NewConnection(loop))
    ensures (
      var t, name := Next(s, NewConnection(loop)), s.server + "#" + Decimal(|s.conns| + 1);
      && |t.conns| == |s.conns| + 1 && t.conns[|s.conns|].name == name && t.conns[|s.conns|].loop == loop
      && name !in s.connections && t.connections == s.connections[name := |s.conns|])
  {
    if Name(s.server, |s.conns| + 1) in s.connections {
      NamesUnique(s.server, |s.conns| + 1, s.connections[Name(s.server, |s.conns| + 1)] + 1);
    }
  }

  lemma NewIsLocal(s: State, loop: nat)
    requires Inv(s) && Enabled(s, NewConnection(loop))
    ensures Local(s, Next(s, NewConnection(loop)), |s.conns|)
  {
    hide Name, ConnsOk;
    var c := |s.conns|;
    var t := Next(s, NewConnection(loop));
    assert t.conns[c].log == LIFE[..|t.conns[c].log|];
    forall l: nat | l < |s.queues| && l < |t.queues|
      ensures SameFor(s.queues[l], t.queues[l], c) && QueueOk(t.queues[l], l, c, t.conns[c])
    {
      assert Known(s.queues[l], c);
      assert Establish(c).conn == c && Remove(c).conn == c && Destroy(c).conn == c && ForceClose(c).conn == c;
    }
  }

  /** The facts about one connection. */
  lemma About(s: State, c: nat)
    requires Inv(s) && c < |s.conns|
    ensures LifeOk(s.conns[c]) && Listed(s.server, s.connections, c, s.conns[c]) && s.conns[c].loop < |s.queues|
    ensures forall l: nat :: l < |s.queues| ==> QueueOk(s.queues[l], l, c, s.conns[c])
  {
  }

  lemma ViewOkMoves(v: L.View, move: L.Move, lived: nat)
    requires ViewOk(v, lived) && L.IsUserMove(move) && L.May(v, move)
    ensures ViewOk(L.Moved(v, move), lived) && (v.revived ==> L.Moved(v, move).revived)
    ensures L.Moved(v, move).forces == v.forces + One(move == L.RequestClose && L.Open(v.state))
  {
  }

  lemma UserIsLocal(s: State, c: nat, move: L.Move)
    requires Inv(s) && Enabled(s, User(c, move))
    ensures Local(s, Next(s, User(c, move)), c)
  {
    hide Inv;
    About(s, c);
    AboutIds(s);
    ViewOkMoves(s.conns[c].view, move, |s.conns[c].log|);
    hide Listed, QueueOk, ViewOk, SameFor, L.Moved;
    var t := Next(s, User(c, move));
    ListedSame(s.server, s.connections, c, s.conns[c], t.conns[c]);
    forall l: nat | l < |s.queues| && l < |t.queues|
      ensures SameFor(s.queues[l], t.queues[l], c) && QueueOk(t.queues[l], l, c, t.conns[c])
    {
      assert QueueOk(s.queues[l], l, c, s.conns[c]);
      OneMoreForce(s.queues[l], l, c, s.conns[c], t.conns[c]);
    }
  }

  /** One queue of the loops while user code asks for a forced close. */
  lemma OneMoreForce(q: seq<Task>, l: nat, c: nat, k: Conn, k': Conn)
    requires QueueOk(q, l, c, k) && k'.loop == k.loop && |k'.log| == |k.log|
    ensures k'.view.forces == k.view.forces ==> QueueOk(q, l, c, k') && SameFor(q, q, c)
    ensures l != k.loop ==> QueueOk(q, l, c, k') && SameFor(q, q, c)
    ensures k'.view.forces == k.view.forces + 1 && l == k.loop ==>
              QueueOk(q + [ForceClose(c)], l, c, k') && SameFor(q, q + [ForceClose(c)], c)
  {
    PostSame(q, ForceClose(c));
  }

  /** Being polled and dispatched changes nothing else. */
  lemma PolledIsLocal(s: State, c: nat, polled: bool)
    requires Inv(s) && c < |s.conns| && (polled ==> s.conns[c].view.chan.added)
    ensures Local(s, SetConn(s, c, s.conns[c].(polled := polled)), c)
  {
    hide Inv;
    About(s, c);
    AboutIds(s);
    var k := s.conns[c].(polled := polled);
    ListedSame(s.server, s.connections, c, s.conns[c], k);
    hide Listed, QueueOk;
    forall l: nat | l < |s.queues|
      ensures SameFor(s.queues[l], s.queues[l], c) && QueueOk(s.queues[l], l, c, k)
    {
      assert QueueOk(s.queues[l], l, c, s.conns[c]);
      OneMoreForce(s.queues[l], l, c, s.conns[c], k);
    }
  }

  lemma AboutIds(s: State)
    requires Inv(s)
    ensures s.nextId == |s.conns| + 1 && |s.queues| > 0
  {
  }

  lemma ListedSame(server: string, connections: map<string, nat>, c: nat, k: Conn, k': Conn)
    requires Listed(server, connections, c, k) && k'.name == k.name && |k'.log| == |k.log|
    ensures Listed(server, connections, c, k')
  {
  }

  /** The head of a queue is a task of connection `c` and its removal is local. */
  lemma HeadIsLocal(s: State, loop: nat)
    requires Inv(s) && Enabled(s, RunTask(loop))
    ensures (
      var task := s.queues[loop][0];
      var rest := s.queues[loop][1..];
      && SameFor(s.queues[loop], rest, task.conn)
      && multiset(s.queues[loop])[task] == multiset(rest)[task] + 1
      && forall u: Task :: u != task ==> multiset(s.queues[loop])[u] == multiset(rest)[u])
  {
    PopSame(s.queues[loop]);
  }

  lemma EstablishIsLocal(s: State, loop: nat)
    requires Inv(s) && Enabled(s, RunTask(loop)) && s.queues[loop][0].Establish?
    ensures Local(s, Next(s, RunTask(loop)), s.queues[loop][0].conn)
  {
    hide Inv;
    var c := s.queues[loop][0].conn;
    About(s, c);
    AboutIds(s);
    HeadIsLocal(s, loop);
    hide Listed;
    var t := Next(s, RunTask(loop));
    assert QueueOk(s.queues[loop], loop, c, s.conns[c]);
    assert s.conns[c].log == [] && t.conns[c].log == LIFE[..1];
    ListedMoves(s.server, s.connections, c, s.conns[c], t.conns[c]);
    forall l: nat | l < |s.queues| && l < |t.queues|
      ensures SameFor(s.queues[l], t.queues[l], c) && QueueOk(t.queues[l], l, c, t.conns[c])
    {
      assert QueueOk(s.queues[l], l, c, s.conns[c]);
    }
  }

  lemma ListedMoves(server: string, connections: map<string, nat>, c: nat, k: Conn, k': Conn)
    requires Listed(server, connections, c, k) && k'.name == k.name && |k.log| <= 2 && |k'.log| <= 2
    ensures Listed(server, connections, c, k')
  {
  }

  /** The assertion of `removeConnectionInLoop` holds: the erase removes exactly one entry. */
  lemma RemoveIsLocal(s: State, loop: nat)
    requires Inv(s) && Enabled(s, RunTask(loop)) && s.queues[loop][0].Remove?
    ensures Local(s, Next(s, RunTask(loop)), s.queues[loop][0].conn)
    ensures |Next(s, RunTask(loop)).connections| == |s.connections| - 1
  {
    hide Inv;
    var c := s.queues[loop][0].conn;
    About(s, c);
    AboutIds(s);
    HeadIsLocal(s, loop);
    var t := Next(s, RunTask(loop));
    var k := s.conns[c];
    assert QueueOk(s.queues[loop], loop, c, k);
    assert |k.log| == 2 && loop == 0 && t.conns[c].log == LIFE[..3];
    assert s.connections == t.connections[k.name := c];
    hide QueueOk, SameFor;
    forall l: nat | l < |s.queues| && l < |t.queues|
      ensures SameFor(s.queues[l], t.queues[l], c) && QueueOk(t.queues[l], l, c, t.conns[c])
    {
      assert QueueOk(s.queues[l], l, c, k);
      RemoveQueue(s.queues[l], t.queues[l], l, c, k, t.conns[c]);
    }
  }

  /** One queue of the loops while a connection is erased. */
  lemma RemoveQueue(q: seq<Task>, r: seq<Task>, l: nat, c: nat, k: Conn, k': Conn)
    requires QueueOk(q, l, c, k) && |k.log| == 2 && |k'.log| == 3 && k'.loop == k.loop && k'.view == k.view
    requires l == 0 ==> q != [] && q[0] == Remove(c)
    requires r == (if l == 0 then q[1..] else q) + (if l == k.loop then [Destroy(c)] else [])
    ensures SameFor(q, r, c) && QueueOk(r, l, c, k')
  {
    if l == 0 { PopSame(q); }
  }

  lemma DestroyIsLocal(s: State, loop: nat)
    requires Inv(s) && Enabled(s, RunTask(loop)) && s.queues[loop][0].Destroy?
    ensures Next(s, RunTask(loop)).aborted.None? ==> Local(s, Next(s, RunTask(loop)), s.queues[loop][0].conn)
    ensures Next(s, RunTask(loop)).aborted.Some? ==> s.conns[s.queues[loop][0].conn].view.revived
  {
    hide Inv;
    var c := s.queues[loop][0].conn;
    About(s, c);
    AboutIds(s);
    HeadIsLocal(s, loop);
    var t := Next(s, RunTask(loop));
    var k := s.conns[c];
    assert QueueOk(s.queues[loop], loop, c, k);
    assert |k.log| == 3;
    if t.aborted.None? {
      assert t.conns[c].log == LIFE[..4];
      forall l: nat | l < |s.queues| && l < |t.queues|
        ensures SameFor(s.queues[l], t.queues[l], c) && QueueOk(t.queues[l], l, c, t.conns[c])
      {
        assert QueueOk(s.queues[l], l, c, k);
      }
    }
  }

  lemma ViewOkCloses(v: L.View)
    requires ViewOk(v, 1)
    ensures ViewOk(L.Moved(v, L.Close), 2) && ViewOk(L.Moved(v, L.Close), 3) && L.Moved(v, L.Close).forces == v.forces
  {
  }

  /** One queue of the loops while a connection is closed. */
  lemma CloseQueue(q: seq<Task>, r: seq<Task>, l: nat, c: nat, k: Conn, k': Conn)
    requires SameFor(q, r, c) && QueueOk(r, l, c, k) && |k.log| == 1 && k'.loop == k.loop
    requires |k'.log| == (if k.loop == 0 then 3 else 2) && k'.view.forces == k.view.forces
    ensures (
      var next := if l == 0 then r + [if k.loop == 0 then Destroy(c) else Remove(c)] else r;
      SameFor(q, next, c) && QueueOk(next, l, c, k'))
  {
    if l == 0 {
      var post := if k.loop == 0 then Destroy(c) else Remove(c);
      PostSame(r, post);
      SameTrans(q, r, r + [post], c);
    }
  }

  /** What closing an open connection changes apart from the queues. */
  lemma CloseChanges(u: State, c: nat)
    requires c < |u.conns| && InRange(u) && L.Open(u.conns[c].view.state) && LifeOk(u.conns[c])
    requires Listed(u.server, u.connections, c, u.conns[c])
    ensures (
      var t, k := DoClose(u, c), u.conns[c];
      && t == u.(conns := t.conns, connections := t.connections, queues := t.queues)
      && t.queues == u.queues[0 := u.queues[0] + [if k.loop == 0 then Destroy(c) else Remove(c)]]
      && ChangesOnly(u.conns, t.conns, c) && |t.conns| == |u.conns| && t.conns[c].loop == k.loop
      && LifeOk(t.conns[c]) && |t.conns[c].log| == (if k.loop == 0 then 3 else 2)
      && t.conns[c].view == L.Moved(k.view, L.Close) && !t.conns[c].polled
      && Listed(t.server, t.connections, c, t.conns[c])
      && t.connections == if k.loop == 0 then u.connections - {k.name} else u.connections)
  {
    var k := u.conns[c];
    ViewOkCloses(k.view);
    hide L.Moved, ViewOk, Name;
    assert DoClose(u, c).conns[c].log == if k.loop == 0 then LIFE[..3] else LIFE[..2];
  }

  /** Closing an open connection, after a forced close of it may have left its queue. */
  lemma CloseIsLocal(s: State, u: State, c: nat)
    requires Inv(s) && c < |s.conns| && L.Open(s.conns[c].view.state)
    requires u == s.(queues := u.queues, conns := u.conns) && |u.queues| == |s.queues| && InRange(u)
    requires ChangesOnly(s.conns, u.conns, c) && |u.conns| == |s.conns|
    requires u.conns[c] == s.conns[c].(view := u.conns[c].view) && LifeOk(u.conns[c])
    requires L.Open(u.conns[c].view.state)
    requires forall l: nat :: l < |s.queues| && l < |u.queues| ==>
               SameFor(s.queues[l], u.queues[l], c) && QueueOk(u.queues[l], l, c, u.conns[c])
    ensures Local(s, DoClose(u, c), c)
  {
    hide Inv;
    About(s, c);
    AboutIds(s);
    ListedSame(s.server, s.connections, c, s.conns[c], u.conns[c]);
    CloseChanges(u, c);
    var t := DoClose(u, c);
    var k := u.conns[c];
    ViewOkCloses(k.view);
    assert k.name == Name(s.server, c + 1) && |k.log| == 1;
    hide DoClose, LifeOk, ViewOk, L.Moved, Listed, QueueOk, SameFor, Name, InRange;
    forall l: nat | l < |s.queues| && l < |t.queues|
      ensures SameFor(s.queues[l], t.queues[l], c) && QueueOk(t.queues[l], l, c, t.conns[c])
    {
      assert l < |u.queues| && QueueOk(u.queues[l], l, c, k);
      CloseQueue(s.queues[l], u.queues[l], l, c, k, t.conns[c]);
    }
  }

  /** A queue gives up a forced close. */
  lemma OneForceLess(q: seq<Task>, r: seq<Task>, l: nat, c: nat, k: Conn, k': Conn)
    requires QueueOk(q, l, c, k) && k' == k.(view := L.Moved(k.view, L.TakeForce))
    requires if l == k.loop then q != [] && q[0] == ForceClose(c) && r == q[1..] else r == q
    ensures SameFor(q, r, c) && QueueOk(r, l, c, k')
  {
    if l == k.loop { PopSame(q); }
  }

  lemma ViewOkTakes(v: L.View, lived: nat)
    requires ViewOk(v, lived) && v.forces > 0
    ensures ViewOk(L.Moved(v, L.TakeForce), lived) && L.Moved(v, L.TakeForce) == v.(forces := v.forces - 1)
  {
  }

  lemma ForceInLoop(s: State, loop: nat)
    requires Inv(s) && Enabled(s, RunTask(loop)) && s.queues[loop][0].ForceClose?
    ensures (
      var k := s.conns[s.queues[loop][0].conn];
      k.loop == loop && k.view.forces > 0 && !k.polled)
  {
    var c := s.queues[loop][0].conn;
    About(s, c);
    hide Inv;
    assert QueueOk(s.queues[loop], loop, c, s.conns[c]);
    PopSame(s.queues[loop]);
  }

  lemma ForceIsLocal(s: State, loop: nat)
    requires Inv(s) && Enabled(s, RunTask(loop)) && s.queues[loop][0].ForceClose?
    ensures Local(s, Next(s, RunTask(loop)), s.queues[loop][0].conn)
  {
    hide Inv;
    var c := s.queues[loop][0].conn;
    About(s, c);
    AboutIds(s);
    ForceInLoop(s, loop);
    var k := s.conns[c];
    var k' := k.(view := L.Moved(k.view, L.TakeForce));
    ViewOkTakes(k.view, |k.log|);
    assert LifeOk(k');
    ListedSame(s.server, s.connections, c, k, k');
    var u := SetConn(Pop(s, loop), c, k');
    hide LifeOk, ViewOk, Listed, QueueOk, SameFor, L.Moved;
    forall l: nat | l < |s.queues| && l < |u.queues|
      ensures SameFor(s.queues[l], u.queues[l], c) && QueueOk(u.queues[l], l, c, k')
    {
      assert QueueOk(s.queues[l], l, c, k);
      OneForceLess(s.queues[l], u.queues[l], l, c, k, k');
    }
    if L.Open(k.view.state) {
      CloseIsLocal(s, u, c);
    }
  }

  /** One step keeps the invariant, or an assertion fails at a connection that was revived after its close or that one
      event closes twice; nothing else can fail. */
  lemma StepKeepsInv(s: State, step: Step)
    requires Inv(s) && Enabled(s, step)
    ensures Next(s, step).aborted.None? ==> Inv(Next(s, step))
    ensures Next(s, step).aborted.Some? ==>
      var c := Next(s, step).aborted.value;
      c < |s.conns| && (s.conns[c].view.revived || step == CloseTwice(c))
  {
    hide Local;
    var t := Next(s, step);
    match step {
      case NewConnection(loop) =>
        NewIsLocal(s, loop);
        LocalKeepsInv(s, t, |s.conns|);
      case RunTask(loop) =>
        TaskKeepsInv(s, loop);
      case CloseEvent(c) =>
        About(s, c);
        if L.Open(s.conns[c].view.state) {
          CloseIsLocal(s, s, c);
          LocalKeepsInv(s, t, c);
          LocalRuns(s, t, c);
        }
      case CloseTwice(_) =>
      case Poll(c) =>
        PolledIsLocal(s, c, true);
        LocalKeepsInv(s, t, c);
      case Dispatch(c) =>
        PolledIsLocal(s, c, false);
        LocalKeepsInv(s, t, c);
      case User(c, move) =>
        UserIsLocal(s, c, move);
        LocalKeepsInv(s, t, c);
    }
  }

  lemma LocalRuns(s: State, t: State, c: nat)
    requires Inv(s) && Local(s, t, c)
    ensures t.aborted.None?
  {
  }

  lemma TaskKeepsInv(s: State, loop: nat)
    requires Inv(s) && Enabled(s, RunTask(loop))
    ensures Next(s, RunTask(loop)).aborted.None? ==> Inv(Next(s, RunTask(loop)))
    ensures Next(s, RunTask(loop)).aborted.Some? ==> s.conns[s.queues[loop][0].conn].view.revived
    ensures Next(s, RunTask(loop)).aborted.Some? ==> Next(s, RunTask(loop)).aborted.value == s.queues[loop][0].conn
  {
    hide Local;
    var t := Next(s, RunTask(loop));
    var task := s.queues[loop][0];
    match task {
      case Establish(c) => EstablishIsLocal(s, loop);
      case ForceClose(c) => ForceIsLocal(s, loop);
      case Remove(c) => RemoveIsLocal(s, loop);
      case Destroy(c) => DestroyIsLocal(s, loop);
    }
    if t.aborted.None? || !task.Destroy? {
      LocalKeepsInv(s, t, task.conn);
    }
  }

  /** Exactly when an assertion fails: one event closes twice; a closed connection whose descriptor is back in the epoll
      set reports another close; or a channel still has its interest when it is to be removed. */
  lemma AbortsExactly(s: State, step: Step)
    requires Inv(s) && Enabled(s, step)
    ensures Next(s, step).aborted.Some? <==>
            || step.CloseTwice?
            || (step.CloseEvent? && s.conns[step.conn].view.state == L.Disconnected)
            || (step.RunTask? && s.queues[step.loop][0].Destroy? &&
                L.Interested(s.conns[s.queues[step.loop][0].conn].view.chan))
  {
    hide Inv, Local;
    match step {
      case CloseEvent(c) =>
        About(s, c);
        hide LifeOk, Listed, QueueOk;
        if L.Open(s.conns[c].view.state) {
          CloseIsLocal(s, s, c);
          LocalRuns(s, Next(s, step), c);
        } else {
          PolledOpen(s, c);
        }
      case RunTask(loop) => TaskAborts(s, loop);
      case NewConnection(loop) =>
        NewIsLocal(s, loop);
        LocalRuns(s, Next(s, step), |s.conns|);
      case CloseTwice(_) =>
      case Poll(_) =>
      case Dispatch(_) =>
      case User(_, _) =>
    }
  }

  lemma PolledOpen(s: State, c: nat)
    requires Inv(s) && c < |s.conns| && s.conns[c].polled
    ensures s.conns[c].view.state != L.Connecting
  {
    About(s, c);
  }

  lemma TaskAborts(s: State, loop: nat)
    requires Inv(s) && Enabled(s, RunTask(loop))
    ensures Next(s, RunTask(loop)).aborted.Some? <==>
            s.queues[loop][0].Destroy? && L.Interested(s.conns[s.queues[loop][0].conn].view.chan)
  {
    hide Inv, Local;
    var c := s.queues[loop][0].conn;
    var t := Next(s, RunTask(loop));
    match s.queues[loop][0] {
      case Establish(_) => EstablishIsLocal(s, loop); LocalRuns(s, t, c);
      case ForceClose(_) => ForceIsLocal(s, loop); LocalRuns(s, t, c);
      case Remove(_) => RemoveIsLocal(s, loop); LocalRuns(s, t, c);
      case Destroy(_) =>
        About(s, c);
        assert QueueOk(s.queues[loop], loop, c, s.conns[c]);
        PopSame(s.queues[loop]);
    }
  }

  // ---------------------------------------------------------------- whole runs

  /** No connection loses a part of its life. */
  lemma StepExtendsLives(s: State, step: Step, c: nat)
    requires Inv(s) && Enabled(s, step) && c < |s.conns|
    ensures c < |Next(s, step).conns| && s.conns[c].log <= Next(s, step).conns[c].log
    ensures s.conns[c].view.revived ==> Next(s, step).conns[c].view.revived
  {
    hide Inv, Decimal, L.Update;
    match step {
      case RunTask(loop) => TaskExtendsLives(Pop(s, loop), s.queues[loop][0], c);
      case CloseEvent(d) =>
      case CloseTwice(d) =>
      case NewConnection(_) =>
      case Poll(_) =>
      case Dispatch(_) =>
      case User(_, _) =>
    }
  }

  lemma TaskExtendsLives(s: State, task: Task, c: nat)
    requires InRange(s) && task.conn < |s.conns| && c < |s.conns|
    ensures |DoTask(s, task).conns| == |s.conns| && s.conns[c].log <= DoTask(s, task).conns[c].log
    ensures s.conns[c].view.revived ==> DoTask(s, task).conns[c].view.revived
  {
    hide L.Update;
  }

  /** `c` is a connection at which an assertion may fail at the end of the run. */
  predicate Blamed(s: State, steps: seq<Step>, c: nat) {
    c < |s.conns| && (s.conns[c].view.revived || (steps != [] && steps[|steps| - 1] == CloseTwice(c)))
  }

  lemma {:induction false} RunKeepsInv(s: State, steps: seq<Step>)
    requires Inv(s) && IsRun(s, steps)
    ensures (
      var t := Exec(s, steps);
      && (t.aborted.None? ==> Inv(t))
      && (t.aborted.Some? ==> Blamed(t, steps, t.aborted.value)))
    decreases |steps|
  {
    hide Next, Enabled;
    if steps != [] {
      var t := Next(s, steps[0]);
      StepKeepsInv(s, steps[0]);
      if t.aborted.None? {
        RunKeepsInv(t, steps[1..]);
      } else {
        StepExtendsLives(s, steps[0], t.aborted.value);
        AbortEnds(t, steps[1..]);
      }
    }
  }

  lemma AbortEnds(s: State, steps: seq<Step>)
    requires s.aborted.Some? && IsRun(s, steps)
    ensures steps == []
  {
  }

  lemma {:induction false} RunExtendsLives(s: State, steps: seq<Step>, c: nat)
    requires Inv(s) && IsRun(s, steps) && c < |s.conns|
    ensures c < |Exec(s, steps).conns| && s.conns[c].log <= Exec(s, steps).conns[c].log
    decreases |steps|
  {
    if steps != [] {
      var t := Next(s, steps[0]);
      StepKeepsInv(s, steps[0]);
      StepExtendsLives(s, steps[0], c);
      if t.aborted.None? {
        RunExtendsLives(t, steps[1..], c);
      } else {
        assert steps[1..] == [];
      }
    }
  }

  /** A closed connection is out of the epoll set and wants nothing from it, unless it was revived. */
  predicate Settled(k: Conn) {
    k.view.chan == L.IDLE || k.log == [EstablishedLife] || k.view.revived
  }

  /** In every run of any server: the life of every connection is a prefix of established, closed, erased, destroyed;
      the map holds exactly the connections not yet erased, under their own names; a closed connection's channel has
      no interest unless it was revived; and an assertion fails only at a revived connection, or at one that the last
      event closes twice. */
  lemma EveryRunIsOrderly(server: string, threads: nat, steps: seq<Step>)
    requires IsRun(Init(server, threads), steps)
    ensures (
      var s := Exec(Init(server, threads), steps);
      && (s.aborted.Some? ==> Blamed(s, steps, s.aborted.value))
      && (s.aborted.None? ==>
            && (forall c: nat :: c < |s.conns| ==> s.conns[c].log <= LIFE && Settled(s.conns[c]))
            && (forall c: nat :: c < |s.conns| ==>
                  (s.conns[c].name in s.connections <==> ErasedLife !in s.conns[c].log))
            && (forall name :: name in s.connections ==>
                  s.connections[name] < |s.conns| && s.conns[s.connections[name]].name == name)))
  {
    InitInv(server, threads);
    RunKeepsInv(Init(server, threads), steps);
    var s := Exec(Init(server, threads), steps);
    if s.aborted.None? {
      forall c: nat | c < |s.conns|
        ensures s.conns[c].log <= LIFE && Settled(s.conns[c])
        ensures s.conns[c].name in s.connections <==> ErasedLife !in s.conns[c].log
      {
        About(s, c);
        LifePrefix(s.conns[c]);
      }
    }
  }

  lemma LifePrefix(k: Conn)
    requires LifeOk(k)
    ensures k.log <= LIFE && (ErasedLife in k.log <==> |k.log| > 2) && (|k.log| == 1 ==> k.log == [EstablishedLife])
  {
    if |k.log| > 2 {
      assert k.log[2] == ErasedLife;
    }
  }

  // ---------------------------------------------------------------- teardown completes

  predicate Quiet(s: State) {
    forall l: nat :: l < |s.queues| ==> s.queues[l] == []
  }

  /** Once all queues are empty every connection is either open and listed or completely destroyed. */
  lemma QuietMeansSettled(s: State, c: nat)
    requires Inv(s) && Quiet(s) && c < |s.conns|
    ensures s.conns[c].log == LIFE || (s.conns[c].log == [EstablishedLife] && L.Open(s.conns[c].view.state))
    ensures s.conns[c].name in s.connections <==> L.Open(s.conns[c].view.state)
  {
    About(s, c);
    var k := s.conns[c];
    assert QueueOk(s.queues[k.loop], k.loop, c, k) && QueueOk(s.queues[0], 0, c, k);
    LifePrefix(k);
  }

  function TaskWeight(t: Task): nat {
    match t
    case Establish(_) => 1
    case Destroy(_) => 1
    case Remove(_) => 2
    case ForceClose(_) => 3
  }

  function Weight(q: seq<Task>): nat {
    if q == [] then 0 else TaskWeight(q[0]) + Weight(q[1..])
  }

  function TotalWeight(queues: seq<seq<Task>>): nat {
    if queues == [] then 0 else Weight(queues[0]) + TotalWeight(queues[1..])
  }

  lemma {:induction false} WeightPost(q: seq<Task>, t: Task)
    ensures Weight(q + [t]) == Weight(q) + TaskWeight(t)
    decreases |q|
  {
    if q != [] {
      WeightPost(q[1..], t);
      assert (q + [t])[1..] == q[1..] + [t];
    } else {
      assert q + [t] == [t] && [t][1..] == [];
    }
  }

  lemma {:induction false} TotalChange(queues: seq<seq<Task>>, l: nat, q: seq<Task>)
    requires l < |queues|
    ensures TotalWeight(queues[l := q]) == TotalWeight(queues) - Weight(queues[l]) + Weight(q)
  {
    if l == 0 {
      assert queues[0 := q][1..] == queues[1..];
    } else {
      TotalChange(queues[1..], l - 1, q);
      assert queues[l := q][1..] == queues[1..][l - 1 := q];
    }
  }

  lemma PostWeight(s: State, l: nat, t: Task)
    requires l < |s.queues|
    ensures TotalWeight(Post(s, l, t).queues) == TotalWeight(s.queues) + TaskWeight(t)
  {
    TotalChange(s.queues, l, s.queues[l] + [t]);
    WeightPost(s.queues[l], t);
  }

  /** Running a task uses up more than it posts. */
  lemma TaskLightens(s: State, loop: nat)
    requires Inv(s) && Enabled(s, RunTask(loop))
    ensures TotalWeight(Next(s, RunTask(loop)).queues) < TotalWeight(s.queues)
  {
    hide Inv, Weight, TotalWeight;
    var u := Pop(s, loop);
    var task := s.queues[loop][0];
    PopWeight(s.queues, loop);
    var k := u.conns[task.conn];
    match task {
      case Establish(c) =>
      case Destroy(c) =>
      case Remove(c) => if k.name in u.connections { PostWeight(u, k.loop, Destroy(c)); }
      case ForceClose(c) =>
        if k.loop == 0 {
          if k.name in u.connections { PostWeight(u, 0, Destroy(c)); }
        } else {
          PostWeight(u, 0, Remove(c));
        }
    }
  }

  /** How many connections wait for an event to be dispatched. */
  function PolledCount(conns: seq<Conn>): nat {
    if conns == [] then 0 else One(conns[0].polled) + PolledCount(conns[1..])
  }

  lemma {:induction false} PolledChange(conns: seq<Conn>, c: nat, k: Conn)
    requires c < |conns|
    ensures PolledCount(conns[c := k]) == PolledCount(conns) - One(conns[c].polled) + One(k.polled)
    decreases |conns|
  {
    if c == 0 {
      assert conns[0 := k][1..] == conns[1..];
    } else {
      PolledChange(conns[1..], c - 1, k);
      assert conns[c := k][1..] == conns[1..][c - 1 := k];
    }
  }

  /** A task makes no connection wait. */
  lemma TaskPollsNone(s: State, loop: nat)
    requires Inv(s) && Enabled(s, RunTask(loop))
    ensures PolledCount(Next(s, RunTask(loop)).conns) <= PolledCount(s.conns)
  {
    hide Inv, PolledCount;
    var c := s.queues[loop][0].conn;
    var t := Next(s, RunTask(loop));
    PolledChange(s.conns, c, t.conns[c]);
    assert t.conns == s.conns[c := t.conns[c]];
  }

  /** What is left to be done when nothing new comes in. */
  function Remaining(s: State): nat { TotalWeight(s.queues) + PolledCount(s.conns) }

  lemma Winds(s: State, step: Step)
    requires Inv(s) && NoneReadsOn(s) && Enabled(s, step) && (step.RunTask? || step.Dispatch?)
    ensures Inv(Next(s, step)) && NoneReadsOn(Next(s, step)) && Remaining(Next(s, step)) < Remaining(s)
  {
    StepKeepsInv(s, step);
    AbortsExactly(s, step);
    match step
    case RunTask(l) =>
      TaskReadsNone(s, l);
      TaskLightens(s, l);
      TaskPollsNone(s, l);
    case Dispatch(c) =>
      hide Inv;
      PolledChange(s.conns, c, s.conns[c].(polled := false));
  }

  lemma PopWeight(queues: seq<seq<Task>>, l: nat)
    requires l < |queues| && queues[l] != []
    ensures TotalWeight(queues[l := queues[l][1..]]) == TotalWeight(queues) - TaskWeight(queues[l][0])
  {
    TotalChange(queues, l, queues[l][1..]);
  }

  /** The loops only finish what they have: events already polled, none of which closes, and tasks. */
  predicate OnlyTasks(steps: seq<Step>) {
    forall i :: 0 <= i < |steps| ==> steps[i].RunTask? || steps[i].Dispatch?
  }

  /** However far the protocol has come, running queued tasks in any order never makes an assertion fail as long as no
      closed connection reads, and every step uses up what remains: no such run goes on for ever. */
  lemma {:induction false} AnyTeardown(s: State, steps: seq<Step>)
    requires Inv(s) && NoneReadsOn(s) && IsRun(s, steps) && OnlyTasks(steps)
    ensures Inv(Exec(s, steps)) && NoneReadsOn(Exec(s, steps))
    ensures |steps| + Remaining(Exec(s, steps)) <= Remaining(s)
    decreases |steps|
  {
    if steps != [] {
      Winds(s, steps[0]);
      hide Inv, Enabled, Next, Remaining, NoneReadsOn;
      AnyTeardown(Next(s, steps[0]), steps[1..]);
    }
  }

  /** A run of tasks that cannot be extended ends with every queue empty: each connection is then open and listed, or
      completely destroyed. */
  lemma TeardownEndsQuiet(s: State, steps: seq<Step>)
    requires Inv(s) && NoneReadsOn(s) && IsRun(s, steps) && OnlyTasks(steps)
    requires forall l: nat :: !Enabled(Exec(s, steps), RunTask(l)) && !Enabled(Exec(s, steps), Dispatch(l))
    ensures Quiet(Exec(s, steps))
    ensures forall c: nat :: c < |Exec(s, steps).conns| ==>
      var k := Exec(s, steps).conns[c];
      (k.log == LIFE || (k.log == [EstablishedLife] && L.Open(k.view.state))) &&
      (k.name in Exec(s, steps).connections <==> L.Open(k.view.state))
  {
    AnyTeardown(s, steps);
    var t := Exec(s, steps);
    if !Quiet(t) {
      var step := MoreToDo(t);
    }
    forall c: nat | c < |t.conns|
      ensures t.conns[c].log == LIFE || (t.conns[c].log == [EstablishedLife] && L.Open(t.conns[c].view.state))
      ensures t.conns[c].name in t.connections <==> L.Open(t.conns[c].view.state)
    {
      QuietMeansSettled(t, c);
    }
  }

  /** And such a run exists. */
  lemma {:induction false} TeardownCompletes(s: State) returns (steps: seq<Step>)
    requires Inv(s) && NoneReadsOn(s)
    ensures IsRun(s, steps) && OnlyTasks(steps)
    ensures Inv(Exec(s, steps)) && Quiet(Exec(s, steps))
    decreases Remaining(s)
  {
    hide Inv, Enabled, Next, Remaining, NoneReadsOn, InRange, Quiet;
    if Quiet(s) {
      steps := [];
    } else {
      var step := MoreToDo(s);
      Winds(s, step);
      var rest := TeardownCompletes(Next(s, step));
      steps := [step] + rest;
      RunCons(s, step, rest);
    }
  }

  /** As long as a queue holds a task, a task can be run, or an event that it waits for dispatched. */
  lemma MoreToDo(s: State) returns (step: Step)
    requires Inv(s) && !Quiet(s)
    ensures Enabled(s, step) && (step.RunTask? || step.Dispatch?)
  {
    var l: nat :| l < |s.queues| && s.queues[l] != [];
    TaskAllowed(s, l);
    var c := s.queues[l][0].conn;
    step := if Busy(s, l, c) then Dispatch(c) else RunTask(l);
  }

  lemma TaskAllowed(s: State, l: nat)
    requires Inv(s) && l < |s.queues| && s.queues[l] != []
    ensures InRange(s) && s.queues[l][0].conn < |s.conns|
    ensures Enabled(s, RunTask(l)) <==> !Busy(s, l, s.queues[l][0].conn)
  {
    assert Known(s.queues[l], |s.conns|);
    assert s.queues[l][0] in s.queues[l];
  }

  predicate NoneReadsOn(s: State) {
    forall c: nat :: c < |s.conns| && s.conns[c].view.state == L.Disconnected ==> !s.conns[c].view.chan.wantsRead
  }

  lemma TaskReadsNone(s: State, l: nat)
    requires Inv(s) && Enabled(s, RunTask(l)) && NoneReadsOn(s)
    ensures NoneReadsOn(Next(s, RunTask(l))) && Next(s, RunTask(l)).aborted.None?
  {
    AbortsExactly(s, RunTask(l));
    About(s, s.queues[l][0].conn);
    hide Inv;
  }

  // ---------------------------------------------------------------- reading again after the close

  lemma RunCons(s: State, step: Step, rest: seq<Step>)
    requires Enabled(s, step) && IsRun(Next(s, step), rest)
    ensures IsRun(s, [step] + rest) && Exec(s, [step] + rest) == Exec(Next(s, step), rest)
  {
    assert ([step] + rest)[1..] == rest;
  }

  /** A server with one thread and one established connection. */
  function OneOpen(server: string): State {
    var view := L.View(L.Connected, true, L.Chan(true, false, true), false, 0);
    State(server, [Conn(Name(server, 1), 1, view, false, [EstablishedLife])],
          map[Name(server, 1) := 0], 2, [[], []], None)
  }

  lemma OneIsReached(server: string, rest: seq<Step>)
    requires IsRun(OneOpen(server), rest)
    ensures IsRun(Init(server, 1), [NewConnection(1)] + ([RunTask(1)] + rest))
    ensures Exec(Init(server, 1), [NewConnection(1)] + ([RunTask(1)] + rest)) == Exec(OneOpen(server), rest)
  {
    hide Name;
    var a := Next(Init(server, 1), NewConnection(1));
    assert Init(server, 1).queues == [[], []];
    assert [] + [Establish(0)] == [Establish(0)];
    assert a.queues == [[], []][1 := [Establish(0)]];
    assert a.queues == [[], [Establish(0)]];
    assert a.conns == [Conn(Name(server, 1), 1, L.CREATED, false, [])];
    var b := Next(a, RunTask(1));
    assert b.conns == [a.conns[0].(view := L.Moved(L.CREATED, L.Establish), log := [] + [EstablishedLife])];
    assert [] + [EstablishedLife] == [EstablishedLife];
    assert [Establish(0)][1..] == [];
    assert b.queues == a.queues[1 := []];
    assert b.queues == [[], []];
    assert b.connections == OneOpen(server).connections;
    assert b == OneOpen(server);
    RunCons(a, RunTask(1), rest);
    RunCons(Init(server, 1), NewConnection(1), [RunTask(1)] + rest);
  }

  /** The exception is real: `startRead` between the close and the last task makes the removal of the channel fail. */
  lemma RestartAborts(server: string) returns (steps: seq<Step>)
    ensures IsRun(Init(server, 1), steps) && Exec(Init(server, 1), steps).aborted == Some(0)
  {
    hide Name;
    var p := Next(OneOpen(server), Poll(0));
    var c := Next(p, CloseEvent(0));
    var d := Next(c, User(0, L.StartRead));
    var e := Next(d, RunTask(0));
    RunCons(e, RunTask(1), []);
    RunCons(d, RunTask(0), [RunTask(1)] + []);
    RunCons(c, User(0, L.StartRead), [RunTask(0)] + ([RunTask(1)] + []));
    steps := [User(0, L.StartRead)] + ([RunTask(0)] + ([RunTask(1)] + []));
    RunCons(p, CloseEvent(0), steps);
    RunCons(OneOpen(server), Poll(0), [CloseEvent(0)] + steps);
    steps := [Poll(0)] + ([CloseEvent(0)] + steps);
    OneIsReached(server, steps);
    steps := [NewConnection(1)] + ([RunTask(1)] + steps);
  }

  /** The same server after the connection has stopped reading, and with its forced close queued. */
  function OneForced(server: string): State {
    var view := L.View(L.Disconnecting, false, L.IDLE, false, 1);
    var conn := Conn(Name(server, 1), 1, view, false, [EstablishedLife]);
    State(server, [conn], map[Name(server, 1) := 0], 2, [[], [ForceClose(0)]],
          None)
  }

  lemma ForcedIsReached(server: string, rest: seq<Step>)
    requires IsRun(OneForced(server), rest)
    ensures (
      var steps := [User(0, L.StopRead)] + ([User(0, L.RequestClose)] + rest);
      IsRun(OneOpen(server), steps) && Exec(OneOpen(server), steps) == Exec(OneForced(server), rest))
  {
    hide Name;
    var c := Next(OneOpen(server), User(0, L.StopRead));
    var d := Next(c, User(0, L.RequestClose));
    assert [] + [ForceClose(0)] == [ForceClose(0)] && d.queues == [[], [ForceClose(0)]];
    assert d.conns == OneForced(server).conns;
    assert d == OneForced(server);
    RunCons(c, User(0, L.RequestClose), rest);
    RunCons(OneOpen(server), User(0, L.StopRead), [User(0, L.RequestClose)] + rest);
  }

  /** So is the other one: a connection that stopped reading is outside the epoll set, a forced close puts it back in,
      and a hang-up before the last task fails the assertion of `handleClose`. */
  lemma ForcedCloseAborts(server: string) returns (steps: seq<Step>)
    ensures IsRun(Init(server, 1), steps) && Exec(Init(server, 1), steps).aborted == Some(0)
    ensures forall c :: User(c, L.StartRead) !in steps
  {
    hide Name;
    var e := Next(OneForced(server), RunTask(1));
    var p := Next(e, Poll(0));
    RunCons(p, CloseEvent(0), []);
    RunCons(e, Poll(0), [CloseEvent(0)] + []);
    RunCons(OneForced(server), RunTask(1), [Poll(0)] + ([CloseEvent(0)] + []));
    var rest := [RunTask(1)] + ([Poll(0)] + ([CloseEvent(0)] + []));
    ForcedIsReached(server, rest);
    steps := [User(0, L.StopRead)] + ([User(0, L.RequestClose)] + rest);
    OneIsReached(server, steps);
    steps := [NewConnection(1)] + ([RunTask(1)] + steps);
  }
}

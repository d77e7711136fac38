/** One TCP connection inside its I/O loop (net/TcpConnection.cpp) with its channel's event dispatch
    (net/Channel.cpp:55-90).  The kernel is abstract: `kernel` is the stream of bytes it has accepted, an attempt to
    write is answered by a `WriteAnswer`, an attempt to read by a `ReadResult`.  User callbacks are arbitrary
    sequences of calls on the connection; other threads post tasks. */
module TcpConnection {
  import opened Util
  import opened ConnectionLife
  import B = Buffer

  type Bytes = seq<B.Byte>

  /** `Room(n)`: the kernel takes at most `n` bytes; `PeerGone`: EPIPE or ECONNRESET. */
  datatype WriteAnswer = Room(bytes: nat) | WouldBlock | PeerGone | OtherError

  datatype Task =
    | SendTask(msg: Bytes)
    | ShutdownTask
    | ForceCloseTask
    | StartReadTask
    | StopReadTask
    | WriteCompleteTask
    | HighWaterTask(size: nat)

  /** What user code may do inside a callback. */
  datatype Call =
    | SendCall(msg: Bytes, answer: WriteAnswer)
    | ShutdownCall
    | ForceCloseCall
    | StartReadCall
    | StopReadCall
    | TakeInput(bytes: nat)

  datatype Note =
    | ConnectionNote(state: ConnState)
    | MessageNote
    | WriteCompleteNote
    | HighWaterNote(size: nat)

  /** The events poll reports for a descriptor. */
  datatype Revents = Revents(hup: bool, readable: bool, urgent: bool, peerClosed: bool, error: bool, invalid: bool,
                             writable: bool)

  datatype Event =
    | TaskEvent(calls: seq<Call>, answer: WriteAnswer)
    | PollEvent(revents: Revents, read: B.ReadResult, answer: WriteAnswer, closeCalls: seq<Call>, readCalls: seq<Call>)
    | Polled
    | InLoop(calls: seq<Call>)
    | OtherThreadSends(msg: Bytes)
    | OtherThreadShutsDown
    | OtherThreadForcesClose
    | OtherThreadStartsRead
    | OtherThreadStopsRead

  function Min(a: nat, b: nat): nat { if a <= b then a else b }

  function Written(answer: WriteAnswer, len: nat): (n: nat)
    ensures n <= len && (!answer.Room? ==> n == 0)
    ensures answer.Room? ==> n <= answer.bytes && (n == len || n == answer.bytes)
  {
    if answer.Room? then Min(answer.bytes, len) else 0
  }

  /** The close callback runs for a hang-up without input, and again when a read finds the end of the stream. */
  predicate HangsUp(r: Revents) { r.hup && !r.readable }
  predicate ReadsEnd(r: Revents, read: B.ReadResult) {
    (r.readable || r.urgent || r.peerClosed) && read == B.Received([])
  }

  /** The assertion at net/TcpConnection.cpp:279 fails while the event is dispatched. */
  predicate ClosesBadly(state: ConnState, r: Revents, read: B.ReadResult) {
    || (HangsUp(r) && ReadsEnd(r, read))
    || ((HangsUp(r) || ReadsEnd(r, read)) && !Open(state))
  }

  /** Whether reading is of interest after the calls. */
  function ReadInterest(calls: seq<Call>, before: bool): bool {
    if calls == [] then before
    else
      ReadInterest(calls[1..],
                   if calls[0].StartReadCall? then true else if calls[0].StopReadCall? then false else before)
  }

  /** Nothing is lost, duplicated or reordered between what went out and what is still held. */
  predicate Balanced(out: Bytes, held: Bytes, total: Bytes) { out + held == total }

  lemma BalancedMoves(out: Bytes, held: Bytes, total: Bytes, n: nat)
    requires Balanced(out, held, total) && n <= |held|
    ensures Balanced(out + held[..n], held[n..], total)
  {
    assert held == held[..n] + held[n..];
  }

  lemma NothingMoves(out: Bytes, held: Bytes)
    ensures out + held[..0] == out && held[0..] == held
  {
  }

  lemma BalancedAccepts(out: Bytes, held: Bytes, sent: seq<Bytes>, msg: Bytes, n: nat)
    requires Balanced(out, held, Concat(sent)) && n <= |msg| && (n == 0 || held == [])
    ensures Balanced(out + msg[..n], held + msg[n..], Concat(sent + [msg]))
  {
    ConcatSnoc(sent, msg);
    assert msg == msg[..n] + msg[n..];
  }

  lemma BalancedDone(out: Bytes, held: Bytes, total: Bytes)
    requires Balanced(out, held, total)
    ensures held == [] <==> out == total
  {
    assert |out| + |held| == |total|;
  }

  /** A channel is in the epoll set exactly while it has an interest; after the close it is out of it for good, unless
      something revives it. */
  predicate InterestOk(state: ConnState, wantsWrite: bool, held: bool, wantsRead: bool, reading: bool, added: bool,
                     revived: bool) {
    && (state != Disconnected ==> (wantsWrite <==> held))
    && (state == Connecting ==> reading && !wantsRead && !wantsWrite && !added)
    && (Open(state) ==> reading == wantsRead && (added <==> wantsRead || wantsWrite))
    && (state == Disconnected ==> !wantsWrite)
    && (state == Disconnected && !revived ==> !wantsRead && !added)
  }

  /** The write half is closed only behind the last write, and a shutdown once asked for is not forgotten. */
  predicate HalfClose(halfClosed: bool, wantsWrite: bool, state: ConnState, kernel: Bytes, kernelAtShutdown: Bytes,
                      pending: seq<Task>) {
    && (halfClosed ==> !wantsWrite && (state == Disconnecting || state == Disconnected) && kernel == kernelAtShutdown)
    && (state == Disconnecting ==> halfClosed || wantsWrite || ShutdownTask in pending || ForceCloseTask in pending)
    && (ShutdownTask in pending ==> state == Disconnecting || state == Disconnected)
  }

  /** The forced closes among the functors. */
  function Forces(pending: seq<Task>): nat { multiset(pending)[ForceCloseTask] }

  lemma ForcesPost(pending: seq<Task>, t: Task)
    ensures Forces(pending + [t]) == Forces(pending) + if t == ForceCloseTask then 1 else 0
  {
  }

  lemma ForcesDrop(pending: seq<Task>)
    requires pending != []
    ensures Forces(pending) == Forces(pending[1..]) + if pending[0] == ForceCloseTask then 1 else 0
  {
    assert pending == [pending[0]] + pending[1..];
  }

  /** A forced close that leaves the queue after it is done might as well have left it before. */
  lemma ForceTaken(v: View, w: View)
    requires v.forces > 0
    ensures Moved(w, TakeForce) == if w.forces > 0 then w.(forces := w.forces - 1) else w
    ensures Reaches(v, w) ==> w.forces > 0 && Reaches(Moved(v, TakeForce), Moved(w, TakeForce))
    ensures Reaches(Moved(v, Move.Close), w) ==>
              w.forces > 0 && Reaches(Moved(Moved(v, TakeForce), Move.Close), Moved(w, TakeForce))
  {
    hide Reaches;
    if Reaches(v, w) { ReachesShift(v, w); }
    if Reaches(Moved(v, Move.Close), w) { ReachesShift(Moved(v, Move.Close), w); }
  }

  lemma ClosingMoves(v: View)
    ensures Moved(v, Move.Close) ==
            View(Disconnected, v.reading, Chan(false, false, AfterUpdate(v.chan.added, false)),
                 v.revived || !v.chan.added, v.forces)
  {
  }

  lemma HoldBackReaches(v: View)
    ensures May(v, Move.HoldBack) ==> Reaches(v, Moved(v, Move.HoldBack))
  {
    if May(v, Move.HoldBack) { ReachesByMove(v, Move.HoldBack); }
  }

  lemma AllWrittenReaches(v: View)
    ensures May(v, Move.AllWritten) ==> Reaches(v, Moved(v, Move.AllWritten))
  {
    if May(v, Move.AllWritten) { ReachesByMove(v, Move.AllWritten); }
  }

  lemma ClosingKeeps(wantsWrite: bool, held: bool, wantsRead: bool, reading: bool, added: bool, revived: bool)
    ensures InterestOk(Disconnected, false, held, false, reading, AfterUpdate(added, false), revived || !added)
  {
  }

  /** Sending posts tasks that neither shut down nor close. */
  lemma SendingKeepsHalf(wantsWrite: bool, wantsWrite': bool, state: ConnState, kernel: Bytes, kernel': Bytes,
                         kernelAtShutdown: Bytes, pending: seq<Task>, pending': seq<Task>)
    requires HalfClose(false, wantsWrite, state, kernel, kernelAtShutdown, pending) && (wantsWrite ==> wantsWrite')
    requires pending <= pending' && (ShutdownTask in pending' ==> ShutdownTask in pending)
    ensures HalfClose(false, wantsWrite', state, kernel', kernelAtShutdown, pending')
  {
  }

  lemma ClosingKeepsHalf(halfClosed: bool, wantsWrite: bool, state: ConnState, kernel: Bytes, kernelAtShutdown: Bytes,
                         pending: seq<Task>)
    requires HalfClose(halfClosed, wantsWrite, state, kernel, kernelAtShutdown, pending)
    ensures HalfClose(halfClosed, false, Disconnected, kernel, kernelAtShutdown, pending)
  {
  }

  function SendPosts(direct: bool, answer: WriteAnswer, w: nat, len: nat, held: nat, mark: nat,
                     writeComplete: bool, highWater: bool): seq<Task> {
    if direct && answer.Room? && w == len then
      if writeComplete then [WriteCompleteTask] else []
    else if w < len && held < mark <= held + (len - w) && highWater then
      [HighWaterTask(held + (len - w))]
    else
      []
  }

  // ---------------------------------------------------------------- what calls do, on values

  datatype Options = Options(writeComplete: bool, highWater: bool, mark: nat)

  /** What user code works on: the connection as the loops see it, its functors, the messages accepted, what of them has
      gone out and what is held, and the input taken and not yet taken. */
  datatype Ledger = Ledger(opts: Options, life: View, pending: seq<Task>, sent: seq<Bytes>, kernel: Bytes, held: Bytes,
                           halfClosed: bool, taken: Bytes, unread: Bytes)

  /** A message is accepted while the connection is fully open, unless it meets a peer that is gone; the kernel is asked
      only if nothing is held. */
  function AfterSend(b: Ledger, msg: Bytes, answer: WriteAnswer): Ledger {
    if b.life.state != Connected || (b.held == [] && answer == PeerGone) then b
    else
      var w := if b.held == [] then Written(answer, |msg|) else 0;
      b.(sent := b.sent + [msg], kernel := b.kernel + msg[..w], held := b.held + msg[w..],
         pending := b.pending + SendPosts(b.held == [], answer, w, |msg|, |b.held|, b.opts.mark, b.opts.writeComplete,
                                          b.opts.highWater),
         life := HeldBack(b.life, w, |msg|))
  }

  function AfterCall(b: Ledger, call: Call): Ledger {
    match call
    case SendCall(msg, answer) => AfterSend(b, msg, answer)
    case ShutdownCall =>
      b.(life := Moved(b.life, Move.ShutDown),
         halfClosed := b.halfClosed || (b.life.state == Connected && b.held == []))
    case ForceCloseCall =>
      b.(life := Moved(b.life, Move.RequestClose),
         pending := b.pending + if Open(b.life.state) then [ForceCloseTask] else [])
    case StartReadCall => b.(life := Moved(b.life, Move.StartRead))
    case StopReadCall => b.(life := Moved(b.life, Move.StopRead))
    case TakeInput(bytes) =>
      var n := Min(bytes, |b.unread|);
      b.(taken := b.taken + b.unread[..n], unread := b.unread[n..])
  }

  /** A callback makes its calls in order. */
  function AfterCalls(b: Ledger, calls: seq<Call>): Ledger
    decreases |calls|
  {
    if calls == [] then b else AfterCalls(AfterCall(b, calls[0]), calls[1..])
  }

  /** The connection is closed, and then the connection callback makes its calls. */
  function AfterClose(b: Ledger, calls: seq<Call>): Ledger {
    AfterCalls(b.(life := Moved(b.life, Move.Close)), calls)
  }

  /** The kernel takes some of what is held; behind the last byte a pending shutdown is carried out. */
  function AfterWrite(b: Ledger, answer: WriteAnswer): Ledger {
    if !b.life.chan.wantsWrite then b
    else
      var w := Written(answer, |b.held|);
      var out := b.(kernel := b.kernel + b.held[..w], held := b.held[w..]);
      if w < |b.held| then out
      else
        out.(life := Moved(b.life, Move.AllWritten), halfClosed := b.halfClosed || b.life.state == Disconnecting,
             pending := b.pending + if b.opts.writeComplete then [WriteCompleteTask] else [])
  }

  lemma WriteShown(b: Ledger, answer: WriteAnswer, c: Ledger)
    requires b.life.chan.wantsWrite && b.held != []
    requires var w := Written(answer, |b.held|);
      c == if w < |b.held| then b.(kernel := b.kernel + b.held[..w], held := b.held[w..])
           else
             b.(kernel := b.kernel + b.held[..w], held := b.held[w..], life := Moved(b.life, Move.AllWritten),
                halfClosed := b.halfClosed || b.life.state == Disconnecting,
                pending := b.pending + if b.opts.writeComplete then [WriteCompleteTask] else [])
    ensures c == AfterWrite(b, answer)
  {
  }

  /** Bytes have been read, and the message callback makes its calls. */
  function AfterMessage(b: Ledger, got: Bytes, calls: seq<Call>): Ledger {
    AfterCalls(b.(unread := b.unread + got), calls)
  }

  function AfterRead(b: Ledger, read: B.ReadResult, got: Bytes, closeCalls: seq<Call>, readCalls: seq<Call>): Ledger {
    if read.Failed? then b
    else if read == B.Received([]) then AfterClose(b, closeCalls)
    else AfterMessage(b, got, readCalls)
  }

  /** The callbacks of a channel, in order: hang-up without input, input, output. */
  function AfterEvent(b: Ledger, r: Revents, read: B.ReadResult, got: Bytes, answer: WriteAnswer, closeCalls: seq<Call>,
                      readCalls: seq<Call>): Ledger {
    var closed := if r.hup && !r.readable then AfterClose(b, closeCalls) else b;
    AfterInput(closed, r, read, got, answer, closeCalls, readCalls)
  }

  function AfterInput(b: Ledger, r: Revents, read: B.ReadResult, got: Bytes, answer: WriteAnswer, closeCalls: seq<Call>,
                      readCalls: seq<Call>): Ledger {
    var input := r.readable || r.urgent || r.peerClosed;
    var afterRead := if input then AfterRead(b, read, got, closeCalls, readCalls) else b;
    if r.writable then AfterWrite(afterRead, answer) else afterRead
  }

  lemma InputDone(b: Ledger, r: Revents, read: B.ReadResult, got: Bytes, answer: WriteAnswer, closeCalls: seq<Call>,
                  readCalls: seq<Call>, c: Ledger)
    requires c == if r.readable || r.urgent || r.peerClosed then AfterRead(b, read, got, closeCalls, readCalls) else b
    ensures AfterInput(b, r, read, got, answer, closeCalls, readCalls) ==
            if r.writable then AfterWrite(c, answer) else c
  {
  }

  /** A read that finds bytes takes some of them, but at least one; no other event brings any. */
  predicate Got(r: Revents, read: B.ReadResult, got: Bytes) {
    if (r.readable || r.urgent || r.peerClosed) && read.Received? && read.data != [] then [] < got <= read.data
    else got == []
  }

  /** What the callbacks for input report. */
  function ReadNotes(r: Revents, read: B.ReadResult): seq<Note> {
    if !(r.readable || r.urgent || r.peerClosed) || read.Failed? then []
    else if read == B.Received([]) then [ConnectionNote(Disconnected)]
    else [MessageNote]
  }

  /** A functor of the queue. */
  function AfterTask(b: Ledger, task: Task, calls: seq<Call>, answer: WriteAnswer): Ledger {
    match task
    case SendTask(msg) => AfterSend(b, msg, answer)
    case ShutdownTask => b.(halfClosed := b.halfClosed || !b.life.chan.wantsWrite)
    case ForceCloseTask => if Open(b.life.state) then AfterClose(b, calls) else b
    case StartReadTask => b.(life := Moved(b.life, Move.StartRead))
    case StopReadTask => b.(life := Moved(b.life, Move.StopRead))
    case WriteCompleteTask => AfterCalls(b, calls)
    case HighWaterTask(_) => AfterCalls(b, calls)
  }

  /** The functor leaves the queue. */
  function WithoutTask(b: Ledger): Ledger {
    if b.pending == [] then b
    else
      b.(pending := b.pending[1..], life := if b.pending[0].ForceCloseTask? then Moved(b.life, TakeForce) else b.life)
  }

  /** The interest in writing after `w` bytes of a message have gone out. */
  function HeldBack(life: View, w: nat, len: nat): View {
    if w < len then Moved(life, Move.HoldBack) else life
  }

  /** The messages a callback sends before it asks to close in either way. */
  function SentBy(calls: seq<Call>): seq<Bytes> {
    if calls == [] || calls[0].ShutdownCall? || calls[0].ForceCloseCall? then []
    else (if calls[0].SendCall? then [calls[0].msg] else []) + SentBy(calls[1..])
  }

  /** Whatever a callback sends on a fully open connection is accepted, up to its own request to close, if the peer does
      not vanish meanwhile. */
  lemma {:induction false} CallbackSends(b: Ledger, calls: seq<Call>)
    requires b.life.state == Connected && forall c :: c in calls && c.SendCall? ==> c.answer != PeerGone
    ensures AfterCalls(b, calls).sent == b.sent + SentBy(calls)
    decreases |calls|
  {
    if calls != [] {
      var next := AfterCall(b, calls[0]);
      assert forall c :: c in calls[1..] ==> c in calls;
      if calls[0].ShutdownCall? || calls[0].ForceCloseCall? {
        ClosingSendsNothing(next, calls[1..]);
      } else {
        CallbackSends(next, calls[1..]);
        assert b.sent + SentBy(calls) == next.sent + SentBy(calls[1..]);
      }
    }
  }

  lemma {:induction false} ClosingSendsNothing(b: Ledger, calls: seq<Call>)
    requires b.life.state == Disconnecting || b.life.state == Disconnected
    ensures AfterCalls(b, calls).sent == b.sent
    decreases |calls|
  {
    if calls != [] {
      ClosingSendsNothing(AfterCall(b, calls[0]), calls[1..]);
    }
  }

  /** What has happened so far. */
  datatype Moment = Moment(sent: seq<Bytes>, kernel: Bytes, received: Bytes, taken: Bytes, notes: seq<Note>,
                           halfClosed: bool, state: ConnState, closes: nat, revived: bool)

  /** Nothing that has happened is undone, no byte goes out behind a half-close, and nothing follows the close. */
  predicate Follows(a: Moment, b: Moment) {
    && a.sent <= b.sent && a.kernel <= b.kernel && a.received <= b.received && a.taken <= b.taken && a.notes <= b.notes
    && (a.halfClosed ==> b.halfClosed && b.kernel == a.kernel)
    && (a.state == Disconnected ==> b.state == Disconnected)
    && (b.state == Connecting ==> a.state == Connecting)
    && (b.state == Connected ==> a.state == Connecting || a.state == Connected)
    && a.closes <= b.closes && (a.revived ==> b.revived)
  }

  lemma FollowsSelf(a: Moment)
    ensures Follows(a, a)
  {
  }

  lemma FollowsOn(a: Moment, b: Moment, c: Moment)
    requires Follows(a, b) && Follows(b, c)
    ensures Follows(a, c)
  {
  }

  lemma FollowsClose(a: Moment, b: Moment)
    requires Follows(a, b)
    ensures Follows(a, b.(closes := b.closes + 1))
  {
  }

  lemma FollowsLeave(a: Moment, revived: bool)
    requires Open(a.state)
    ensures Follows(a, a.(state := Disconnected, notes := a.notes + [ConnectionNote(Disconnected)],
                          revived := a.revived || revived))
  {
  }

  lemma FollowsNote(a: Moment, note: Note)
    ensures Follows(a, a.(notes := a.notes + [note]))
  {
  }

  lemma FollowsReads(a: Moment, b: Moment)
    requires Follows(a, b)
    ensures a.received <= b.received
  {
  }

  lemma StaysClosed(a: Moment, b: Moment)
    requires Follows(a, b)
    ensures a.closes <= b.closes && (a.state == Disconnected ==> b.state == Disconnected)
  {
  }

  class TcpConnection {
    const hasWriteComplete: bool
    const hasHighWater: bool
    const highWaterMark: nat
    const input: B.Buffer
    const output: B.Buffer

    var state: ConnState
    var reading: bool
    var wantsRead: bool          // the channel's interest bits
    var wantsWrite: bool
    var added: bool              // the descriptor is in the epoll set
    var pending: seq<Task>       // this connection's functors in its loop, in queue order
    var aborted: bool            // a failed assertion ended the process

    var kernel: Bytes            // bytes the kernel accepted for the peer
    var halfClosed: bool         // shutdownWrite has been called
    var notes: seq<Note>         // user callbacks made
    var closes: nat              // runs of the server's close callback
    ghost var sent: seq<Bytes>   // messages accepted, in order
    ghost var received: Bytes    // bytes read from the kernel
    ghost var taken: Bytes       // bytes user code took from the input buffer
    ghost var kernelAtShutdown: Bytes
    var revived: bool            // the descriptor went back into the epoll set at or after the close

    /** What the loops see of the connection. */
    function Life(): View
      reads this`state, this`reading, this`wantsRead, this`wantsWrite, this`added, this`revived, this`pending
    {
      View(state, reading, Chan(wantsRead, wantsWrite, added), revived, Forces(pending))
    }

    ghost function Book(): Ledger
      requires output.Valid() && input.Valid()
      reads this, output, input
    {
      Ledger(Options(hasWriteComplete, hasHighWater, highWaterMark), Life(), pending, sent, kernel, output.Contents(),
             halfClosed, taken, input.Contents())
    }

    /** Only user code and writing have been at work. */
    twostate predicate Wandered()
      reads this`state, this`reading, this`wantsRead, this`wantsWrite, this`added, this`revived, this`pending
    {
      Reaches(old(Life()), Life())
    }

    /** The connection has been closed once. */
    twostate predicate Closed()
      reads this`state, this`reading, this`wantsRead, this`wantsWrite, this`added, this`revived, this`pending
    {
      Open(old(state)) && Reaches(Moved(old(Life()), Move.Close), Life())
    }

    /** At most one move of this kind. */
    twostate predicate MovedBy(m: Move)
      reads this`state, this`reading, this`wantsRead, this`wantsWrite, this`added, this`revived, this`pending
    {
      Life() == old(Life()) || (May(old(Life()), m) && Life() == Moved(old(Life()), m))
    }

    /** Nothing accepted or received is lost, duplicated or reordered. */
    ghost predicate Streams()
      requires output.Valid() && input.Valid()
      reads this`kernel, this`sent, this`taken, this`received, input, output
    {
      && output != input
      && Balanced(kernel, output.Contents(), Concat(sent))
      && Balanced(taken, input.Contents(), received)
    }

    ghost predicate Valid()
      reads this, input, output
    {
      && output.Valid() && input.Valid() && Streams()
      && InterestOk(state, wantsWrite, output.Contents() != [], wantsRead, reading, added, revived)
      && HalfClose(halfClosed, wantsWrite, state, kernel, kernelAtShutdown, pending)
      && closes <= (if state == Disconnected then 1 else 0)
      && (state == Connecting ==> pending == [])
    }

    ghost function Now(): Moment
      reads this`sent, this`kernel, this`received, this`taken, this`notes, this`halfClosed, this`state, this`closes,
            this`revived
    {
      Moment(sent, kernel, received, taken, notes, halfClosed, state, closes, revived)
    }

    /** What every step keeps, relative to its start. */
    twostate predicate Grew()
      reads this`sent, this`kernel, this`received, this`taken, this`notes, this`halfClosed, this`state, this`closes,
            this`revived
    {
      Follows(old(Now()), Now())
    }

    constructor (writeComplete: bool, highWater: bool, mark: nat)
      ensures Valid() && fresh(input) && fresh(output) && !aborted
      ensures state == Connecting && !wantsRead && !wantsWrite && !halfClosed
      ensures pending == [] && kernel == [] && sent == [] && Life() == CREATED
      ensures hasWriteComplete == writeComplete && hasHighWater == highWater && highWaterMark == mark
      ensures notes == [] && closes == 0 && !added && !revived
      ensures input.WritableBytes() == output.WritableBytes() == 1024
    {
      hasWriteComplete, hasHighWater, highWaterMark := writeComplete, highWater, mark;
      input := new B.Buffer(B.INITIAL_SIZE);
      output := new B.Buffer(B.INITIAL_SIZE);
      state, reading := Connecting, true;
      wantsRead, wantsWrite, added := false, false, false;
      pending, aborted := [], false;
      kernel, halfClosed, notes, closes := [], false, [], 0;
      sent, received, taken, kernelAtShutdown, revived := [], [], [], [], false;
    }

    // -------------------------------------------------------------- output

    /** The effect of a message of which `w` bytes go out at once. */
    twostate predicate Accepted(msg: Bytes, w: nat, posts: seq<Task>)
      requires old(output.Valid()) && output.Valid() && w <= |msg|
      reads this`sent, this`kernel, this`pending, output
    {
      && sent == old(sent) + [msg]
      && kernel == old(kernel) + msg[..w]
      && output.Contents() == old(output.Contents()) + msg[w..]
      && pending == old(pending) + posts
    }

    twostate predicate Untouched()
      requires old(output.Valid()) && output.Valid()
      reads this`sent, this`kernel, this`pending, this`wantsWrite, output
    {
      && sent == old(sent) && kernel == old(kernel) && output.Contents() == old(output.Contents())
      && pending == old(pending) && wantsWrite == old(wantsWrite)
    }

    /** Accepts a message unless the connection is gone or a direct write meets a vanished peer; what the kernel does
        not take at once is buffered behind earlier bytes. */
    method SendInLoop(msg: Bytes, answer: WriteAnswer)
      requires Valid() && state != Connecting && (halfClosed ==> state == Disconnected)
      modifies this`kernel, this`sent, this`pending, this`wantsWrite, this`added, output
      ensures Valid()
      ensures (
        var direct := old(output.Contents()) == [];
        var w := if direct then Written(answer, |msg|) else 0;
        var held := |old(output.Contents())|;
        if old(state) == Disconnected || (direct && answer == PeerGone) then Untouched() && Life() == old(Life())
        else
          && Life() == HeldBack(old(Life()), w, |msg|)
          && Accepted(msg, w, SendPosts(direct, answer, w, |msg|, held, highWaterMark, hasWriteComplete, hasHighWater)))
    {
      hide Streams, InterestOk, HalfClose, Written, SendPosts, Moved, Forces, Accepted;
      if state == Disconnected {
        return;
      }
      NotHalfClosed();
      if !wantsWrite && output.ReadableBytes() == 0 {
        SendDirectly(msg, answer);
      } else {
        SendBehind(msg);
      }
    }

    /** Nothing is held: the kernel is asked first. */
    method SendDirectly(msg: Bytes, answer: WriteAnswer)
      requires Valid() && Open(state) && !halfClosed && output.Contents() == []
      modifies this`kernel, this`sent, this`pending, this`wantsWrite, this`added, output
      ensures Valid()
      ensures (
        var w := Written(answer, |msg|);
        if answer == PeerGone then Untouched() && Life() == old(Life())
        else
          && Life() == HeldBack(old(Life()), w, |msg|)
          && Accepted(msg, w, SendPosts(true, answer, w, |msg|, 0, highWaterMark, hasWriteComplete, hasHighWater)))
    {
      hide Concat, Balanced, Written, AfterUpdate, Moved, Forces, HalfClose;
      NotHalfClosed();
      ghost var kernel0, was, tasks := kernel, wantsWrite, pending;
      var nwrote, fault := WriteDirectly(msg, answer);
      if !fault {
        BalancedAccepts(kernel0, [], sent, msg, nwrote);
        sent := sent + [msg];
        assert [] + msg[nwrote..] == msg[nwrote..];
        if nwrote < |msg| {
          HoldBack(msg[nwrote..]);
        }
        SendingKeepsHalf(was, wantsWrite, state, kernel0, kernel, kernelAtShutdown, tasks, pending);
      }
    }

    /** Something is held already: the message goes behind it. */
    method SendBehind(msg: Bytes)
      requires Valid() && Open(state) && !halfClosed && output.Contents() != []
      modifies this`sent, this`pending, this`wantsWrite, this`added, output
      ensures Valid()
      ensures Life() == HeldBack(old(Life()), 0, |msg|)
      ensures forall answer ::
        Accepted(msg, 0, SendPosts(false, answer, 0, |msg|, |old(output.Contents())|, highWaterMark, hasWriteComplete,
                                   hasHighWater))
    {
      hide Concat, Balanced, AfterUpdate, Moved, Forces, HalfClose;
      NotHalfClosed();
      ghost var was, tasks := wantsWrite, pending;
      BalancedAccepts(kernel, output.Contents(), sent, msg, 0);
      sent := sent + [msg];
      assert kernel + msg[..0] == kernel && msg[0..] == msg;
      assert msg == [] ==> output.Contents() + msg == output.Contents();
      if |msg| > 0 {
        HoldBack(msg);
      }
      SendingKeepsHalf(was, wantsWrite, state, kernel, kernel, kernelAtShutdown, tasks, pending);
    }

    lemma NotHalfClosed()
      requires Valid() && state != Connecting && (halfClosed ==> state == Disconnected)
      ensures state != Disconnected ==>
                HalfClose(false, wantsWrite, state, kernel, kernelAtShutdown, pending) && !halfClosed && Open(state)
      ensures state != Disconnected ==> (wantsWrite <==> output.Contents() != [])
    {
    }

    method WriteDirectly(msg: Bytes, answer: WriteAnswer) returns (nwrote: nat, fault: bool)
      modifies this`kernel, this`pending
      ensures nwrote == Written(answer, |msg|) && (fault <==> answer == PeerGone)
      ensures kernel == old(kernel) + msg[..nwrote] && (fault ==> kernel == old(kernel))
      ensures pending == if answer.Room? && nwrote == |msg| && hasWriteComplete
                         then old(pending) + [WriteCompleteTask] else old(pending)
      ensures Forces(pending) == Forces(old(pending))
    {
      hide Forces;
      ForcesPost(pending, WriteCompleteTask);
      nwrote, fault := 0, false;
      if answer.Room? {
        nwrote := Min(answer.bytes, |msg|);
        kernel := kernel + msg[..nwrote];
        if nwrote == |msg| && hasWriteComplete {
          pending := pending + [WriteCompleteTask];
        }
      } else if answer == PeerGone {
        fault := true;
      }
    }

    /** Buffers what was not sent and reports the crossing of the high-water mark. */
    method HoldBack(rest: Bytes)
      requires output.Valid() && rest != []
      modifies this`pending, this`wantsWrite, this`added, output
      ensures output.Valid() && output.Contents() == old(output.Contents()) + rest && wantsWrite
      ensures added == (old(added) || !old(wantsWrite))
      ensures Life() == Moved(old(Life()), Move.HoldBack)
      ensures (
        var held := |old(output.Contents())|;
        pending == if held < highWaterMark <= held + |rest| && hasHighWater
                   then old(pending) + [HighWaterTask(held + |rest|)] else old(pending))
    {
      hide Forces;
      var oldLen, remaining := output.ReadableBytes(), |rest|;
      ForcesPost(pending, HighWaterTask(oldLen + remaining));
      if oldLen + remaining >= highWaterMark && oldLen < highWaterMark && hasHighWater {
        pending := pending + [HighWaterTask(oldLen + remaining)];
      }
      output.Append(rest);
      if !wantsWrite {
        wantsWrite, added := true, AfterUpdate(added, true);
      }
    }

    /** `send`, from the loop thread or from another one. */
    method Send(msg: Bytes, answer: WriteAnswer)
      requires Valid()
      modifies this`kernel, this`sent, this`pending, this`wantsWrite, this`added, output
      ensures Valid() && Grew() && MovedBy(Move.HoldBack) && old(pending) <= pending
      ensures Book() == AfterSend(old(Book()), msg, answer)
      ensures sent == if old(state) == Connected && !(old(output.Contents()) == [] && answer == PeerGone)
                      then old(sent) + [msg] else old(sent)
      ensures old(state) != Connected ==> pending == old(pending) && kernel == old(kernel)
      ensures !hasHighWater && (!hasWriteComplete || answer == WouldBlock) ==> pending == old(pending)
      ensures answer == WouldBlock ==> kernel == old(kernel)
    {
      hide Concat, Balanced, InterestOk, Forces;
      if state == Connected {
        SendInLoop(msg, answer);
      }
    }

    method SendFromOtherThread(msg: Bytes)
      requires Valid()
      modifies this`pending
      ensures Valid() && Grew() && Life() == old(Life()) && Book() == old(Book()).(pending := pending)
      ensures pending == if state == Connected then old(pending) + [SendTask(msg)] else old(pending)
    {
      hide Concat, Streams, InterestOk, Forces;
      ForcesPost(pending, SendTask(msg));
      if state == Connected {
        pending := pending + [SendTask(msg)];
      }
    }

    /** Sends what is buffered; when that is everything, interest in writing ends and a pending shutdown is carried
        out. */
    method HandleWrite(answer: WriteAnswer)
      requires Valid()
      modifies this`kernel, this`wantsWrite, this`added, this`pending, this`halfClosed, this`kernelAtShutdown, output
      ensures Valid() && Grew() && MovedBy(Move.AllWritten) && Book() == AfterWrite(old(Book()), answer)
      ensures WroteOut(if old(wantsWrite) then Written(answer, |old(output.Contents())|) else 0)
    {
      hide Valid, Written, Moved, Follows, Book;
      Pieces();
      BookShows();
      FollowsSelf(Now());
      if wantsWrite {
        WriteOutShown(answer);
      }
    }

    /** The effect of writing `w` of the bytes that are held. */
    twostate predicate WroteOut(w: nat)
      requires old(output.Valid()) && output.Valid() && w <= |old(output.Contents())|
      reads this`kernel, this`wantsWrite, this`pending, this`halfClosed, this`state, output
    {
      var drained := old(wantsWrite) && w == |old(output.Contents())|;
      && kernel == old(kernel) + old(output.Contents())[..w]
      && output.Contents() == old(output.Contents())[w..]
      && wantsWrite == (old(wantsWrite) && !drained)
      && pending == old(pending) + (if drained && hasWriteComplete then [WriteCompleteTask] else [])
      && halfClosed == (old(halfClosed) || (drained && state == Disconnecting))
    }

    method WriteOutShown(answer: WriteAnswer)
      requires Valid() && wantsWrite
      modifies this`kernel, this`wantsWrite, this`added, this`pending, this`halfClosed, this`kernelAtShutdown, output
      ensures Valid() && Grew() && MovedBy(Move.AllWritten) && Book() == AfterWrite(old(Book()), answer)
      ensures WroteOut(Written(answer, |old(output.Contents())|))
    {
      hide Valid, Grew, Written, Moved, AfterWrite, Forces, Book;
      Pieces();
      BookShows();
      ghost var b := Book();
      WriteOut(answer);
      Pieces();
      BookShows();
      WriteShown(b, answer, Book());
    }

    method WriteOut(answer: WriteAnswer)
      requires Valid() && wantsWrite
      modifies this`kernel, this`wantsWrite, this`added, this`pending, this`halfClosed, this`kernelAtShutdown, output
      ensures Valid() && Grew() && old(output.Contents()) != []
      ensures Life() == if Written(answer, |old(output.Contents())|) == |old(output.Contents())|
                        then Moved(old(Life()), Move.AllWritten) else old(Life())
      ensures WroteOut(Written(answer, |old(output.Contents())|))
    {
      hide Concat, Streams, Balanced, Written, Book, Moved;
      var n := WriteHeld(answer);
      if n > 0 && output.ReadableBytes() == 0 {
        AllWritten();
      }
    }

    lemma BookShows()
      requires output.Valid() && input.Valid()
      ensures (
        var b := Book();
        && b.opts == Options(hasWriteComplete, hasHighWater, highWaterMark) && b.life == Life() && b.pending == pending
        && b.sent == sent && b.kernel == kernel && b.held == output.Contents() && b.halfClosed == halfClosed
        && b.taken == taken && b.unread == input.Contents())
    {
    }

    method WriteHeld(answer: WriteAnswer) returns (n: nat)
      requires output.Valid() && input.Valid() && Streams()
      modifies this`kernel, output
      ensures output.Valid() && input.Valid() && Streams() && n == Written(answer, |old(output.Contents())|)
      ensures kernel == old(kernel) + old(output.Contents())[..n] && output.Contents() == old(output.Contents())[n..]
    {
      hide Concat, Balanced, Written;
      n := Written(answer, output.ReadableBytes());
      BalancedMoves(kernel, output.Contents(), Concat(sent), n);
      NothingMoves(kernel, output.Contents());
      if n > 0 {
        var s := output.RetrieveAsString(n);
        kernel := kernel + s;
      }
    }

    method AllWritten()
      modifies this`wantsWrite, this`added, this`pending, this`halfClosed, this`kernelAtShutdown
      ensures !wantsWrite && added == AfterUpdate(old(added), wantsRead)
      ensures Life() == Moved(old(Life()), Move.AllWritten)
      ensures pending == old(pending) + if hasWriteComplete then [WriteCompleteTask] else []
      ensures halfClosed == (old(halfClosed) || state == Disconnecting)
      ensures kernelAtShutdown == if state == Disconnecting then kernel else old(kernelAtShutdown)
    {
      hide Forces;
      ForcesPost(pending, WriteCompleteTask);
      wantsWrite := false;
      added := AfterUpdate(added, wantsRead);
      if hasWriteComplete {
        pending := pending + [WriteCompleteTask];
      }
      if state == Disconnecting {
        halfClosed, kernelAtShutdown := true, kernel;    // shutdownInLoop, no longer writing
      }
    }

    // -------------------------------------------------------------- closing

    /** Before the disconnect the write half is closed exactly if every accepted byte has reached the kernel.  After
        it the interest in writing is gone, so the half is closed whatever is still buffered. */
    method ShutdownInLoop()
      requires Valid() && (state == Disconnecting || state == Disconnected)
      modifies this`halfClosed, this`kernelAtShutdown
      ensures Valid() && Grew()
      ensures state == Disconnecting ==> (halfClosed <==> kernel == Concat(sent))
      ensures state == Disconnected ==> halfClosed
      ensures halfClosed == (old(halfClosed) || !wantsWrite) && Book() == old(Book()).(halfClosed := halfClosed)
    {
      if !wantsWrite {
        if !halfClosed {
          kernelAtShutdown := kernel;
        }
        halfClosed := true;
      }
      BalancedDone(kernel, output.Contents(), Concat(sent));
    }

    method Shutdown()
      requires Valid()
      modifies this`state, this`halfClosed, this`kernelAtShutdown
      ensures Valid() && Grew() && Life() == Moved(old(Life()), Move.ShutDown)
      ensures state == if old(state) == Connected then Disconnecting else old(state)
      ensures halfClosed == (old(halfClosed) || (old(state) == Connected && kernel == Concat(sent)))
      ensures kernel == Concat(sent) <==> output.Contents() == []
    {
      if state == Connected {
        state := Disconnecting;
        if !wantsWrite {
          halfClosed, kernelAtShutdown := true, kernel;
        }
        BalancedDone(kernel, output.Contents(), Concat(sent));
      }
    }

    method ShutdownFromOtherThread()
      requires Valid()
      modifies this`state, this`pending
      ensures Valid() && Grew() && Life() == Moved(old(Life()), Move.ShutDown)
      ensures state == if old(state) == Connected then Disconnecting else old(state)
      ensures pending == if old(state) == Connected then old(pending) + [ShutdownTask] else old(pending)
      ensures Book() == old(Book()).(pending := pending, life := old(Life()).(state := state))
    {
      hide Concat, Streams, Forces;
      ForcesPost(pending, ShutdownTask);
      if state == Connected {
        state := Disconnecting;
        pending := pending + [ShutdownTask];
      }
    }

    method ForceClose()
      requires Valid()
      modifies this`state, this`pending
      ensures Valid() && Grew() && Life() == Moved(old(Life()), Move.RequestClose)
      ensures state == if Open(old(state)) then Disconnecting else old(state)
      ensures pending == if Open(old(state)) then old(pending) + [ForceCloseTask] else old(pending)
      ensures Book() == AfterCall(old(Book()), ForceCloseCall)
    {
      hide Concat, Streams, Forces;
      ForcesPost(pending, ForceCloseTask);
      if Open(state) {
        state := Disconnecting;
        pending := pending + [ForceCloseTask];
      }
    }

    // -------------------------------------------------------------- reading interest

    /** User code has the connection only after it is established.  After the close either call can put the descriptor
        back into the epoll set: starting always, stopping once, and then without events. */
    method StartReadInLoop()
      requires Valid() && state != Connecting
      modifies this`wantsRead, this`reading, this`added, this`revived
      ensures Valid() && wantsRead && Life() == Moved(old(Life()), Move.StartRead)
      ensures revived == (old(revived) || (state == Disconnected && !(old(reading) && old(wantsRead))))
    {
      hide Streams;
      if !reading || !wantsRead {
        wantsRead := true;
        added := AfterUpdate(added, true);
        reading := true;
        revived := revived || state == Disconnected;
      }
    }

    method StopReadInLoop()
      requires Valid() && state != Connecting
      modifies this`wantsRead, this`reading, this`added, this`revived
      ensures Valid() && !wantsRead && Life() == Moved(old(Life()), Move.StopRead)
      ensures revived == (old(revived) || (state == Disconnected && (old(reading) || old(wantsRead))))
    {
      hide Streams;
      if reading || wantsRead {
        wantsRead := false;
        added := AfterUpdate(added, wantsWrite);
        reading := false;
        revived := revived || state == Disconnected;
      }
    }

    method StartReadFromOtherThread()
      requires Valid() && state != Connecting
      modifies this`pending
      ensures Valid() && Grew() && Life() == old(Life()) && pending == old(pending) + [StartReadTask]
      ensures Book() == old(Book()).(pending := pending)
    {
      hide Concat, Streams, InterestOk, Forces;
      ForcesPost(pending, StartReadTask);
      pending := pending + [StartReadTask];
    }

    method StopReadFromOtherThread()
      requires Valid() && state != Connecting
      modifies this`pending
      ensures Valid() && Grew() && Life() == old(Life()) && pending == old(pending) + [StopReadTask]
      ensures Book() == old(Book()).(pending := pending)
    {
      hide Concat, Streams, InterestOk, Forces;
      ForcesPost(pending, StopReadTask);
      pending := pending + [StopReadTask];
    }

    // -------------------------------------------------------------- callbacks

    method Take(n: nat)
      requires Valid()
      modifies this`taken, input
      ensures Valid()
      ensures taken == old(taken) + old(input.Contents())[..Min(n, |old(input.Contents())|)]
      ensures input.Contents() == old(input.Contents())[Min(n, |old(input.Contents())|)..]
    {
      var k := Min(n, input.ReadableBytes());
      BalancedMoves(taken, input.Contents(), received, k);
      var s := input.RetrieveAsString(k);
      taken := taken + s;
    }

    /** The effect of one call. */
    twostate predicate CallMade(call: Call)
      requires old(output.Valid()) && old(input.Valid())
      reads this, output, input
    {
      && old(pending) <= pending && notes == old(notes) && received == old(received) && closes == old(closes)
      && (old(state) == Disconnected ==> sent == old(sent) && kernel == old(kernel) && halfClosed == old(halfClosed))
      && state == (if (call.ShutdownCall? && old(state) == Connected) || (call.ForceCloseCall? && Open(old(state)))
                   then Disconnecting else old(state))
      && wantsRead == (if call.StartReadCall? then true else if call.StopReadCall? then false else old(wantsRead))
      && sent == (if call.SendCall? && old(state) == Connected &&
                     !(old(output.Contents()) == [] && call.answer == PeerGone)
                  then old(sent) + [call.msg] else old(sent))
      && (call.TakeInput? ==>
            taken == old(taken) + old(input.Contents())[..Min(call.bytes, |old(input.Contents())|)])
      && (!call.StartReadCall? && !call.StopReadCall? ==> revived == old(revived))
    }

    method MakeCall(call: Call)
      requires Valid() && !aborted && state != Connecting
      modifies this, input, output
      ensures Valid() && Grew() && Wandered() && !aborted && CallMade(call)
      ensures Book() == AfterCall(old(Book()), call)
    {
      hide Valid, Grew, Wandered, CallMade, Book, AfterCall;
      if call.SendCall? {
        CallSend(call);
      } else if call.TakeInput? {
        CallTake(call);
      } else if call.ShutdownCall? || call.ForceCloseCall? {
        CallClosing(call);
      } else {
        CallReading(call);
      }
    }

    method CallSend(call: Call)
      requires Valid() && !aborted && state != Connecting && call.SendCall?
      modifies this, input, output
      ensures Valid() && Grew() && Wandered() && !aborted && CallMade(call)
      ensures Book() == AfterCall(old(Book()), call)
    {
      hide Streams, InterestOk, HalfClose, Moved, Reaches, B.Buffer.Valid, B.Buffer.Contents;
      ReachesSelf(Life());
      HoldBackReaches(Life());
      Send(call.msg, call.answer);
    }

    method CallTake(call: Call)
      requires Valid() && !aborted && state != Connecting && call.TakeInput?
      modifies this, input, output
      ensures Valid() && Grew() && Wandered() && !aborted && CallMade(call)
      ensures Book() == AfterCall(old(Book()), call)
    {
      hide Streams, InterestOk, HalfClose, Moved, Reaches, B.Buffer.Valid, B.Buffer.Contents;
      Pieces();
      ReachesSelf(Life());
      Take(call.bytes);
    }

    method CallClosing(call: Call)
      requires Valid() && !aborted && state != Connecting && (call.ShutdownCall? || call.ForceCloseCall?)
      modifies this, input, output
      ensures Valid() && Grew() && Wandered() && !aborted && CallMade(call)
      ensures Book() == AfterCall(old(Book()), call)
    {
      hide Valid, Moved, Reaches, Follows, CallMade, Book, AfterCall;
      if call.ShutdownCall? {
        CallShutdown(call);
      } else {
        CallForceClose(call);
      }
    }

    method CallShutdown(call: Call)
      requires Valid() && !aborted && state != Connecting && call.ShutdownCall?
      modifies this, input, output
      ensures Valid() && Grew() && Wandered() && !aborted && CallMade(call)
      ensures Book() == AfterCall(old(Book()), call)
    {
      hide Valid, Moved, Reaches, Follows;
      ReachesByMove(Life(), Move.ShutDown);
      Pieces();
      Shutdown();
    }

    method CallForceClose(call: Call)
      requires Valid() && !aborted && state != Connecting && call.ForceCloseCall?
      modifies this, input, output
      ensures Valid() && Grew() && Wandered() && !aborted && CallMade(call)
      ensures Book() == AfterCall(old(Book()), call)
    {
      hide Valid, Moved, Reaches, Follows;
      ReachesByMove(Life(), Move.RequestClose);
      Pieces();
      ForceClose();
    }

    method CallReading(call: Call)
      requires Valid() && !aborted && state != Connecting && (call.StartReadCall? || call.StopReadCall?)
      modifies this, input, output
      ensures Valid() && Grew() && Wandered() && !aborted && CallMade(call)
      ensures Book() == AfterCall(old(Book()), call)
    {
      hide Valid, Moved, Reaches;
      if call.StartReadCall? {
        ReachesByMove(Life(), Move.StartRead);
        StartReadInLoop();
      } else {
        ReachesByMove(Life(), Move.StopRead);
        StopReadInLoop();
      }
    }

    /** A user callback: it cannot close the connection, and can turn interest on only by starting to read or, while
        connected, by sending. */
    method RunCalls(calls: seq<Call>)
      requires Valid() && !aborted && state != Connecting
      modifies this, input, output
      ensures Valid() && Grew() && Wandered() && !aborted
      ensures Book() == AfterCalls(old(Book()), calls) && (|calls| == 1 ==> CallMade(calls[0]))
      ensures old(pending) <= pending && notes == old(notes) && received == old(received)
      ensures closes == old(closes)
      ensures old(state) == Disconnected ==> sent == old(sent) && kernel == old(kernel) && halfClosed == old(halfClosed)
      ensures Open(state) == Open(old(state)) && (state == old(state) || state == Disconnecting)
      ensures wantsRead == ReadInterest(calls, old(wantsRead))
      ensures StartReadCall !in calls && StopReadCall !in calls ==> revived == old(revived)
      ensures calls == [] ==> state == old(state) && sent == old(sent) && kernel == old(kernel)
      ensures calls == [] ==> pending == old(pending) && added == old(added)
      decreases |calls|
    {
      hide Concat, Streams, InterestOk, HalfClose, Moved, Reaches, Follows, B.Buffer.Valid, B.Buffer.Contents;
      ghost var start, then0 := Life(), Now();
      ReachesSelf(start);
      FollowsSelf(then0);
      if calls != [] {
        MakeCall(calls[0]);
        ghost var middle, then1 := Life(), Now();
        RunCalls(calls[1..]);
        ReachesOn(start, middle, Life());
        FollowsOn(then0, then1, Now());
      }
    }

    /** `setState`, `disableAll` and the call of the connection callback.  A channel that had no interest left, and so
        was outside the epoll set, is put back into it. */
    method Disconnect()
      requires Valid() && Open(state)
      modifies this`state, this`wantsRead, this`wantsWrite, this`added, this`notes, this`revived
      ensures Valid() && Grew() && state == Disconnected && closes == 0 && !wantsRead && !wantsWrite
      ensures added == AfterUpdate(old(added), false) && revived == (old(revived) || !old(added))
      ensures Life() == Moved(old(Life()), Move.Close)
      ensures Book() == old(Book()).(life := Moved(old(Life()), Move.Close))
      ensures notes == old(notes) + [ConnectionNote(Disconnected)]
    {
      hide Streams, InterestOk, HalfClose, AfterUpdate, Moved, Follows;
      FollowsLeave(Now(), !added);
      ClosingMoves(Life());
      ClosingKeeps(wantsWrite, output.Contents() != [], wantsRead, reading, added, revived);
      ClosingKeepsHalf(halfClosed, wantsWrite, state, kernel, kernelAtShutdown, pending);
      Leave();
      notes := notes + [ConnectionNote(Disconnected)];
    }

    /** `setState` and `disableAll`. */
    method Leave()
      modifies this`state, this`wantsRead, this`wantsWrite, this`added, this`revived
      ensures state == Disconnected && !wantsRead && !wantsWrite
      ensures added == AfterUpdate(old(added), false) && revived == (old(revived) || !old(added))
    {
      state := Disconnected;
      wantsRead, wantsWrite := false, false;
      revived := revived || !added;
      added := AfterUpdate(added, false);
    }

    /** The effect of closing. */
    twostate predicate CloseDone(calls: seq<Call>)
      reads this
    {
      && state == Disconnected && notes == old(notes) + [ConnectionNote(Disconnected)] && closes == 1
      && wantsRead == ReadInterest(calls, false)
      && sent == old(sent) && kernel == old(kernel) && received == old(received)
      && (StartReadCall !in calls && StopReadCall !in calls ==> revived == (old(revived) || !old(added)))
      && old(pending) <= pending
      && (calls == [] ==> added == !old(added))
    }

    method HandleClose(calls: seq<Call>)
      requires Valid() && !aborted
      modifies this, input, output
      ensures Valid() && Grew()
      ensures aborted <==> !Open(old(state))
      ensures !aborted ==> CloseDone(calls) && Closed() && Book() == AfterClose(old(Book()), calls)
    {
      hide Streams, InterestOk, HalfClose, Reaches, Moved, Follows, CloseDone, B.Buffer.Valid, B.Buffer.Contents;
      FollowsSelf(Now());
      if !Open(state) {
        aborted := true;
      } else {
        Close(calls);
      }
    }

    method Close(calls: seq<Call>)
      requires Valid() && !aborted && Open(state)
      modifies this, input, output
      ensures Valid() && Grew() && !aborted && CloseDone(calls) && Closed()
      ensures Book() == AfterClose(old(Book()), calls)
    {
      hide Valid, ReadInterest, Reaches, Moved, Follows, Book, AfterCalls;
      Pieces();
      BookShows();
      ghost var then0 := Now();
      Disconnect();
      ghost var then1 := Now();
      RunCalls(calls);
      FollowsOn(then0, then1, Now());
      FollowsClose(then0, Now());
      CountClose();
    }

    method CountClose()
      requires Valid() && state == Disconnected && closes == 0
      modifies this`closes
      ensures Valid() && closes == 1 && Book() == old(Book())
    {
      hide Streams, InterestOk, HalfClose;
      closes := closes + 1;
    }

    // -------------------------------------------------------------- establishing and destroying

    /** Run by the I/O loop once for a new connection; the assertion is that nothing came before. */
    method ConnectEstablished(calls: seq<Call>)
      requires Valid() && !aborted
      modifies this, input, output
      ensures Valid() && Grew()
      ensures aborted <==> old(state) != Connecting
      ensures !aborted ==> Open(state) && wantsRead == ReadInterest(calls, true)
      ensures !aborted ==> notes == old(notes) + [ConnectionNote(Connected)]
      ensures !aborted ==> Reaches(Moved(old(Life()), Establish), Life())
      ensures !aborted ==> Book() == AfterCalls(old(Book()).(life := Moved(old(Life()), Establish)), calls)
      ensures calls == [] && !aborted ==>
        state == Connected && sent == old(sent) && kernel == old(kernel) && pending == old(pending)
    {
      hide Concat, Balanced, ReadInterest, Reaches;
      if state != Connecting {
        aborted := true;
        return;
      }
      state := Connected;
      wantsRead := true;
      added := AfterUpdate(added, true);
      notes := notes + [ConnectionNote(Connected)];
      RunCalls(calls);
    }

    /** The last task of a connection.  Its channel may be removed only without interest: after a close that is so
        unless reading has been started again. */
    method ConnectDestroyed(calls: seq<Call>)
      requires Valid() && !aborted
      modifies this, input, output
      ensures Valid() && Grew()
      ensures aborted <==>
              if old(state) == Connected then ReadInterest(calls, false) else old(wantsRead) || old(wantsWrite)
      ensures !aborted ==> !added && !wantsRead && !wantsWrite
      ensures !aborted ==> state == if old(state) == Connected then Disconnected else old(state)
      ensures !aborted ==>
        var b := if old(state) == Connected then AfterClose(old(Book()), calls) else old(Book());
        Book() == b.(life := Moved(b.life, Destroy))
      ensures !aborted && old(state) != Connected ==> Life() == Moved(old(Life()), Destroy)
      ensures old(state) != Connected ==> pending == old(pending) && revived == old(revived)
      ensures notes == old(notes) + if old(state) == Connected then [ConnectionNote(Disconnected)] else []
    {
      hide Concat, Balanced, HalfClose, ReadInterest, Moved, Reaches;
      if state == Connected {
        Disconnect();
        RunCalls(calls);
      }
      RemoveChannel();
    }

    /** `Channel::remove`. */
    method RemoveChannel()
      requires Valid() && !aborted && state != Connected
      modifies this`aborted, this`added
      ensures Valid() && (aborted <==> wantsRead || wantsWrite)
      ensures !aborted ==> !added && Life() == Moved(old(Life()), Destroy)
    {
      hide Concat, Balanced, HalfClose;
      if wantsRead || wantsWrite {
        aborted := true;
      } else {
        added := false;
      }
    }

    // -------------------------------------------------------------- events

    /** Reads at most what the two vectors of `readFd` hold. */
    method HandleRead(read: B.ReadResult, closeCalls: seq<Call>, readCalls: seq<Call>)
      requires Valid() && !aborted && state != Connecting
      modifies this, input, output
      ensures Valid() && Grew()
      ensures aborted <==> read == B.Received([]) && !Open(old(state))
      ensures !aborted ==>
        Book() == AfterRead(old(Book()), read, received[|old(received)|..], closeCalls, readCalls)
      ensures read.Received? && read.data != [] ==>
        && old(received) < received <= old(received) + read.data
        && notes == old(notes) + [MessageNote]
      ensures read == B.Received([]) && !aborted ==>
        state == Disconnected && closes == 1 && notes == old(notes) + [ConnectionNote(Disconnected)]
      ensures read == B.Received([]) && !aborted ==>
        kernel == old(kernel) && sent == old(sent) && old(pending) <= pending
      ensures read == B.Received([]) && !aborted && closeCalls == [] ==> added == !old(added)
      ensures read.Failed? ==> state == old(state) && received == old(received)
      ensures read.Failed? ==> notes == old(notes) && sent == old(sent)
      ensures read != B.Received([]) ==> Open(state) == Open(old(state))
      ensures read == B.Received([]) && !aborted ==> received == old(received)
      ensures !aborted ==> if read == B.Received([]) then Closed() else Wandered()
    {
      hide Streams, HalfClose, InterestOk, ReadInterest, Reaches, Moved, Follows, B.Buffer.Valid, B.Buffer.Contents,
           Book, AfterClose, AfterCalls, Forces;
      ReachesSelf(Life());
      ghost var then0 := Now();
      var cut := Admit(read);
      ghost var then1 := Now();
      FollowsSelf(then1);
      if cut == B.Received([]) {
        HandleClose(closeCalls);
      } else if cut.Received? {
        Notify(MessageNote, readCalls);
      }
      FollowsOn(then0, then1, Now());
      FollowsReads(then1, Now());
      if !aborted {
        assert received == then1.received;
        assert cut.Received? ==> received[|then0.received|..] == cut.data;
      }
    }

    method Admit(read: B.ReadResult) returns (cut: B.ReadResult)
      requires Valid()
      modifies this`received, input
      ensures Valid()
      ensures cut == B.Received([]) <==> read == B.Received([])
      ensures cut.Failed? <==> read.Failed?
      ensures cut.Received? ==> cut.data <= read.data && received == old(received) + cut.data
      ensures cut.Failed? ==> received == old(received)
      ensures Grew() && Book() == if cut.Received? && cut.data != []
                                  then old(Book()).(unread := old(Book()).unread + cut.data) else old(Book())
    {
      hide Concat;
      var space := input.WritableBytes();
      var room := space + if space < B.EXTRA_SIZE then B.EXTRA_SIZE else 0;
      cut := match read case Failed => B.Failed case Received(data) => B.Received(data[..Min(room, |data|)]);
      input.ReadFd(cut);
      if cut.Received? {
        received := received + cut.data;
      }
    }

    method HandleEvent(r: Revents, read: B.ReadResult, answer: WriteAnswer, closeCalls: seq<Call>, readCalls: seq<Call>)
      requires Valid() && !aborted && state != Connecting
      modifies this, input, output
      ensures Valid() && Grew()
      ensures aborted <==> ClosesBadly(old(state), r, read)
      ensures Open(old(state)) ==>
        (aborted <==> r.hup && !r.readable && (r.urgent || r.peerClosed) && read == B.Received([]))
      ensures Open(old(state)) && !aborted ==>
        (state == Disconnected <==>
           (r.hup && !r.readable) || ((r.readable || r.urgent || r.peerClosed) && read == B.Received([])))
      ensures Open(old(state)) && r.hup && r.readable && read.Received? && read.data != [] ==>
        !aborted && Open(state) && old(notes) + [MessageNote] == notes
      ensures !aborted ==>
        && Book() == AfterEvent(old(Book()), r, read, received[|old(received)|..], answer, closeCalls, readCalls)
        && notes == old(notes) + (if r.hup && !r.readable then [ConnectionNote(Disconnected)] else []) +
                    ReadNotes(r, read)
        && Got(r, read, received[|old(received)|..])
      ensures (HangsUp(r) || ReadsEnd(r, read)) && !aborted ==> state == Disconnected && closes == 1
      ensures !HangsUp(r) && !(r.readable || r.urgent || r.peerClosed) ==>
        var w := if r.writable && old(wantsWrite) then Written(answer, |old(output.Contents())|) else 0;
        && kernel == old(kernel) + old(output.Contents())[..w] && output.Contents() == old(output.Contents())[w..]
        && state == old(state) && sent == old(sent)
      ensures !aborted ==> if HangsUp(r) || ReadsEnd(r, read) then Closed() else Wandered()
    {
      hide Valid, ReadInterest, Written, Reaches, Moved, Follows, Book, AfterInput, AfterClose;
      ghost var start, then0 := Life(), Now();
      FollowsSelf(then0);
      if r.hup && !r.readable {
        HandleClose(closeCalls);
        if aborted { return; }
      }
      ghost var middle, then1 := Life(), Now();
      HandleNormalEvents(r, read, answer, closeCalls, readCalls);
      FollowsOn(then0, then1, Now());
      StaysClosed(then1, Now());
      ClosedOnce();
      if HangsUp(r) && !aborted {
        ReachesOn(Moved(start, Move.Close), middle, Life());
      }
    }

    lemma ClosedOnce()
      requires Valid()
      ensures closes <= 1
    {
    }

    method HandleNormalEvents(r: Revents, read: B.ReadResult, answer: WriteAnswer, closeCalls: seq<Call>,
                              readCalls: seq<Call>)
      requires Valid() && !aborted && state != Connecting
      modifies this, input, output
      ensures Valid() && Grew()
      ensures aborted <==> ReadsEnd(r, read) && !Open(old(state))
      ensures !aborted ==>
        && Book() == AfterInput(old(Book()), r, read, received[|old(received)|..], answer, closeCalls, readCalls)
        && notes == old(notes) + ReadNotes(r, read) && Got(r, read, received[|old(received)|..])
      ensures ReadsEnd(r, read) && !aborted ==> state == Disconnected && closes == 1
      ensures !ReadsEnd(r, read) ==> Open(state) == Open(old(state))
      ensures !(r.readable || r.urgent || r.peerClosed) ==>
        var w := if r.writable && old(wantsWrite) then Written(answer, |old(output.Contents())|) else 0;
        && kernel == old(kernel) + old(output.Contents())[..w] && output.Contents() == old(output.Contents())[w..]
        && state == old(state) && sent == old(sent)
      ensures !aborted ==> if ReadsEnd(r, read) then Closed() else Wandered()
    {
      hide Valid, ReadInterest, Written, Reaches, Moved, Follows, Book, AfterInput, ReadNotes, Got, AfterRead,
           AfterWrite, Forces;
      Pieces();
      ghost var b := Book();
      ghost var start, then0 := Life(), Now();
      FollowsSelf(then0);
      HandleReadable(r, read, closeCalls, readCalls);
      if aborted { return; }
      ghost var middle, then1 := Life(), Now();
      Pieces();
      FollowsReads(then0, then1);
      InputDone(b, r, read, received[|then0.received|..], answer, closeCalls, readCalls, Book());
      HandleWritable(r, answer);
      ReachesOn(if ReadsEnd(r, read) then Moved(start, Move.Close) else start, middle, Life());
      FollowsOn(then0, then1, Now());
    }

    method HandleReadable(r: Revents, read: B.ReadResult, closeCalls: seq<Call>, readCalls: seq<Call>)
      requires Valid() && !aborted && state != Connecting
      modifies this, input, output
      ensures Valid() && Grew()
      ensures aborted <==> ReadsEnd(r, read) && !Open(old(state))
      ensures !aborted ==>
        && notes == old(notes) + ReadNotes(r, read) && Got(r, read, received[|old(received)|..])
        && Book() == if r.readable || r.urgent || r.peerClosed
                     then AfterRead(old(Book()), read, received[|old(received)|..], closeCalls, readCalls)
                     else old(Book())
      ensures ReadsEnd(r, read) && !aborted ==> state == Disconnected && closes == 1
      ensures !ReadsEnd(r, read) ==> Open(state) == Open(old(state))
      ensures !(r.readable || r.urgent || r.peerClosed) ==>
        && kernel == old(kernel) && output.Contents() == old(output.Contents()) && wantsWrite == old(wantsWrite)
        && state == old(state) && sent == old(sent)
      ensures !aborted ==> if ReadsEnd(r, read) then Closed() else Wandered()
    {
      hide Valid, ReadInterest, Reaches, Moved, Follows, Book, AfterRead;
      ReachesSelf(Life());
      FollowsSelf(Now());
      if r.readable || r.urgent || r.peerClosed {
        HandleRead(read, closeCalls, readCalls);
      }
    }

    method HandleWritable(r: Revents, answer: WriteAnswer)
      requires Valid()
      modifies this`kernel, this`wantsWrite, this`added, this`pending, this`halfClosed, this`kernelAtShutdown, output
      ensures Valid() && Grew() && Wandered()
      ensures Book() == if r.writable then AfterWrite(old(Book()), answer) else old(Book())
      ensures
        var w := if r.writable && old(wantsWrite) then Written(answer, |old(output.Contents())|) else 0;
        kernel == old(kernel) + old(output.Contents())[..w] && output.Contents() == old(output.Contents())[w..]
    {
      hide Streams, InterestOk, HalfClose, Written, Reaches, Moved, B.Buffer.Valid, B.Buffer.Contents;
      ReachesSelf(Life());
      AllWrittenReaches(Life());
      if r.writable {
        HandleWrite(answer);
      }
    }

    /** The effect of a functor. */
    twostate predicate Performed(task: Task, calls: seq<Call>, answer: WriteAnswer)
      requires old(output.Valid())
      reads this`state, this`sent, this`kernel, this`halfClosed, this`closes, this`added, this`wantsRead, this`notes,
            output
    {
      match task
      case SendTask(msg) =>
        && state == old(state)
        && sent == if old(state) == Connected && !(old(output.Contents()) == [] && answer == PeerGone)
                   then old(sent) + [msg] else old(sent)
      case ShutdownTask =>
        && kernel == old(kernel) && sent == old(sent) && state == old(state)
        && (state == Disconnecting ==> (halfClosed <==> kernel == Concat(sent)))
        && (state == Disconnected ==> halfClosed)
      case ForceCloseTask =>
        && state == (if Open(old(state)) then Disconnected else old(state))
        && (Open(old(state)) ==> closes == 1 && (calls == [] ==> added == !old(added)))
      case StartReadTask => wantsRead && state == old(state) && sent == old(sent)
      case StopReadTask => !wantsRead && state == old(state) && sent == old(sent)
      case WriteCompleteTask =>
        notes == old(notes) + [WriteCompleteNote] && wantsRead == ReadInterest(calls, old(wantsRead))
      case HighWaterTask(size) =>
        notes == old(notes) + [HighWaterNote(size)] && wantsRead == ReadInterest(calls, old(wantsRead))
    }

    /** What a functor makes of the life. */
    twostate predicate TaskMoved(task: Task)
      reads this`state, this`reading, this`wantsRead, this`wantsWrite, this`added, this`revived, this`pending
    {
      if task.ForceCloseTask? && Open(old(state)) then Closed() else Wandered()
    }

    /** And when it has left the queue. */
    twostate predicate TaskTaken(task: Task)
      reads this`state, this`reading, this`wantsRead, this`wantsWrite, this`added, this`revived, this`pending
    {
      if !task.ForceCloseTask? then Wandered()
      else
        var v := Moved(old(Life()), TakeForce);
        && old(Life()).forces > 0
        && Reaches(if Open(old(state)) then Moved(v, Move.Close) else v, Life())
    }

    /** What a functor of the queue does.  A message sent from another thread is accepted exactly if the connection is
        still fully open by then. */
    method Perform(task: Task, calls: seq<Call>, answer: WriteAnswer)
      requires Valid() && !aborted && task in pending
      modifies this, input, output
      ensures Valid() && Grew() && !aborted && old(pending) <= pending
      ensures Performed(task, calls, answer) && TaskMoved(task)
      ensures Book() == AfterTask(old(Book()), task, calls, answer) && received == old(received)
      ensures (task.ShutdownTask? || task.ForceCloseTask?) && state == Disconnecting ==> halfClosed || wantsWrite
    {
      hide Valid, Concat, ReadInterest, Reaches, Moved, Follows, Book, AfterCalls, AfterSend, AfterClose, CallMade;
      ReachesSelf(Life());
      FollowsSelf(Now());
      Pending(task);
      BookShows();
      match task {
        case SendTask(msg) => PerformCall(task, SendCall(msg, answer), answer);
        case ShutdownTask =>
          ShutdownInLoop();
          ShutDownDone();
        case ForceCloseTask => if Open(state) { HandleClose(calls); }
        case StartReadTask => PerformCall(task, StartReadCall, answer);
        case StopReadTask => PerformCall(task, StopReadCall, answer);
        case WriteCompleteTask => Notify(WriteCompleteNote, calls);
        case HighWaterTask(size) => Notify(HighWaterNote(size), calls);
      }
    }

    /** Some functors are calls made by another thread. */
    method PerformCall(task: Task, call: Call, answer: WriteAnswer)
      requires Valid() && !aborted && state != Connecting
      requires match task
        case SendTask(msg) => call == SendCall(msg, answer)
        case StartReadTask => call == StartReadCall
        case StopReadTask => call == StopReadCall
        case _ => false
      modifies this, input, output
      ensures Valid() && Grew() && Wandered() && !aborted && old(pending) <= pending && received == old(received)
      ensures forall calls :: Performed(task, calls, answer) && Book() == AfterTask(old(Book()), task, calls, answer)
    {
      hide Valid, Grew, Wandered, Book, AfterSend, Moved;
      MakeCall(call);
    }

    /** A functor is posted only once the connection is established, a shutdown only when it is asked for. */
    lemma Pending(task: Task)
      requires Valid() && task in pending
      ensures state != Connecting && output.Valid() && input.Valid()
      ensures task.ShutdownTask? ==> state == Disconnecting || state == Disconnected
    {
    }

    /** A user callback that comes with nothing else. */
    method Notify(note: Note, calls: seq<Call>)
      requires Valid() && !aborted && state != Connecting
      modifies this, input, output
      ensures Valid() && Grew() && Wandered() && !aborted && old(pending) <= pending
      ensures Book() == AfterCalls(old(Book()), calls)
      ensures notes == old(notes) + [note] && wantsRead == ReadInterest(calls, old(wantsRead))
      ensures received == old(received) && closes == old(closes) && Open(state) == Open(old(state))
    {
      hide Streams, InterestOk, HalfClose, ReadInterest, Reaches, Follows, B.Buffer.Valid, B.Buffer.Contents;
      ghost var then0 := Now();
      FollowsNote(then0, note);
      notes := notes + [note];
      ghost var then1 := Now();
      RunCalls(calls);
      FollowsOn(then0, then1, Now());
    }

    /** The oldest functor runs and leaves the queue; what it posts goes to the end. */
    method RunTask(calls: seq<Call>, answer: WriteAnswer)
      requires Valid() && !aborted && pending != []
      modifies this, input, output
      ensures Valid() && Grew() && !aborted && old(pending)[1..] <= pending
      ensures Performed(old(pending)[0], calls, answer) && TaskTaken(old(pending)[0])
      ensures var b := AfterTask(old(Book()), old(pending)[0], calls, answer);
        old(pending) <= b.pending && Book() == WithoutTask(b) && received == old(received)
    {
      hide Valid, ReadInterest, Reaches, Moved, Follows, Forces, Performed;
      var task := pending[0];
      ghost var start := Life();
      ForcesDrop(pending);
      Pending(task);
      Perform(task, calls, answer);
      ForcesDrop(pending);
      if task.ForceCloseTask? {
        ForceTaken(start, Life());
      }
      DropTask();
    }

    method DropTask()
      requires Valid() && pending != []
      requires (pending[0].ShutdownTask? || pending[0].ForceCloseTask?) && state == Disconnecting ==>
        halfClosed || wantsWrite
      modifies this`pending
      ensures Valid() && pending == old(pending)[1..]
    {
      hide Streams, InterestOk, Concat;
      Dropped(pending[0]);
      pending := pending[1..];
    }

    lemma ShutDownDone()
      requires Valid()
      requires state == Disconnecting ==> (halfClosed <==> kernel == Concat(sent))
      ensures state == Disconnecting ==> halfClosed || wantsWrite
    {
      BalancedDone(kernel, output.Contents(), Concat(sent));
      StillInterested();
    }

    /** A functor that has run is not owed any more. */
    lemma Dropped(task: Task)
      requires Valid() && pending != [] && pending[0] == task
      requires (task.ShutdownTask? || task.ForceCloseTask?) && state == Disconnecting ==> halfClosed || wantsWrite
      ensures HalfClose(halfClosed, wantsWrite, state, kernel, kernelAtShutdown, pending[1..])
    {
      hide Streams, InterestOk;
      assert forall t :: t in pending && t != task ==> t in pending[1..];
      assert forall t :: t in pending[1..] ==> t in pending;
    }

    lemma Pieces()
      requires Valid()
      ensures output.Valid() && input.Valid() && output != input
    {
    }

    lemma StillInterested()
      requires Valid()
      ensures state != Disconnected ==> (wantsWrite <==> output.Contents() != [])
    {
    }
  }

  // ---------------------------------------------------------------- whole runs

  /** An event that was polled and is still to be dispatched: the connection has not been closed since, unless it was
      closed before and revived. */
  predicate MayBePolled(polled: bool, state: ConnState, revived: bool) {
    polled ==> Open(state) || (state == Disconnected && revived)
  }

  lemma AddedMay(c: TcpConnection)
    requires c.Valid()
    ensures MayBePolled(c.added, c.state, c.revived)
  {
  }

  lemma StillPolled(a: Moment, b: Moment)
    requires Follows(a, b) && MayBePolled(true, a.state, a.revived) && (Open(a.state) ==> Open(b.state))
    ensures MayBePolled(true, b.state, b.revived)
  {
  }

  /** The event reaches its handler: what was polled is dispatched even if the descriptor has left the epoll set since;
      a functor waits until everything polled is dispatched. */
  predicate Arrives(c: TcpConnection, e: Event, polled: bool)
    reads c
  {
    (e.PollEvent? && polled) || (e.TaskEvent? && !polled && c.pending != [])
  }

  predicate Closes(e: Event) {
    e.PollEvent? && (HangsUp(e.revents) || ReadsEnd(e.revents, e.read))
  }

  /** What an event makes of the connection; `got` is what a read took. */
  function AfterHappening(b: Ledger, e: Event, polled: bool, got: Bytes): Ledger {
    match e
    case Polled => b
    case InLoop(calls) => if b.life.state == Connecting then b else AfterCalls(b, calls)
    case TaskEvent(calls, answer) =>
      if polled || b.pending == [] then b else WithoutTask(AfterTask(b, b.pending[0], calls, answer))
    case PollEvent(r, read, answer, closeCalls, readCalls) =>
      if polled then AfterEvent(b, r, read, got, answer, closeCalls, readCalls) else b
    case OtherThreadSends(msg) =>
      if b.life.state == Connected then b.(pending := b.pending + [SendTask(msg)]) else b
    case OtherThreadShutsDown =>
      if b.life.state == Connected then
        b.(pending := b.pending + [ShutdownTask], life := b.life.(state := Disconnecting))
      else b
    case OtherThreadForcesClose => AfterCall(b, ForceCloseCall)
    case OtherThreadStartsRead =>
      if b.life.state == Connecting then b else b.(pending := b.pending + [StartReadTask])
    case OtherThreadStopsRead =>
      if b.life.state == Connecting then b else b.(pending := b.pending + [StopReadTask])
  }

  predicate ByOtherThread(e: Event) {
    e.OtherThreadSends? || e.OtherThreadShutsDown? || e.OtherThreadForcesClose? || e.OtherThreadStartsRead? ||
    e.OtherThreadStopsRead?
  }

  /** Another thread calls the connection. */
  method OtherThread(c: TcpConnection, e: Event)
    requires c.Valid() && !c.aborted && ByOtherThread(e)
    modifies c`state, c`pending
    ensures c.Valid() && c.Grew() && c.Wandered() && (Open(old(c.state)) ==> Open(c.state))
    ensures c.Book() == AfterHappening(old(c.Book()), e, false, [])
    ensures e.OtherThreadSends? && old(c.state) == Connected ==> c.pending == old(c.pending) + [SendTask(e.msg)]
    ensures e.OtherThreadShutsDown? && old(c.state) == Connected ==> c.state == Disconnecting
    ensures e.OtherThreadForcesClose? && Open(old(c.state)) ==> c.state == Disconnecting
  {
    hide TcpConnection.Valid, Reaches, Moved, Forces, TcpConnection.Book, AfterCall, Follows, AfterEvent, AfterTask,
         AfterCalls, WithoutTask;
    c.Pieces();
    c.BookShows();
    FollowsSelf(c.Now());
    ReachesSelf(c.Life());
    if e.OtherThreadSends? {
      c.SendFromOtherThread(e.msg);
    } else if e.OtherThreadShutsDown? {
      if c.state != Connecting { ReachesByMove(c.Life(), Move.ShutDown); }
      c.ShutdownFromOtherThread();
    } else if e.OtherThreadForcesClose? {
      if c.state != Connecting { ReachesByMove(c.Life(), Move.RequestClose); }
      c.ForceClose();
    } else if c.state != Connecting {
      if e.OtherThreadStartsRead? { c.StartReadFromOtherThread(); } else { c.StopReadFromOtherThread(); }
    }
  }

  /** One event of the loop.  The kernel reports only descriptors in the epoll set; between the poll and the dispatch,
      handlers of other descriptors and other threads may call the connection (`InLoop` and the rest). */
  method Happen(c: TcpConnection, e: Event, polled: bool) returns (still: bool)
    requires c.Valid() && !c.aborted && MayBePolled(polled, c.state, c.revived)
    modifies c, c.input, c.output
    ensures c.Valid() && c.Grew() && (!c.aborted ==> MayBePolled(still, c.state, c.revived))
    ensures still == if e.Polled? then polled || old(c.added) else polled && !e.PollEvent?
    ensures c.aborted <==> e.PollEvent? && polled && ClosesBadly(old(c.state), e.revents, e.read)
    ensures e.PollEvent? && polled && Open(old(c.state)) ==>
      var r, end := e.revents, e.read == B.Received([]);
      && (c.aborted <==> r.hup && !r.readable && (r.urgent || r.peerClosed) && end)
      && (!c.aborted ==>
            (c.state == Disconnected <==>
               (r.hup && !r.readable) || ((r.readable || r.urgent || r.peerClosed) && end)))
    ensures !c.aborted ==>
      && c.Book() == AfterHappening(old(c.Book()), e, polled, c.received[|old(c.received)|..])
      && if e.PollEvent? && polled then Got(e.revents, e.read, c.received[|old(c.received)|..])
         else c.received == old(c.received)
    ensures e.TaskEvent? && old(Arrives(c, e, polled)) ==>
      old(c.pending)[1..] <= c.pending && c.Performed(old(c.pending)[0], e.calls, e.answer)
    ensures old(Arrives(c, e, polled)) && Closes(e) && !c.aborted ==> c.state == Disconnected
    ensures !c.aborted ==>
      if old(Arrives(c, e, polled)) && Closes(e) then c.Closed()
      else if old(Arrives(c, e, polled)) && e.TaskEvent? then c.TaskTaken(old(c.pending)[0])
      else c.Wandered()
    ensures e.OtherThreadSends? && old(c.state) == Connected ==> c.pending == old(c.pending) + [SendTask(e.msg)]
    ensures e.OtherThreadShutsDown? && old(c.state) == Connected ==> c.state == Disconnecting
    ensures e.OtherThreadForcesClose? && Open(old(c.state)) ==> c.state == Disconnecting
  {
    hide TcpConnection.Valid, ClosesBadly, Reaches, Moved, Forces, TcpConnection.Book, AfterEvent, AfterTask,
         AfterCalls, AfterCall, TcpConnection.Performed, Follows, Got;
    c.Pieces();
    c.BookShows();
    AddedMay(c);
    ghost var start := c.Now();
    FollowsSelf(start);
    ReachesSelf(c.Life());
    still := polled;
    match e {
      case Polled => still := polled || c.added;
      case InLoop(calls) => if c.state != Connecting { c.RunCalls(calls); }
      case TaskEvent(calls, answer) => if !polled && c.pending != [] { c.RunTask(calls, answer); }
      case PollEvent(r, read, answer, closeCalls, readCalls) =>
        if polled {
          still := false;
          c.HandleEvent(r, read, answer, closeCalls, readCalls);
        }
      case _ => OtherThread(c, e);
    }
    if still && polled { StillPolled(start, c.Now()); }
  }

  predicate ClosesTwice(e: Event) {
    e.PollEvent? && HangsUp(e.revents) && ReadsEnd(e.revents, e.read)
  }

  /** The events lead from `b` to `c`, where `gots` is what their reads took. */
  predicate LeadsTo(b: Ledger, events: seq<Event>, polled: bool, gots: seq<Bytes>, c: Ledger)
    decreases |events|
  {
    if events == [] then c == b && gots == []
    else
      && gots != []
      && (if events[0].PollEvent? && polled then Got(events[0].revents, events[0].read, gots[0]) else gots[0] == [])
      && LeadsTo(AfterHappening(b, events[0], polled, gots[0]), events[1..],
                 if events[0].Polled? then polled || b.life.chan.added else polled && !events[0].PollEvent?,
                 gots[1..], c)
  }

  lemma LeadsOn(b: Ledger, events: seq<Event>, polled: bool, got: Bytes, gots: seq<Bytes>, c: Ledger)
    requires events != []
    requires if events[0].PollEvent? && polled then Got(events[0].revents, events[0].read, got) else got == []
    requires LeadsTo(AfterHappening(b, events[0], polled, got), events[1..],
                     if events[0].Polled? then polled || b.life.chan.added else polled && !events[0].PollEvent?,
                     gots, c)
    ensures LeadsTo(b, events, polled, [got] + gots, c)
  {
    assert ([got] + gots)[1..] == gots;
  }

  /** Every run of an established connection: each event has exactly its effect, nothing accepted is lost or reordered,
      the write half closes behind the last byte, the server's close callback runs at most once.  The process can abort
      only if one event closes twice or the descriptor was put back into the epoll set at or after the close. */
  method Run(c: TcpConnection, events: seq<Event>, polled: bool) returns (ghost gots: seq<Bytes>)
    requires c.Valid() && !c.aborted && MayBePolled(polled, c.state, c.revived)
    modifies c, c.input, c.output
    ensures c.Valid() && c.Grew() && c.closes <= 1
    ensures !c.aborted ==> LeadsTo(old(c.Book()), events, polled, gots, c.Book())
    ensures c.aborted ==> c.revived || exists i :: 0 <= i < |events| && ClosesTwice(events[i])
    ensures c.kernel + c.output.Contents() == Concat(c.sent)
    ensures c.state != Disconnected ==> (c.wantsWrite <==> c.kernel != Concat(c.sent))
    ensures c.halfClosed && c.state != Disconnected ==> c.kernel == Concat(c.sent)
    decreases |events|
  {
    hide TcpConnection.Valid, Concat, HangsUp, ReadsEnd, TcpConnection.Book, AfterHappening, Got, Reaches, Moved,
         LeadsTo;
    ghost var then0 := c.Now();
    Summary(c);
    gots := [];
    if events == [] {
      LeadsNowhere(c.Book(), polled);
      FollowsSelf(then0);
    } else {
      ghost var b := c.Book();
      c.BookShows();
      var still := Happen(c, events[0], polled);
      Summary(c);
      if c.aborted {
        BadEvent(then0.state, then0.revived, events[0]);
      } else {
        ghost var then1 := c.Now();
        ghost var got := c.received[|then0.received|..];
        var rest := Run(c, events[1..], still);
        FollowsOn(then0, then1, c.Now());
        c.Pieces();
        if c.aborted {
          assert c.revived || exists i :: 0 <= i < |events| && ClosesTwice(events[i]) by {
            if !c.revived {
              var i :| 0 <= i < |events[1..]| && ClosesTwice(events[1..][i]);
              assert ClosesTwice(events[i + 1]);
            }
          }
        } else {
          gots := [got] + rest;
          LeadsOn(b, events, polled, got, rest, c.Book());
        }
      }
    }
  }

  lemma LeadsNowhere(b: Ledger, polled: bool)
    ensures LeadsTo(b, [], polled, [], b)
  {
  }

  /** An event closes badly only if it closes twice or reaches a connection that was closed before. */
  lemma BadEvent(state: ConnState, revived: bool, e: Event)
    requires e.PollEvent? && ClosesBadly(state, e.revents, e.read) && MayBePolled(true, state, revived)
    ensures revived || ClosesTwice(e)
  {
  }

  lemma Summary(c: TcpConnection)
    requires c.Valid()
    ensures c.output.Valid() && c.input.Valid()
    ensures c.closes <= 1 && c.kernel + c.output.Contents() == Concat(c.sent)
    ensures c.state != Disconnected ==> (c.wantsWrite <==> c.kernel != Concat(c.sent))
    ensures c.halfClosed && c.state != Disconnected ==> c.kernel == Concat(c.sent)
  {
    BalancedDone(c.kernel, c.output.Contents(), Concat(c.sent));
  }

  // ---------------------------------------------------------------- graceful closing

  /** Write events that each take at least one byte empty the output buffer, and then carry out a shutdown. */
  method Flush(c: TcpConnection, rooms: seq<nat>)
    requires c.Valid() && Open(c.state) && |rooms| >= |c.output.Contents()| && 0 !in rooms
    modifies c`kernel, c`wantsWrite, c`added, c`pending, c`halfClosed, c`kernelAtShutdown, c.output
    ensures c.Valid() && c.Grew() && c.kernel == Concat(c.sent) && !c.wantsWrite
    ensures c.state == Disconnecting && old(c.wantsWrite) ==> c.halfClosed
    decreases |rooms|
  {
    hide Concat, HalfClose;
    if c.wantsWrite {
      c.HandleWrite(Room(rooms[0]));
      Flush(c, rooms[1..]);
    }
    Summary(c);
  }

  lemma Cons(sent: seq<Bytes>, first: seq<Bytes>, messages: seq<Bytes>)
    requires messages != [] && first == sent + [messages[0]]
    ensures first + messages[1..] == sent + messages
  {
  }

  method SendAll(c: TcpConnection, messages: seq<Bytes>, answers: seq<WriteAnswer>)
    requires c.Valid() && c.state == Connected && |answers| == |messages| && PeerGone !in answers
    modifies c`kernel, c`sent, c`pending, c`wantsWrite, c`added, c.output
    ensures c.Valid() && c.Grew() && c.sent == old(c.sent) + messages
    decreases |messages|
  {
    hide Concat, HalfClose, InterestOk, Balanced;
    if messages != [] {
      c.Send(messages[0], answers[0]);
      ghost var first := c.sent;
      SendAll(c, messages[1..], answers[1..]);
      Cons(old(c.sent), first, messages);
    }
  }

  /** Whatever is sent in the loop before a shutdown reaches the kernel in order, however the writes are cut up, and
      then the write half is closed. */
  method SendAllAndShutdown(c: TcpConnection, messages: seq<Bytes>, answers: seq<WriteAnswer>, room: nat)
    requires c.Valid() && c.state == Connected && |answers| == |messages| && PeerGone !in answers && room > 0
    modifies c`state, c`kernel, c`sent, c`wantsWrite, c`added, c`pending, c`halfClosed, c`kernelAtShutdown, c.output
    ensures c.Valid() && c.Grew() && c.halfClosed
    ensures c.kernel == Concat(old(c.sent) + messages)
  {
    hide Concat, HalfClose, InterestOk, Balanced;
    SendAll(c, messages, answers);
    c.Shutdown();
    Summary(c);
    var rooms := seq(c.output.ReadableBytes(), _ => room);
    Flush(c, rooms);
  }

  // ---------------------------------------------------------------- what other threads cannot rely on

  /** A message sent from another thread and followed by a shutdown is lost: the shutdown takes effect at once, the
      message waits in the queue. */
  method OtherThreadLosesMessage(c: TcpConnection, msg: Bytes)
    requires c.Valid() && c.state == Connected && !c.aborted && c.pending == [] && msg != []
    modifies c, c.input, c.output
    ensures c.Valid() && c.Grew() && c.sent == old(c.sent) && (c.halfClosed <==> c.kernel == Concat(c.sent))
  {
    hide TcpConnection.Valid, Concat, Follows, Reaches, Moved;
    c.Pieces();
    ghost var then0 := c.Now();
    c.SendFromOtherThread(msg);
    ghost var then1 := c.Now();
    c.ShutdownFromOtherThread();
    ghost var then2 := c.Now();
    FollowsOn(then0, then1, then2);
    c.RunTask([], WouldBlock);
    ghost var then3 := c.Now();
    FollowsOn(then0, then2, then3);
    c.Pieces();
    c.RunTask([], WouldBlock);
    FollowsOn(then0, then3, c.Now());
  }

  /** A shutdown that runs after the disconnect closes the write half although accepted bytes are still held back. */
  method ShutdownCutsTail(msg: Bytes) returns (c: TcpConnection)
    requires msg != []
    ensures c.Valid() && c.halfClosed && c.sent == [msg] && c.kernel == [] && c.state == Disconnected
  {
    hide TcpConnection.Valid, Concat, Follows, Reaches, Moved, TcpConnection.Book, TcpConnection.CallMade;
    c := HoldsTail(msg);
    c.HandleRead(B.Received([]), [], []);
    c.Pieces();
    c.RunTask([], WouldBlock);
  }

  /** A message the kernel does not take, and a shutdown from another thread. */
  method HoldsTail(msg: Bytes) returns (c: TcpConnection)
    requires msg != []
    ensures c.Valid() && !c.aborted && c.state == Disconnecting && c.sent == [msg] && c.kernel == []
    ensures c.pending == [ShutdownTask] && fresh(c) && fresh(c.input) && fresh(c.output)
  {
    hide TcpConnection.Valid, Concat, Follows, Reaches, Moved, TcpConnection.Book, TcpConnection.CallMade;
    c := new TcpConnection(false, false, 64 * 1024 * 1024);
    c.ConnectEstablished([]);
    c.Pieces();
    c.Send(msg, WouldBlock);
    c.ShutdownFromOtherThread();
  }

  /** A connection that stopped reading and has nothing to write is outside the epoll set; a forced close puts it back
      in without events, and a hang-up reported before it is destroyed fails the assertion of `handleClose`. */
  method ForcedCloseAborts(c: TcpConnection)
    requires c.Valid() && c.state == Connected && !c.wantsWrite && c.pending == [] && !c.aborted
    modifies c, c.input, c.output
    ensures c.aborted
  {
    hide Concat, HalfClose, TcpConnection.Streams, Reaches, Moved, Follows, TcpConnection.Book, AfterCall, AfterTask,
         AfterEvent;
    c.StopReadInLoop();
    c.ForceClose();
    c.RunTask([], WouldBlock);
    assert c.added && c.state == Disconnected;
    var hangUp := Revents(true, false, false, false, false, false, false);
    c.HandleEvent(hangUp, B.Failed, WouldBlock, [], []);
  }

  /** A handler of another descriptor stops reading from a connection whose event has already been polled: the event is
      dispatched all the same, with the descriptor outside the epoll set, and a read that finds the end of the stream
      closes the connection as usual; but the close puts the descriptor back into the set. */
  method DispatchedLate(c: TcpConnection)
    requires c.Valid() && c.state == Connected && c.added && !c.wantsWrite && !c.aborted
    modifies c, c.input, c.output
    ensures c.Valid() && c.Grew() && !c.aborted && c.state == Disconnected && c.added && c.revived
  {
    hide Concat, HalfClose, Balanced, Reaches, Moved;
    c.StopReadInLoop();
    c.HandleRead(B.Received([]), [], []);
  }
}

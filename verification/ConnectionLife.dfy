/** What the loops see of a connection: its state, and what its channel wants from the epoll set
    (net/TcpConnection.cpp:145-237, 276-288, include/libfm/fmnet/Channel.h:41-45, net/Epoller.cpp:58-87). */
module ConnectionLife {

  datatype ConnState = Connecting | Connected | Disconnecting | Disconnected

  predicate Open(state: ConnState) { state == Connected || state == Disconnecting }

  /** The interest bits, and whether the descriptor is in the epoll set. */
  datatype Chan = Chan(wantsRead: bool, wantsWrite: bool, added: bool)

  const IDLE: Chan := Chan(false, false, false)

  predicate Interested(k: Chan) { k.wantsRead || k.wantsWrite }

  /** A descriptor outside the epoll set is added whatever its bits, one inside is taken out when it has none left. */
  function AfterUpdate(added: bool, interest: bool): bool { !added || interest }

  /** Every change of the bits updates the epoll set. */
  function Update(before: Chan, wantsRead: bool, wantsWrite: bool): Chan {
    Chan(wantsRead, wantsWrite, AfterUpdate(before.added, wantsRead || wantsWrite))
  }

  /** `revived`: the descriptor went back into the epoll set at or after the close; `forces`: the forced closes
      queued in the connection's loop. */
  datatype View = View(state: ConnState, reading: bool, chan: Chan, revived: bool, forces: nat)

  const CREATED: View := View(Connecting, true, IDLE, false, 0)

  datatype Move =
    | Establish
    | Close
    | Destroy
    | TakeForce      // a forced close leaves the queue
    | ShutDown
    | RequestClose
    | StartRead
    | StopRead
    | HoldBack
    | AllWritten

  /** The moves that user code and writing make; user code has a connection only after it is established. */
  predicate IsUserMove(m: Move) { m != Establish && m != Close && m != Destroy && m != TakeForce }

  predicate May(v: View, m: Move) {
    match m
    case Establish => v.state == Connecting
    case Close => Open(v.state)
    case Destroy => v.state != Connected && !Interested(v.chan)
    case TakeForce => v.forces > 0
    case ShutDown => v.state != Connecting
    case RequestClose => v.state != Connecting
    case StartRead => v.state != Connecting
    case StopRead => v.state != Connecting
    case HoldBack => v.state == Connected
    case AllWritten => v.chan.wantsWrite
  }

  function Moved(v: View, m: Move): View {
    match m
    case Establish => v.(state := Connected, chan := Update(v.chan, true, v.chan.wantsWrite))
    case Close =>
      v.(state := Disconnected, chan := Update(v.chan, false, false), revived := v.revived || !v.chan.added)
    case Destroy => v.(chan := IDLE)
    case TakeForce => v.(forces := if v.forces > 0 then v.forces - 1 else 0)
    case ShutDown => if v.state == Connected then v.(state := Disconnecting) else v
    case RequestClose => if Open(v.state) then v.(state := Disconnecting, forces := v.forces + 1) else v
    case StartRead =>
      if v.reading && v.chan.wantsRead then v
      else
        v.(reading := true, chan := Update(v.chan, true, v.chan.wantsWrite),
           revived := v.revived || v.state == Disconnected)
    case StopRead =>
      if !v.reading && !v.chan.wantsRead then v
      else
        v.(reading := false, chan := Update(v.chan, false, v.chan.wantsWrite),
           revived := v.revived || v.state == Disconnected)
    case HoldBack => if v.chan.wantsWrite then v else v.(chan := Update(v.chan, v.chan.wantsRead, true))
    case AllWritten => v.(chan := Update(v.chan, v.chan.wantsRead, false))
  }

  // ---------------------------------------------------------------- sequences of user moves

  predicate MayAll(v: View, moves: seq<Move>)
    decreases |moves|
  {
    moves == [] || (IsUserMove(moves[0]) && May(v, moves[0]) && MayAll(Moved(v, moves[0]), moves[1..]))
  }

  function MovedAll(v: View, moves: seq<Move>): View
    decreases |moves|
  {
    if moves == [] then v else MovedAll(Moved(v, moves[0]), moves[1..])
  }

  /** User code and writing can lead from one view to the other. */
  ghost predicate Reaches(v: View, w: View) {
    exists moves :: MayAll(v, moves) && MovedAll(v, moves) == w
  }

  lemma ReachesSelf(v: View)
    ensures Reaches(v, v)
  {
    assert MayAll(v, []) && MovedAll(v, []) == v;
  }

  lemma {:induction false} MovesAppend(v: View, a: seq<Move>, b: seq<Move>)
    requires MayAll(v, a) && MayAll(MovedAll(v, a), b)
    ensures MayAll(v, a + b) && MovedAll(v, a + b) == MovedAll(MovedAll(v, a), b)
    decreases |a|
  {
    hide May, Moved;
    if a == [] {
      assert a + b == b;
    } else {
      assert (a + b)[1..] == a[1..] + b;
      MovesAppend(Moved(v, a[0]), a[1..], b);
    }
  }

  lemma ReachesOn(u: View, v: View, w: View)
    requires Reaches(u, v) && Reaches(v, w)
    ensures Reaches(u, w)
  {
    var a :| MayAll(u, a) && MovedAll(u, a) == v;
    var b :| MayAll(v, b) && MovedAll(v, b) == w;
    MovesAppend(u, a, b);
  }

  lemma ReachesByMove(v: View, m: Move)
    requires IsUserMove(m) && May(v, m)
    ensures Reaches(v, Moved(v, m))
  {
    var moves := [m];
    assert moves[1..] == [];
    assert MayAll(Moved(v, m), []) && MovedAll(Moved(v, m), []) == Moved(v, m);
    assert MayAll(v, moves) && MovedAll(v, moves) == Moved(v, m);
  }

  /** A queued forced close makes no difference to the moves. */
  lemma {:induction false} MovesShift(v: View, moves: seq<Move>)
    requires MayAll(v, moves) && v.forces > 0
    ensures MovedAll(v, moves).forces > 0 && MayAll(Moved(v, TakeForce), moves)
    ensures MovedAll(Moved(v, TakeForce), moves) == Moved(MovedAll(v, moves), TakeForce)
    decreases |moves|
  {
    if moves != [] {
      MovesShift(Moved(v, moves[0]), moves[1..]);
    }
  }

  lemma ReachesShift(v: View, w: View)
    requires Reaches(v, w) && v.forces > 0
    ensures w.forces > 0 && Reaches(Moved(v, TakeForce), Moved(w, TakeForce))
  {
    var moves :| MayAll(v, moves) && MovedAll(v, moves) == w;
    MovesShift(v, moves);
  }
}

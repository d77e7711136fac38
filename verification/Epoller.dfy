/** Channels and the epoll set (net/Epoller.cpp:58-138, include/libfm/fmnet/Channel.h:41-48, net/Channel.cpp:44-53).
    The library caches in each channel's index what the kernel knows; `kernel` is the kernel's own interest set. */
module Epoller {
  import L = ConnectionLife

  /** The interest bits of a channel: POLLIN and POLLPRI together, and POLLOUT. */
  datatype Events = Events(read: bool, write: bool)

  const NO_EVENTS: Events := Events(false, false)

  datatype Index = New | Added | Deleted

  datatype Operation = Add | Modify | Delete

  datatype Op =
    | Create(fd: int)
    | EnableReading(channel: nat)
    | EnableWriting(channel: nat)
    | DisableReading(channel: nat)
    | DisableWriting(channel: nat)
    | DisableAll(channel: nat)
    | Remove(channel: nat)
    | Dispose(channel: nat)

  class Channel {
    const fd: int
    const poller: Epoller
    var events: Events
    var index: Index
    var addedToLoop: bool

    /** The channel as its connection sees it. */
    function AsChan(): L.Chan
      reads this
    {
      L.Chan(events.read, events.write, index == Added)
    }

    /** A descriptor belongs to at most one channel at a time. */
    constructor (poller: Epoller, fd: int)
      requires poller.Valid() && forall c :: c in poller.known ==> c.fd != fd
      modifies poller`known
      ensures poller.Valid() && poller.known == old(poller.known) + {this}
      ensures this.poller == poller && this.fd == fd && index == New && events == NO_EVENTS && !addedToLoop
    {
      this.fd, this.poller := fd, poller;
      events, index, addedToLoop := NO_EVENTS, New, false;
      new;
      poller.known := poller.known + {this};
    }

    /** The destructor: a channel that its loop has forgotten gives up its descriptor, which may then be used again. */
    method Dispose()
      requires poller.Valid() && this in poller.known && index == New
      modifies poller`known
      ensures poller.Valid() && poller.known == old(poller.known) - {this}
      ensures forall c :: c in poller.known ==> c.fd != fd
    {
      assert !addedToLoop && !poller.HasChannel(this);
      poller.known := poller.known - {this};
    }

    method EnableReading()
      requires poller.Valid() && this in poller.known
      modifies this, poller
      ensures poller.Valid() && poller.Updated(this, events) && events == old(events).(read := true)
      ensures AsChan() == L.Update(old(AsChan()), true, old(events.write))
    {
      Change(events.(read := true));
    }

    method EnableWriting()
      requires poller.Valid() && this in poller.known
      modifies this, poller
      ensures poller.Valid() && poller.Updated(this, events) && events == old(events).(write := true)
      ensures AsChan() == L.Update(old(AsChan()), old(events.read), true)
    {
      Change(events.(write := true));
    }

    method DisableReading()
      requires poller.Valid() && this in poller.known
      modifies this, poller
      ensures poller.Valid() && poller.Updated(this, events) && events == old(events).(read := false)
      ensures AsChan() == L.Update(old(AsChan()), false, old(events.write))
    {
      Change(events.(read := false));
    }

    method DisableWriting()
      requires poller.Valid() && this in poller.known
      modifies this, poller
      ensures poller.Valid() && poller.Updated(this, events) && events == old(events).(write := false)
      ensures AsChan() == L.Update(old(AsChan()), old(events.read), false)
    {
      Change(events.(write := false));
    }

    method DisableAll()
      requires poller.Valid() && this in poller.known
      modifies this, poller
      ensures poller.Valid() && poller.Updated(this, events) && events == NO_EVENTS
      ensures AsChan() == L.Update(old(AsChan()), false, false)
    {
      Change(NO_EVENTS);
    }

    /** The bits change, then `update()`. */
    method Change(e: Events)
      requires poller.Valid() && this in poller.known
      modifies this, poller
      ensures poller.Valid() && poller.Updated(this, e) && events == e && addedToLoop
      ensures AsChan() == L.Update(old(AsChan()), e.read, e.write)
    {
      events := e;
      addedToLoop := true;
      poller.UpdateChannel(this);
    }

    method Remove()
      requires poller.Valid() && this in poller.known && index != New && events == NO_EVENTS
      modifies this, poller
      ensures poller.Valid() && poller.known == old(poller.known)
      ensures index == New && !addedToLoop && events == NO_EVENTS && AsChan() == L.IDLE
      ensures poller.channels == old(poller.channels) - {fd} && poller.kernel == old(poller.kernel) - {fd}
    {
      addedToLoop := false;
      poller.RemoveChannel(this);
    }
  }

  class Epoller {
    var channels: map<int, Channel>
    var kernel: map<int, Events>
    var failures: nat              // epoll_ctl calls the kernel has refused
    ghost var known: set<Channel>  // the channels of this loop that exist

    /** `channels` holds exactly the channels whose index is not New, each under its own descriptor. */
    ghost predicate Cached()
      reads this, known
    {
      && (forall c :: c in known ==> c.poller == this && (c.index != New <==> c.fd in channels))
      && (forall c, d :: c in known && d in known && c.fd == d.fd ==> c == d)
      && (forall fd :: fd in channels ==> channels[fd] in known && channels[fd].fd == fd)
    }

    /** What the kernel watches for the descriptor of `c` is what the cache says. */
    ghost predicate Agrees(c: Channel)
      reads this, c
    {
      && (c.fd in kernel <==> c.index == Added)
      && (c.fd in kernel ==> kernel[c.fd] == c.events)
      && (c.events != NO_EVENTS ==> c.index == Added)
      && (c.addedToLoop <==> c.index != New)
    }

    ghost predicate Others(c: Channel)
      reads this, known
    {
      && (forall d :: d in known && d != c ==> Agrees(d))
      && (forall fd :: fd in kernel ==> fd in channels)
    }

    ghost predicate Valid()
      reads this, known
    {
      && Cached() && (forall c :: c in known ==> Agrees(c))
      && (forall fd :: fd in kernel ==> fd in channels) && failures == 0
    }

    constructor ()
      ensures Valid() && known == {} && channels == map[] && kernel == map[]
    {
      channels, kernel, failures, known := map[], map[], 0, {};
    }

    /** epoll_ctl: the kernel refuses to add a descriptor twice and to modify or delete an unknown one. */
    method Control(operation: Operation, fd: int, events: Events)
      modifies this`kernel, this`failures
      ensures (
        var legal := if operation == Add then fd !in old(kernel) else fd in old(kernel);
        && failures == old(failures) + (if legal then 0 else 1)
        && kernel == if !legal then old(kernel)
                     else if operation == Delete then old(kernel) - {fd}
                     else old(kernel)[fd := events])
    {
      if (operation == Add) == (fd in kernel) {
        failures := failures + 1;
      } else if operation == Delete {
        kernel := kernel - {fd};
      } else {
        kernel := kernel[fd := events];
      }
    }

    /** The effect of an update of `c`: a channel not in the epoll set is added whatever its bits are, one in the set
        is taken out when it has no bits left. */
    twostate predicate Updated(c: Channel, e: Events)
      reads this, c
    {
      && known == old(known)
      && c.index == (if old(c.index) == Added && e == NO_EVENTS then Deleted else Added)
      && channels == old(channels)[c.fd := c]
      && kernel == if c.index == Deleted then old(kernel) - {c.fd} else old(kernel)[c.fd := e]
    }

    /** Called when the bits of `channel` may have changed. */
    method UpdateChannel(channel: Channel)
      requires channel in known && Cached() && Others(channel) && failures == 0
      requires channel.addedToLoop && (channel.fd in kernel <==> channel.index == Added)
      modifies this`channels, this`kernel, this`failures, channel`index
      ensures Valid() && Updated(channel, channel.events)
    {
      var fd := channel.fd;
      if channel.index == New || channel.index == Deleted {
        if channel.index == New {
          assert fd !in channels;
          channels := channels[fd := channel];
        } else {
          assert fd in channels && channels[fd] == channel;
        }
        channel.index := Added;
        Control(Add, fd, channel.events);
      } else {
        assert fd in channels && channels[fd] == channel;
        if channel.events == NO_EVENTS {
          Control(Delete, fd, channel.events);
          channel.index := Deleted;
        } else {
          Control(Modify, fd, channel.events);
        }
      }
    }

    method RemoveChannel(channel: Channel)
      requires channel in known && Cached() && Others(channel) && failures == 0
      requires channel.fd in kernel <==> channel.index == Added
      requires !channel.addedToLoop && channel.index != New && channel.events == NO_EVENTS
      modifies this`channels, this`kernel, this`failures, channel`index
      ensures Valid() && channel.index == New
      ensures channels == old(channels) - {channel.fd} && kernel == old(kernel) - {channel.fd}
    {
      var fd := channel.fd;
      assert fd in channels && channels[fd] == channel;
      var status := channel.index;
      channels := channels - {fd};
      if status == Added {
        Control(Delete, fd, channel.events);
      }
      channel.index := New;
    }

    function HasChannel(channel: Channel): (has: bool)
      requires Cached() && channel in known
      ensures has <==> channel.index != New
      reads this, known
    {
      channel.fd in channels && channels[channel.fd] == channel
    }
  }

  // ---------------------------------------------------------------- any sequence of calls

  /** A channel as its user knows it. */
  datatype Row = Row(fd: int, events: Events, index: Index)

  function Rows(channels: seq<Channel>): seq<Row>
    reads set c | c in channels
  {
    seq(|channels|, i requires 0 <= i < |channels| reads set c | c in channels =>
      Row(channels[i].fd, channels[i].events, channels[i].index))
  }

  /** The bits change: a channel not in the epoll set goes into it, one in the set leaves it with its last bit. */
  function Changed(row: Row, e: Events): Row {
    row.(events := e, index := if row.index == Added && e == NO_EVENTS then Deleted else Added)
  }

  predicate ChangesBits(op: Op) { !op.Create? && !op.Remove? && !op.Dispose? }

  function Bits(op: Op, e: Events): Events
    requires ChangesBits(op)
  {
    match op
    case EnableReading(_) => e.(read := true)
    case EnableWriting(_) => e.(write := true)
    case DisableReading(_) => e.(read := false)
    case DisableWriting(_) => e.(write := false)
    case DisableAll(_) => Events(false, false)
  }

  /** What one call makes of the channels.  A new channel takes a descriptor that no other has; a channel is removed
      only without bits, and disposed of once it is removed. */
  function After(rows: seq<Row>, op: Op): seq<Row> {
    if op.Create? then
      if exists i :: 0 <= i < |rows| && rows[i].fd == op.fd then rows else rows + [Row(op.fd, NO_EVENTS, New)]
    else if op.channel >= |rows| then rows
    else
      var row := rows[op.channel];
      if op.Remove? then
        if row.events == NO_EVENTS then rows[op.channel := row.(index := New)] else rows
      else if op.Dispose? then
        if row.index == New then rows[..op.channel] + rows[op.channel + 1..] else rows
      else rows[op.channel := Changed(row, Bits(op, row.events))]
  }

  function AfterAll(rows: seq<Row>, ops: seq<Op>): seq<Row>
    decreases |ops|
  {
    if ops == [] then rows else AfterAll(After(rows, ops[0]), ops[1..])
  }

  ghost predicate Distinct(channels: seq<Channel>) {
    forall i, j :: 0 <= i < j < |channels| ==> channels[i] != channels[j]
  }

  /** After any sequence of calls, with channels coming and going and their descriptors being used again: each call has
      exactly its effect on its channel, the kernel watches exactly the descriptors whose channel has index Added, for
      exactly that channel's events; a channel with an interest is always watched; and no call to the kernel has been
      refused. */
  method Run(poller: Epoller, channels: seq<Channel>, ops: seq<Op>) returns (live: seq<Channel>)
    requires poller.Valid() && poller.known == (set c | c in channels) && Distinct(channels)
    modifies poller, poller.known
    ensures poller.Valid() && poller.failures == 0 && poller.known == (set c | c in live) && Distinct(live)
    ensures Rows(live) == AfterAll(old(Rows(channels)), ops)
    ensures forall c :: c in live ==>
              && (c.fd in poller.kernel <==> c.index == Added)
              && (c.events != NO_EVENTS ==> c.fd in poller.kernel && poller.kernel[c.fd] == c.events)
    decreases |ops|
  {
    hide After;
    live := channels;
    if ops != [] {
      live := Perform(poller, channels, ops[0]);
      live := Run(poller, live, ops[1..]);
    }
    assert forall c :: c in live ==> c in poller.known && poller.Agrees(c);
  }

  /** One call. */
  method Perform(poller: Epoller, channels: seq<Channel>, op: Op) returns (live: seq<Channel>)
    requires poller.Valid() && poller.known == (set c | c in channels) && Distinct(channels)
    modifies poller, poller.known
    ensures poller.Valid() && poller.known == (set c | c in live) && Distinct(live)
    ensures fresh(poller.known - old(poller.known)) && Rows(live) == After(old(Rows(channels)), op)
  {
    live := channels;
    if op.Create? {
      live := CreateChannel(poller, channels, op.fd);
    } else if op.channel < |channels| {
      var c := channels[op.channel];
      assert c in poller.known && c.poller == poller;
      if op.Remove? {
        if c.index != New && c.events == NO_EVENTS { c.Remove(); }
      } else if op.Dispose? {
        if c.index == New { live := DisposeAt(poller, channels, op.channel); }
      } else {
        ChangeBits(c, op);
      }
    }
  }

  method ChangeBits(c: Channel, op: Op)
    requires c.poller.Valid() && c in c.poller.known && ChangesBits(op)
    modifies c, c.poller
    ensures c.poller.Valid() && c.poller.known == old(c.poller.known)
    ensures Row(c.fd, c.events, c.index) == Changed(Row(c.fd, old(c.events), old(c.index)), Bits(op, old(c.events)))
  {
    match op
    case EnableReading(_) => c.EnableReading();
    case EnableWriting(_) => c.EnableWriting();
    case DisableReading(_) => c.DisableReading();
    case DisableWriting(_) => c.DisableWriting();
    case DisableAll(_) => c.DisableAll();
  }

  method DisposeAt(poller: Epoller, channels: seq<Channel>, k: nat) returns (live: seq<Channel>)
    requires poller.Valid() && poller.known == (set c | c in channels) && Distinct(channels)
    requires k < |channels| && channels[k].index == New
    modifies poller`known
    ensures poller.Valid() && poller.known == (set c | c in live) && Distinct(live)
    ensures poller.known <= old(poller.known) && Rows(live) == After(old(Rows(channels)), Dispose(k))
  {
    var c := channels[k];
    assert c in poller.known && c.poller == poller;
    c.Dispose();
    live := channels[..k] + channels[k + 1..];
  }

  method CreateChannel(poller: Epoller, channels: seq<Channel>, fd: int) returns (live: seq<Channel>)
    requires poller.Valid() && poller.known == (set c | c in channels) && Distinct(channels)
    modifies poller`known
    ensures poller.Valid() && poller.known == (set c | c in live) && Distinct(live)
    ensures fresh(poller.known - old(poller.known)) && Rows(live) == After(old(Rows(channels)), Create(fd))
  {
    live := channels;
    if forall c :: c in channels ==> c.fd != fd {
      var c := new Channel(poller, fd);
      live := live + [c];
    }
  }

  /** A descriptor can be given to a new channel once the old one is removed and gone. */
  method UseAgain(poller: Epoller, fd: int) returns (c: Channel)
    requires poller.Valid() && forall c :: c in poller.known ==> c.fd != fd
    modifies poller
    ensures poller.Valid() && c in poller.known && c.fd == fd && c.index == Added
  {
    var first := new Channel(poller, fd);
    first.EnableReading();
    first.DisableAll();
    first.Remove();
    first.Dispose();
    c := new Channel(poller, fd);
    c.EnableReading();
  }

  /** Turning off what is already off puts the descriptor back into the epoll set without events: from then on the
      kernel reports hang-ups and errors for it again. */
  method DisableTwice(c: Channel)
    requires c.poller.Valid() && c in c.poller.known && c.index == Added
    modifies c, c.poller
    ensures c.poller.Valid() && c.index == Added && c.events == NO_EVENTS
    ensures c.fd in c.poller.kernel && c.poller.kernel[c.fd] == NO_EVENTS
  {
    c.DisableAll();
    c.DisableAll();
  }
}

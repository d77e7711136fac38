/** Timers, their identities, and the ordered tree of pending expirations
    (net/Timer.h, include/libfm/fmnet/TimerId.h, net/TimerQueue.h:39-41). */
module TimerTree {

  /** Microseconds since the epoch. */
  type Time = int

  type Addr = nat

  datatype Timer = Timer(expiration: Time, interval: int, sequence: int) {
    predicate IsRepeated() { interval > 0 }

    /** `Timer::restart`; a timer that does not repeat would get time zero (net/Timer.cpp:14-17). */
    function Restart(now: Time): Timer {
      this.(expiration := if IsRepeated() then now + interval else 0)
    }
  }

  /** A timer's address and creation number. */
  datatype TimerId = TimerId(addr: Addr, sequence: int)

  /** A key of the tree. */
  datatype Entry = Entry(when: Time, addr: Addr)

  predicate Before(a: Entry, b: Entry) {
    a.when < b.when || (a.when == b.when && a.addr < b.addr)
  }

  /** `std::set<TimerEntry>` as its in-order sequence. */
  predicate Sorted(tree: seq<Entry>) {
    forall i, j :: 0 <= i < j < |tree| ==> Before(tree[i], tree[j])
  }

  function Insert(tree: seq<Entry>, e: Entry): (r: seq<Entry>)
    requires Sorted(tree) && e !in tree
    ensures Sorted(r) && |r| == |tree| + 1
    ensures forall x :: x in r <==> x == e || x in tree
    ensures r[0] == if tree == [] || Before(e, tree[0]) then e else tree[0]
  {
    if tree == [] || Before(e, tree[0]) then
      [e] + tree
    else
      var rest := Insert(tree[1..], e);
      assert forall x :: x in tree <==> x == tree[0] || x in tree[1..];
      assert forall i :: 0 <= i < |rest| ==> rest[i] in rest && Before(tree[0], rest[i]);
      [tree[0]] + rest
  }

  function Erase(tree: seq<Entry>, e: Entry): (r: seq<Entry>)
    requires Sorted(tree) && e in tree
    ensures Sorted(r) && |r| == |tree| - 1
    ensures forall x :: x in r <==> x != e && x in tree
    ensures r != [] ==> r[0] == tree[0] || Before(tree[0], r[0])
  {
    if tree[0] == e then
      assert forall x :: x in tree <==> x == tree[0] || x in tree[1..];
      tree[1..]
    else
      var rest := Erase(tree[1..], e);
      assert forall x :: x in tree <==> x == tree[0] || x in tree[1..];
      assert forall i :: 0 <= i < |rest| ==> rest[i] in rest && Before(tree[0], rest[i]);
      [tree[0]] + rest
  }

  /** `lower_bound((now, UINTPTR_MAX))`: how many entries are due. */
  function Due(tree: seq<Entry>, now: Time): (n: nat)
    requires Sorted(tree)
    ensures n <= |tree|
    ensures forall i :: 0 <= i < |tree| ==> (tree[i].when <= now <==> i < n)
  {
    if tree == [] || tree[0].when > now then 0 else 1 + Due(tree[1..], now)
  }

  // ---------------------------------------------------------------- the requested delay

  const SECOND_US := 1_000_000
  const SECOND_NS := 1_000_000_000

  datatype Timespec = Timespec(sec: int, nsec: int)

  /** Signed division and remainder of the source language: they truncate toward zero. */
  function TruncDiv(a: int, b: int): int
    requires b > 0
  {
    if a >= 0 then a / b else -((-a) / b)
  }

  function TruncMod(a: int, b: int): int
    requires b > 0
  {
    if a >= 0 then a % b else -((-a) % b)
  }

  /** `SystemClock::to_timespec` (include/libfm/fmutil/SystemClock.h:48-53). */
  function ToTimespec(us: int): Timespec {
    Timespec(TruncDiv(us, SECOND_US), TruncMod(us, SECOND_US) * 1000)
  }

  /** `timespecFromNow` (net/TimerQueue.cpp:35-42), with `diff` = `when - now`. */
  method TimespecFromNow(diff: int) returns (interval: Timespec)
    ensures interval.sec * SECOND_NS + interval.nsec == Delay(diff)
    ensures 0 <= interval.sec && 0 <= interval.nsec < SECOND_NS
  {
    interval := ToTimespec(diff);
    if interval.sec < 0 {
      interval := interval.(sec := 0);
    }
    if interval.sec == 0 && interval.nsec < 100 {
      interval := interval.(nsec := 100);
    }
  }

  /** The delay in nanoseconds: never in the past, never zero (which would disarm the timerfd). */
  function Delay(diff: int): int {
    if 1000 * diff > 100 then 1000 * diff else 100
  }
}

/** The timer queue of an event loop (net/TimerQueue.cpp): an ordered tree of expirations, the set of active
    timers, and one one-shot timerfd.  User callbacks re-enter it while a batch of expired timers is being run.

    The allocator is the environment: an address is any number that is not live, so addresses are reused freely. */
module TimerQueue {
  import opened TimerTree

  type Heap = map<Addr, Timer>

  /** The timerfd: disarmed, armed for the time `at` (nanoseconds), or expired and not yet read.
      `setAt` is when it was armed. */
  datatype TimerFd = Disarmed | Armed(at: int, setAt: int) | Fired

  /** A callback that was run: of which timer, with what interval, in the batch of which time. */
  datatype Run = Run(sequence: int, interval: int, at: Time)

  /** A timer made by another thread; `addr` is what the allocator answers. */
  datatype Creation = Creation(addr: Addr, when: Time, interval: int)

  /** What can happen to the queue while a user callback runs: the callback adds or cancels a timer, or another thread
      makes one, whose addition it posts to the loop. */
  datatype Action =
    | Add(addr: Addr, when: Time, interval: int, clock: Time)
    | Cancel(id: TimerId)
    | Elsewhere(creation: Creation)

  function IdAt(heap: Heap, addr: Addr): TimerId
    requires addr in heap
  {
    TimerId(addr, heap[addr].sequence)
  }

  // ---------------------------------------------------------------- consistency of the containers

  /** The tree and the active set agree entry by entry; keys are the timers' expirations. */
  ghost predicate TreeOk(heap: Heap, tree: seq<Entry>, active: set<TimerId>) {
    Sorted(tree) && |active| == |tree| &&
    (forall e :: e in tree ==> e.addr in heap && heap[e.addr].expiration == e.when && IdAt(heap, e.addr) in active) &&
    (forall id :: id in active ==>
       id.addr in heap && heap[id.addr].sequence == id.sequence && Entry(heap[id.addr].expiration, id.addr) in tree)
  }

  ghost predicate BatchOk(heap: Heap, batch: seq<Entry>) {
    (forall e :: e in batch ==> e.addr in heap && heap[e.addr].expiration == e.when) &&
    (forall i, j :: 0 <= i < j < |batch| ==> batch[i].addr != batch[j].addr)
  }

  predicate InBatch(batch: seq<Entry>, a: Addr, t: Timer) {
    Entry(t.expiration, a) in batch
  }

  /** Every live timer is in exactly one of: the active set (and tree), the batch being run, the additions that
      have not reached the loop.  No two live timers share a creation number. */
  ghost predicate Partition(heap: Heap, created: int, active: set<TimerId>, batch: seq<Entry>, pending: set<Addr>) {
    (forall a :: a in pending ==> a in heap) &&
    (forall a :: a in heap ==>
       heap[a].sequence < created &&
       (IdAt(heap, a) in active <==> a !in pending && !InBatch(batch, a, heap[a])) &&
       !(a in pending && InBatch(batch, a, heap[a]))) &&
    (forall a, b :: a in heap && b in heap && heap[a].sequence == heap[b].sequence ==> a == b)
  }

  ghost predicate Consistent(heap: Heap, created: int, tree: seq<Entry>, active: set<TimerId>, batch: seq<Entry>,
                             pending: set<Addr>)
  {
    TreeOk(heap, tree, active) && BatchOk(heap, batch) && Partition(heap, created, active, batch, pending)
  }

  lemma NewKeeps(heap: Heap, created: int, tree: seq<Entry>, active: set<TimerId>, batch: seq<Entry>,
                 pending: set<Addr>, addr: Addr, when: Time, interval: int)
    requires Consistent(heap, created, tree, active, batch, pending) && addr !in heap
    ensures Consistent(heap[addr := Timer(when, interval, created)], created + 1, tree, active, batch, pending + {addr})
  {
  }

  lemma InsertKeeps(heap: Heap, created: int, tree: seq<Entry>, active: set<TimerId>, batch: seq<Entry>,
                    pending: set<Addr>, addr: Addr)
    requires Consistent(heap, created, tree, active, batch, pending) && addr in pending
    ensures Entry(heap[addr].expiration, addr) !in tree && IdAt(heap, addr) !in active
    ensures Consistent(heap, created, Insert(tree, Entry(heap[addr].expiration, addr)), active + {IdAt(heap, addr)},
                       batch, pending - {addr})
  {
  }

  lemma CancelTree(heap: Heap, tree: seq<Entry>, active: set<TimerId>, id: TimerId)
    requires TreeOk(heap, tree, active) && id in active
    ensures Entry(heap[id.addr].expiration, id.addr) in tree && IdAt(heap, id.addr) == id
    ensures TreeOk(heap - {id.addr}, Erase(tree, Entry(heap[id.addr].expiration, id.addr)), active - {id})
  {
  }

  lemma CancelKeeps(heap: Heap, created: int, tree: seq<Entry>, active: set<TimerId>, batch: seq<Entry>,
                    pending: set<Addr>, id: TimerId)
    requires Consistent(heap, created, tree, active, batch, pending) && id in active
    ensures Entry(heap[id.addr].expiration, id.addr) in tree && IdAt(heap, id.addr) == id
    ensures !InBatch(batch, id.addr, heap[id.addr])
    ensures Consistent(heap - {id.addr}, created, Erase(tree, Entry(heap[id.addr].expiration, id.addr)), active - {id},
                       batch, pending)
  {
    CancelTree(heap, tree, active, id);
  }

  lemma ExpireOne(heap: Heap, created: int, tree: seq<Entry>, active: set<TimerId>, batch: seq<Entry>,
                  pending: set<Addr>)
    requires Consistent(heap, created, tree, active, batch, pending) && tree != []
    ensures IdAt(heap, tree[0].addr) in active
    ensures Consistent(heap, created, tree[1..], active - {IdAt(heap, tree[0].addr)}, batch + [tree[0]], pending)
  {
    assert tree[0] in tree;
    ExpireTree(heap, tree, active);
    hide TreeOk;
    ExpireBatch(heap, batch, tree[0]);
    hide BatchOk;
    assert forall e :: e in batch + [tree[0]] <==> e in batch || e == tree[0];
  }

  lemma ExpireTree(heap: Heap, tree: seq<Entry>, active: set<TimerId>)
    requires TreeOk(heap, tree, active) && tree != []
    ensures tree[0].addr in heap && heap[tree[0].addr].expiration == tree[0].when && IdAt(heap, tree[0].addr) in active
    ensures TreeOk(heap, tree[1..], active - {IdAt(heap, tree[0].addr)})
  {
    assert tree[0] in tree && forall e :: e in tree[1..] ==> e in tree && e != tree[0];
    assert forall e :: e in tree <==> e == tree[0] || e in tree[1..];
  }

  lemma ExpireBatch(heap: Heap, batch: seq<Entry>, e: Entry)
    requires BatchOk(heap, batch) && e.addr in heap && heap[e.addr].expiration == e.when && e !in batch
    ensures BatchOk(heap, batch + [e])
  {
    assert forall x :: x in batch + [e] <==> x in batch || x == e;
    assert forall i :: 0 <= i < |batch| ==> batch[i] in batch;
  }

  lemma FreeKeeps(heap: Heap, created: int, tree: seq<Entry>, active: set<TimerId>, batch: seq<Entry>,
                  pending: set<Addr>)
    requires Consistent(heap, created, tree, active, batch, pending) && batch != []
    ensures Consistent(heap - {batch[0].addr}, created, tree, active, batch[1..], pending)
  {
  }

  lemma RestartKeeps(heap: Heap, created: int, tree: seq<Entry>, active: set<TimerId>, batch: seq<Entry>,
                     pending: set<Addr>, t: Timer)
    requires Consistent(heap, created, tree, active, batch, pending) && batch != []
    requires t.sequence == heap[batch[0].addr].sequence
    ensures Consistent(heap[batch[0].addr := t], created, tree, active, batch[1..], pending + {batch[0].addr})
  {
  }

  // ---------------------------------------------------------------- the history of runs

  /** A one-shot timer ran at most once; two runs of a repeating timer are at least its interval apart. */
  ghost predicate RunsApart(runs: seq<Run>) {
    forall i, j :: 0 <= i < j < |runs| && runs[i].sequence == runs[j].sequence ==>
      runs[i].interval == runs[j].interval > 0 && runs[i].at + runs[i].interval <= runs[j].at
  }

  /** Every earlier run of the timer is at least its interval before its expiration. */
  ghost predicate RanBefore(runs: seq<Run>, t: Timer) {
    forall r :: r in runs && r.sequence == t.sequence ==>
      r.interval == t.interval > 0 && r.at + t.interval <= t.expiration
  }

  /** Every earlier run of the timer is no later than `now`. */
  ghost predicate RanBy(runs: seq<Run>, t: Timer, now: Time) {
    forall r :: r in runs && r.sequence == t.sequence ==> r.interval == t.interval && r.at <= now
  }

  /** `ran` holds the addresses of the batch whose callback has been run at time `now`. */
  ghost predicate History(heap: Heap, created: int, runs: seq<Run>, ran: set<Addr>, now: Time) {
    RunsApart(runs) &&
    (forall r :: r in runs ==> r.sequence < created) &&
    (forall a :: a in heap ==> if a in ran then RanBy(runs, heap[a], now) else RanBefore(runs, heap[a]))
  }

  lemma NewHistory(heap: Heap, created: int, runs: seq<Run>, ran: set<Addr>, now: Time, addr: Addr, when: Time,
                   interval: int)
    requires History(heap, created, runs, ran, now) && addr !in heap && addr !in ran
    ensures History(heap[addr := Timer(when, interval, created)], created + 1, runs, ran, now)
  {
  }

  lemma RunHistory(heap: Heap, created: int, runs: seq<Run>, ran: set<Addr>, now: Time, addr: Addr)
    requires History(heap, created, runs, ran, now) && addr in heap && addr !in ran && heap[addr].expiration <= now
    requires heap[addr].sequence < created
    requires forall a :: a in heap && heap[a].sequence == heap[addr].sequence ==> a == addr
    ensures History(heap, created, runs + [Run(heap[addr].sequence, heap[addr].interval, now)], ran + {addr}, now)
  {
  }

  lemma RestartHistory(heap: Heap, created: int, runs: seq<Run>, ran: set<Addr>, now: Time, addr: Addr)
    requires History(heap, created, runs, ran, now) && addr in heap && addr in ran && heap[addr].IsRepeated()
    ensures History(heap[addr := heap[addr].Restart(now)], created, runs, ran - {addr}, now)
  {
  }

  lemma FreeHistory(heap: Heap, created: int, runs: seq<Run>, ran: set<Addr>, now: Time, addr: Addr)
    requires History(heap, created, runs, ran, now)
    ensures History(heap - {addr}, created, runs, ran - {addr}, now)
  {
  }

  // ---------------------------------------------------------------- the timerfd

  /** A non-empty tree implies that the timerfd has fired, or will no later than the earliest expiration (or 100
      nanoseconds after it was armed, if that was already in the past). */
  ghost predicate ArmedEnough(tree: seq<Entry>, fd: TimerFd) {
    tree != [] ==>
      fd.Fired? || (fd.Armed? && (fd.at <= 1000 * tree[0].when || fd.at <= fd.setAt + 100))
  }

  /** The timerfd when it is set at `clock` for the time `when`, or for 100 nanoseconds later if that is past. */
  function ArmedFor(when: Time, clock: Time): TimerFd {
    Armed(if 1000 * when > 1000 * clock + 100 then 1000 * when else 1000 * clock + 100, 1000 * clock)
  }

  // ---------------------------------------------------------------- the whole state

  /** History of the queue, used by its specification only: the timers whose `addTimerInLoop` is still queued; the
      expired timers taken out of the tree and not yet reset; those of them whose callback has been run; the time
      of that batch; and every callback run so far. */
  datatype Trace = Trace(pending: set<Addr>, batch: seq<Entry>, ran: set<Addr>, now: Time, runs: seq<Run>)

  /** Holds at every point, also inside callbacks. */
  ghost predicate Coherent(heap: Heap, created: int, tree: seq<Entry>, active: set<TimerId>, trace: Trace) {
    match trace
    case Trace(pending, batch, ran, now, runs) =>
      Consistent(heap, created, tree, active, batch, pending) &&
      History(heap, created, runs, ran, now) &&
      (forall a :: a in ran ==> a in heap && InBatch(batch, a, heap[a])) &&
      (forall e :: e in batch ==> e.when <= now)
  }

  lemma NewGood(heap: Heap, created: int, tree: seq<Entry>, active: set<TimerId>, trace: Trace,
                addr: Addr, when: Time, interval: int)
    requires Coherent(heap, created, tree, active, trace) && addr !in heap
    ensures Coherent(heap[addr := Timer(when, interval, created)], created + 1, tree, active,
                 trace.(pending := trace.pending + {addr}))
  {
    NewKeeps(heap, created, tree, active, trace.batch, trace.pending, addr, when, interval);
    NewHistory(heap, created, trace.runs, trace.ran, trace.now, addr, when, interval);
  }

  lemma InsertGood(heap: Heap, created: int, tree: seq<Entry>, active: set<TimerId>, trace: Trace, addr: Addr)
    requires Coherent(heap, created, tree, active, trace) && addr in trace.pending
    ensures addr in heap && IdAt(heap, addr) !in active
    ensures Sorted(tree) && Entry(heap[addr].expiration, addr) !in tree
    ensures Coherent(heap, created, Insert(tree, Entry(heap[addr].expiration, addr)), active + {IdAt(heap, addr)},
                 trace.(pending := trace.pending - {addr}))
  {
    InsertKeeps(heap, created, tree, active, trace.batch, trace.pending, addr);
  }

  lemma CancelGood(heap: Heap, created: int, tree: seq<Entry>, active: set<TimerId>, trace: Trace, id: TimerId)
    requires Coherent(heap, created, tree, active, trace) && id in active
    ensures id.addr in heap && heap[id.addr].sequence == id.sequence
    ensures Sorted(tree) && Entry(heap[id.addr].expiration, id.addr) in tree
    ensures Coherent(heap - {id.addr}, created, Erase(tree, Entry(heap[id.addr].expiration, id.addr)), active - {id},
                     trace)
  {
    CancelKeeps(heap, created, tree, active, trace.batch, trace.pending, id);
    FreeHistory(heap, created, trace.runs, trace.ran, trace.now, id.addr);
    assert trace.ran - {id.addr} == trace.ran;
  }

  lemma StartGood(heap: Heap, created: int, tree: seq<Entry>, active: set<TimerId>, trace: Trace, now: Time)
    requires Coherent(heap, created, tree, active, trace) && trace.batch == []
    ensures Coherent(heap, created, tree, active, trace.(now := now))
  {
    assert trace.ran == {};
  }

  lemma ExpireGood(heap: Heap, created: int, tree: seq<Entry>, active: set<TimerId>, trace: Trace)
    requires Coherent(heap, created, tree, active, trace) && tree != [] && tree[0].when <= trace.now
    ensures tree[0].addr in heap && IdAt(heap, tree[0].addr) in active
    ensures Coherent(heap, created, tree[1..], active - {IdAt(heap, tree[0].addr)},
                     trace.(batch := trace.batch + [tree[0]]))
  {
    assert tree[0] in tree;
    ExpireOne(heap, created, tree, active, trace.batch, trace.pending);
    assert forall e :: e in trace.batch + [tree[0]] <==> e in trace.batch || e == tree[0];
  }

  /** The `i`-th of the entries of `tree` that are being expired. */
  lemma ExpireStep(heap: Heap, created: int, tree: seq<Entry>, active: set<TimerId>, trace: Trace, i: nat)
    requires i < |tree| && tree[i].when <= trace.now
    requires Coherent(heap, created, tree[i..], active, trace.(batch := tree[..i]))
    ensures tree[i].addr in heap
    ensures Coherent(heap, created, tree[i + 1..], active - {IdAt(heap, tree[i].addr)}, trace.(batch := tree[..i + 1]))
  {
    hide Coherent;
    ExpireGood(heap, created, tree[i..], active, trace.(batch := tree[..i]));
    assert tree[i..][1..] == tree[i + 1..] && tree[..i] + [tree[i]] == tree[..i + 1];
    assert trace.(batch := tree[..i]).(batch := tree[..i + 1]) == trace.(batch := tree[..i + 1]);
  }

  lemma RunGood(heap: Heap, created: int, tree: seq<Entry>, active: set<TimerId>, trace: Trace, addr: Addr)
    requires Coherent(heap, created, tree, active, trace) && addr !in trace.ran
    requires addr in heap && InBatch(trace.batch, addr, heap[addr])
    ensures Coherent(heap, created, tree, active,
                     trace.(ran := trace.ran + {addr},
                            runs := trace.runs + [Run(heap[addr].sequence, heap[addr].interval, trace.now)]))
  {
    RunHistory(heap, created, trace.runs, trace.ran, trace.now, addr);
  }

  /** Timers of the batch are live and not active. */
  lemma BatchLive(heap: Heap, created: int, tree: seq<Entry>, active: set<TimerId>, trace: Trace)
    requires Coherent(heap, created, tree, active, trace)
    ensures forall e :: e in trace.batch ==> e.addr in heap && IdAt(heap, e.addr) !in active && e.addr !in trace.pending
    ensures forall id :: id in active ==> id.addr in heap && IdAt(heap, id.addr) == id
    ensures forall i, j :: 0 <= i < j < |trace.batch| ==> trace.batch[i].addr != trace.batch[j].addr
    ensures trace.pending <= heap.Keys && RunsApart(trace.runs)
    ensures forall a :: a in heap ==> heap[a].sequence < created
  {
  }

  lemma EarliestLive(heap: Heap, created: int, tree: seq<Entry>, active: set<TimerId>, trace: Trace)
    requires Coherent(heap, created, tree, active, trace) && tree != []
    ensures tree[0].addr in heap && heap[tree[0].addr].expiration == tree[0].when
  {
    assert tree[0] in tree;
  }

  /** Earlier first; at the same time, the lower address first. */
  ghost predicate InOrder(entries: seq<Entry>) {
    forall i, j :: 0 <= i < j < |entries| ==>
      entries[i].when < entries[j].when || (entries[i].when == entries[j].when && entries[i].addr < entries[j].addr)
  }

  /** The first entries of the tree are those of the timers that are due. */
  lemma ActiveDue(heap: Heap, created: int, tree: seq<Entry>, active: set<TimerId>, trace: Trace, clock: Time)
    requires Coherent(heap, created, tree, active, trace)
    ensures Sorted(tree) && forall e :: e in tree ==> e.addr in heap && heap[e.addr].expiration == e.when
    ensures forall e :: e in tree[..Due(tree, clock)] ==> e.when <= clock
    ensures trace.batch == [] ==> trace.ran == {}
  {
    assert forall e :: e in tree[..Due(tree, clock)] ==> e in tree;
  }

  lemma FreeGood(heap: Heap, created: int, tree: seq<Entry>, active: set<TimerId>, trace: Trace)
    requires Coherent(heap, created, tree, active, trace) && trace.batch != []
    ensures Coherent(heap - {trace.batch[0].addr}, created, tree, active,
                     trace.(batch := trace.batch[1..], ran := trace.ran - {trace.batch[0].addr}))
  {
    var b, a := trace.batch, trace.batch[0].addr;
    FreeKeeps(heap, created, tree, active, b, trace.pending);
    FreeHistory(heap, created, trace.runs, trace.ran, trace.now, a);
    assert forall e :: e in b <==> e == b[0] || e in b[1..];
  }

  lemma RestartGood(heap: Heap, created: int, tree: seq<Entry>, active: set<TimerId>, trace: Trace)
    requires Coherent(heap, created, tree, active, trace) && trace.batch != []
    requires var a := trace.batch[0].addr; a in trace.ran && a in heap && heap[a].IsRepeated()
    ensures var a := trace.batch[0].addr;
      Coherent(heap[a := heap[a].Restart(trace.now)], created, tree, active,
               trace.(batch := trace.batch[1..], ran := trace.ran - {a}, pending := trace.pending + {a}))
  {
    var b, a := trace.batch, trace.batch[0].addr;
    RestartKeeps(heap, created, tree, active, b, trace.pending, heap[a].Restart(trace.now));
    RestartHistory(heap, created, trace.runs, trace.ran, trace.now, a);
    assert forall e :: e in b <==> e == b[0] || e in b[1..];
  }

  // ---------------------------------------------------------------- what the operations do, on values

  /** The timers that are live, the number of the next one, the ids that are active, those cancelled in vain during this
      batch, and the additions other threads have posted. */
  datatype View = View(heap: Heap, created: int, active: set<TimerId>, deleted: set<TimerId>, posted: seq<Addr>)

  /** A timer of another thread.  (The allocator never answers a live address.) */
  function Made(v: View, c: Creation): View {
    if c.addr in v.heap then v
    else v.(heap := v.heap[c.addr := Timer(c.when, c.interval, v.created)], created := v.created + 1,
            posted := v.posted + [c.addr])
  }

  /** What a callback does to the queue at once. */
  function Acted(v: View, action: Action): View {
    match action
    case Add(addr, when, interval, _) =>
      if addr in v.heap then v
      else v.(heap := v.heap[addr := Timer(when, interval, v.created)], created := v.created + 1,
              active := v.active + {TimerId(addr, v.created)})
    case Cancel(id) =>
      if id in v.active then v.(heap := v.heap - {id.addr}, active := v.active - {id})
      else v.(deleted := v.deleted + {id})
    case Elsewhere(c) => Made(v, c)
  }

  /** A timer of the batch is started again one interval after the batch, or freed. */
  function ResetAt(v: View, addr: Addr, clock: Time): View {
    if addr !in v.heap then v
    else
      var t := v.heap[addr];
      if t.interval > 0 && TimerId(addr, t.sequence) !in v.deleted then
        v.(heap := v.heap[addr := Timer(clock + t.interval, t.interval, t.sequence)],
           active := v.active + {TimerId(addr, t.sequence)})
      else v.(heap := v.heap - {addr})
  }

  function MadeAll(v: View, creations: seq<Creation>): View {
    if creations == [] then v
    else Made(MadeAll(v, creations[..|creations| - 1]), creations[|creations| - 1])
  }

  function ActedAll(v: View, actions: seq<Action>): View {
    if actions == [] then v
    else Acted(ActedAll(v, actions[..|actions| - 1]), actions[|actions| - 1])
  }

  /** The first `n` callbacks of a batch follow the script. */
  function Called(v: View, script: seq<seq<Action>>, n: nat): View {
    if n == 0 then v else ActedAll(Called(v, script, n - 1), if n <= |script| then script[n - 1] else [])
  }

  /** The first `n` timers of a batch are reset, each after other threads have made some. */
  function ResetAll(v: View, expired: seq<Entry>, n: nat, clock: Time, meanwhile: seq<seq<Creation>>): View
    requires n <= |expired|
  {
    if n == 0 then v
    else
      var before := ResetAll(v, expired, n - 1, clock, meanwhile);
      ResetAt(MadeAll(before, if n <= |meanwhile| then meanwhile[n - 1] else []), expired[n - 1].addr, clock)
  }

  /** Due timers are out of the active set, and nothing has been cancelled in vain yet. */
  ghost function Taken(v: View, due: seq<Entry>): View {
    var left := set id | id in v.active && (forall e :: e in due && e.addr in v.heap ==> IdAt(v.heap, e.addr) != id);
    v.(active := left, deleted := {})
  }

  // ---------------------------------------------------------------- the queue

  /** The callback of the `k`-th timer of a batch of `n` cancels `id`. */
  ghost predicate CancelledBy(script: seq<seq<Action>>, n: nat, id: TimerId) {
    exists k :: 0 <= k < n && k < |script| && Cancel(id) in script[k]
  }

  /** One run of each of the entries' timers, in order. */
  ghost function RunsOf(heap: Heap, entries: seq<Entry>, now: Time): seq<Run>
    requires forall e :: e in entries ==> e.addr in heap
  {
    seq(|entries|, i requires 0 <= i < |entries| =>
      assert entries[i] in entries;
      Run(heap[entries[i].addr].sequence, heap[entries[i].addr].interval, now))
  }

  lemma NothingYet(script: seq<seq<Action>>, heap: Heap, now: Time)
    ensures forall id :: !CancelledBy(script, 0, id)
    ensures RunsOf(heap, [], now) == []
  {
  }

  lemma CancelledStep(script: seq<seq<Action>>, i: nat)
    ensures forall id :: CancelledBy(script, i + 1, id) <==>
              CancelledBy(script, i, id) || Cancel(id) in if i < |script| then script[i] else []
  {
  }

  lemma CalledStep(v: View, script: seq<seq<Action>>, i: nat)
    ensures Called(v, script, 0) == v
    ensures Called(v, script, i + 1) == ActedAll(Called(v, script, i), if i < |script| then script[i] else [])
  {
  }

  lemma TakenIs(v: View, due: seq<Entry>, active: set<TimerId>)
    requires forall id :: id in active <==>
      id in v.active && forall e :: e in due && e.addr in v.heap ==> IdAt(v.heap, e.addr) != id
    ensures Taken(v, due) == v.(active := active, deleted := {})
  {
  }

  lemma ResetNone(v: View, expired: seq<Entry>, clock: Time, meanwhile: seq<seq<Creation>>)
    ensures ResetAll(v, expired, 0, clock, meanwhile) == v
  {
  }

  lemma ResetStep(v: View, expired: seq<Entry>, i: nat, clock: Time, meanwhile: seq<seq<Creation>>)
    requires i < |expired|
    ensures ResetAll(v, expired, i + 1, clock, meanwhile) ==
            ResetAt(MadeAll(ResetAll(v, expired, i, clock, meanwhile), if i < |meanwhile| then meanwhile[i] else []),
                    expired[i].addr, clock)
  {
  }

  lemma RunsStep(heap: Heap, entries: seq<Entry>, i: nat, now: Time)
    requires i < |entries| && forall e :: e in entries ==> e.addr in heap
    ensures entries[i].addr in heap && entries[..|entries|] == entries
    ensures RunsOf(heap, entries[..i + 1], now) ==
            RunsOf(heap, entries[..i], now) +
            [Run(heap[entries[i].addr].sequence, heap[entries[i].addr].interval, now)]
  {
    assert entries[i] in entries;
  }

  /** What can happen to the queue: a thread creates a timer; its addition, the oldest one posted, reaches the loop;
      a cancellation reaches the loop; time passes; the timerfd is handled, while callbacks follow a script and, before
      each reset, other threads create timers.  The clock is read once for the batch and once for the rearming. */
  datatype Event =
    | Create(creation: Creation)
    | AddPosted(clock: Time)
    | CancelPosted(id: TimerId)
    | Pass(clockNs: int)
    | Handle(clock: Time, script: seq<seq<Action>>, meanwhile: seq<seq<Creation>>, later: Time)

  /** `due` are the active timers whose time has come by `clock`, in order. */
  ghost predicate IsDue(v: View, clock: Time, due: seq<Entry>) {
    InOrder(due) && forall e :: e in due <==> IsActive(v, e) && e.when <= clock
  }

  predicate IsActive(v: View, e: Entry) {
    e.addr in v.heap && v.heap[e.addr].expiration == e.when && IdAt(v.heap, e.addr) in v.active
  }

  /** What an event makes of the queue. */
  ghost predicate Follows(v: View, event: Event, w: View) {
    match event
    case Create(c) => w == Made(v, c)
    case AddPosted(_) =>
      if v.posted == [] then w == v
      else
        var addr := v.posted[0];
        addr in v.heap && w == v.(posted := v.posted[1..], active := v.active + {IdAt(v.heap, addr)})
    case CancelPosted(id) =>
      w == if id in v.active then v.(heap := v.heap - {id.addr}, active := v.active - {id}) else v
    case Pass(_) => w == v
    case Handle(clock, script, meanwhile, _) => exists due :: Handled(v, clock, script, meanwhile, w, due)
  }

  ghost predicate Handled(v: View, clock: Time, script: seq<seq<Action>>, meanwhile: seq<seq<Creation>>, w: View,
                          due: seq<Entry>)
  {
    IsDue(v, clock, due) &&
    w == ResetAll(Called(Taken(v, due), script, |due|), due, |due|, clock, meanwhile)
  }

  lemma DueActive(v: View, tree: seq<Entry>, clock: Time, due: seq<Entry>)
    requires TreeOk(v.heap, tree, v.active)
    requires InOrder(due) && (forall e :: e in due ==> e in tree)
    requires forall e :: e in tree ==> (e in due <==> e.when <= clock)
    ensures IsDue(v, clock, due)
  {
  }

  /** The additions posted to the loop are those of the timers not yet added, each once. */
  ghost predicate PostedOnce(posted: seq<Addr>, pending: set<Addr>) {
    (forall a :: a in posted <==> a in pending) &&
    forall j, k :: 0 <= j < k < |posted| ==> posted[j] != posted[k]
  }

  class TimerQueue {
    var heap: Heap                  // the live Timer objects
    var created: int                // Timer::numsTimerCreated_
    var timerTree: seq<Entry>       // timer_tree_
    var activeTimers: set<TimerId>  // active_timers_
    var deletedTimers: set<TimerId> // deleted_timers_
    var calling: bool               // calling_expired_timers_
    var fd: TimerFd                 // timer_fd_
    var posted: seq<Addr>           // the addTimerInLoop functors queued in the loop
    ghost var trace: Trace

    /** Holds at every point, also inside callbacks. */
    ghost predicate Good()
      reads this
    {
      Coherent(heap, created, timerTree, activeTimers, trace)
    }

    /** Holds outside `HandleRead`. */
    ghost predicate Valid()
      reads this
    {
      Good() && PostedOnce(posted, trace.pending) && trace.batch == [] && !calling && ArmedEnough(timerTree, fd)
    }

    function Shown(): View
      reads this
    {
      View(heap, created, activeTimers, deletedTimers, posted)
    }

    /** Other threads may have posted additions; nothing posted was lost. */
    twostate predicate PostedMore()
      reads this
    {
      PostedOnce(posted, trace.pending) && old(posted) <= posted
    }

    constructor ()
      ensures Valid() && Shown() == View(map[], 0, {}, {}, []) && timerTree == [] && trace.runs == []
    {
      heap, created, timerTree, activeTimers, deletedTimers, calling, fd := map[], 0, [], {}, {}, false, Disarmed;
      trace := Trace({}, [], {}, 0, []);
      posted := [];
    }

    /** `new Timer` (first half of addTimer): the id combines the address with a number never used before. */
    method NewTimer(addr: Addr, when: Time, interval: int) returns (id: TimerId)
      requires Good() && addr !in heap
      modifies this`heap, this`created, this`trace
      ensures Good() && id == TimerId(addr, old(created)) && created == old(created) + 1
      ensures heap == old(heap)[addr := Timer(when, interval, id.sequence)]
      ensures trace == old(trace).(pending := old(trace.pending) + {addr})
    {
      hide Coherent;
      NewGood(heap, created, timerTree, activeTimers, trace, addr, when, interval);
      heap := heap[addr := Timer(when, interval, created)];
      id := TimerId(addr, created);
      created := created + 1;
      trace := trace.(pending := trace.pending + {addr});
    }

    /** Another thread makes a timer and posts its addition.  (The allocator never answers a live address.) */
    method CreateElsewhere(c: Creation)
      requires Good() && PostedOnce(posted, trace.pending)
      modifies this`heap, this`created, this`trace, this`posted
      ensures Good() && PostedMore() && trace == old(trace).(pending := trace.pending)
      ensures old(created) <= created && Shown() == Made(old(Shown()), c)
      ensures if c.addr in old(heap) then heap == old(heap) && posted == old(posted)
              else
                && heap == old(heap)[c.addr := Timer(c.when, c.interval, old(created))]
                && posted == old(posted) + [c.addr] && created == old(created) + 1
    {
      hide Coherent;
      BatchLive(heap, created, timerTree, activeTimers, trace);
      if c.addr !in heap {
        var id := NewTimer(c.addr, c.when, c.interval);
        posted := posted + [c.addr];
      }
    }

    /** `updateTimerfd`: a one-shot expiration, `Delay` nanoseconds from now. */
    method UpdateTimerFd(expiration: Time, clock: Time)
      modifies this`fd
      ensures fd == ArmedFor(expiration, clock)
      ensures fd.at == 1000 * expiration || fd.at == fd.setAt + 100
    {
      var interval := TimespecFromNow(expiration - clock);
      fd := Armed(1000 * clock + (interval.sec * SECOND_NS + interval.nsec), 1000 * clock);
    }

    /** `insertTimer`: into the tree and the active set; says whether the timer is now the earliest. */
    method InsertTimer(addr: Addr) returns (earliest: bool)
      requires Good() && addr in trace.pending
      modifies this`timerTree, this`activeTimers, this`trace
      ensures Good() && trace == old(trace).(pending := old(trace.pending) - {addr}) && addr in heap
      ensures IdAt(heap, addr) !in old(activeTimers) && activeTimers == old(activeTimers) + {IdAt(heap, addr)}
      ensures timerTree != [] && earliest == (old(timerTree) == [] || heap[addr].expiration < old(timerTree)[0].when)
      ensures timerTree[0].when == if earliest then heap[addr].expiration else old(timerTree)[0].when
      ensures forall e :: e in timerTree <==> e == Entry(heap[addr].expiration, addr) || e in old(timerTree)
    {
      hide Coherent;
      InsertGood(heap, created, timerTree, activeTimers, trace, addr);
      var entry := Entry(heap[addr].expiration, addr);
      earliest := timerTree == [] || entry.when < timerTree[0].when;
      timerTree := Insert(timerTree, entry);
      activeTimers := activeTimers + {IdAt(heap, addr)};
      trace := trace.(pending := trace.pending - {addr});
    }

    /** Second half of addTimer, in the loop thread. */
    method AddTimerInLoop(addr: Addr, clock: Time)
      requires Good() && addr in trace.pending
      modifies this`timerTree, this`activeTimers, this`trace, this`fd
      ensures Good() && trace == old(trace).(pending := old(trace.pending) - {addr}) && addr in heap
      ensures IdAt(heap, addr) !in old(activeTimers) && activeTimers == old(activeTimers) + {IdAt(heap, addr)}
      ensures old(ArmedEnough(timerTree, fd)) ==> ArmedEnough(timerTree, fd)
    {
      hide Coherent;
      var earliest := InsertTimer(addr);
      if earliest {
        UpdateTimerFd(heap[addr].expiration, clock);
      }
    }

    /** Takes an active timer out of the tree and the active set, and frees it. */
    method EraseTimer(id: TimerId)
      requires Good() && id in activeTimers
      modifies this`heap, this`timerTree, this`activeTimers
      ensures Good() && activeTimers == old(activeTimers) - {id} && heap == old(heap) - {id.addr}
      ensures id.addr in old(heap) && old(heap)[id.addr].sequence == id.sequence
      ensures timerTree != [] ==> old(timerTree) != [] && old(timerTree)[0].when <= timerTree[0].when
    {
      hide Coherent;
      CancelGood(heap, created, timerTree, activeTimers, trace, id);
      timerTree := Erase(timerTree, Entry(heap[id.addr].expiration, id.addr));
      activeTimers := activeTimers - {id};
      heap := heap - {id.addr};
    }

    /** A timer is freed only if it is active under exactly this id; an id that is stale, because the timer was
        freed or its address reused, removes nothing.  During a batch the id is remembered instead. */
    method DelTimerInLoop(id: TimerId)
      requires Good()
      modifies this`heap, this`timerTree, this`activeTimers, this`deletedTimers
      ensures Good() && activeTimers == old(activeTimers) - {id}
      ensures heap == if id in old(activeTimers) then old(heap) - {id.addr} else old(heap)
      ensures id in old(activeTimers) ==> id.addr in old(heap) && old(heap)[id.addr].sequence == id.sequence
      ensures deletedTimers ==
              if calling && id !in old(activeTimers) then old(deletedTimers) + {id} else old(deletedTimers)
      ensures old(ArmedEnough(timerTree, fd)) ==> ArmedEnough(timerTree, fd)
    {
      hide Coherent;
      if id in activeTimers {
        EraseTimer(id);
      } else if calling {
        deletedTimers := deletedTimers + {id};
      }
    }

    /** Erases the ids of expired timers, which are already out of the tree. */
    method EraseExpired(expired: seq<Entry>, ghost tree: seq<Entry>)
      requires expired <= tree && Coherent(heap, created, tree, activeTimers, trace) && trace.batch == []
      requires forall e :: e in expired ==> e.when <= trace.now
      modifies this`activeTimers, this`trace
      ensures Coherent(heap, created, tree[|expired|..], activeTimers, trace) && trace == old(trace).(batch := expired)
      ensures forall id: TimerId :: id in activeTimers <==>
        id in old(activeTimers) && forall e :: e in expired && e.addr in heap ==> IdAt(heap, e.addr) != id
    {
      hide Coherent;
      assert tree[0..] == tree && trace.(batch := tree[..0]) == trace;
      for i := 0 to |expired|
        invariant trace == old(trace) && Coherent(heap, created, tree[i..], activeTimers, trace.(batch := tree[..i]))
        invariant forall id: TimerId :: id in activeTimers <==>
          (id in old(activeTimers) &&
           forall k :: 0 <= k < i && expired[k].addr in heap ==> IdAt(heap, expired[k].addr) != id)
      {
        ExpireStep(heap, created, tree, activeTimers, trace, i);
        activeTimers := activeTimers - {IdAt(heap, expired[i].addr)};
      }
      assert tree[..|expired|] == expired;
      trace := trace.(batch := expired);
    }

    /** Takes all due timers out of the tree and the active set, in (time, address) order. */
    method GetExpired(clock: Time) returns (expired: seq<Entry>)
      requires Good() && trace.batch == []
      modifies this`timerTree, this`activeTimers, this`trace
      ensures Good() && trace == old(trace).(batch := expired, now := clock)
      ensures Sorted(old(timerTree)) && expired == old(timerTree)[..Due(old(timerTree), clock)]
      ensures timerTree == old(timerTree)[|expired|..] && InOrder(expired)
      ensures forall e :: e in old(timerTree) ==> (e in expired <==> e.when <= clock)
      ensures forall id: TimerId :: id in activeTimers <==>
        id in old(activeTimers) && forall e :: e in expired && e.addr in heap ==> IdAt(heap, e.addr) != id
    {
      StartGood(heap, created, timerTree, activeTimers, trace, clock);
      hide Coherent;
      var n := Due(timerTree, clock);
      ghost var tree := timerTree;
      expired := timerTree[..n];
      timerTree := timerTree[n..];
      trace := trace.(now := clock);
      EraseExpired(expired, tree);
    }

    /** The timers of the batch are untouched: the same objects at the same addresses, under the same ids. */
    twostate predicate BatchKept()
      reads this
    {
      trace == old(trace).(pending := trace.pending) &&
      forall e :: e in trace.batch ==> e.addr in heap && e.addr in old(heap) && heap[e.addr] == old(heap[e.addr])
    }

    /** An active timer is still active, and the same. */
    twostate predicate Kept(id: TimerId)
      reads this
    {
      id in activeTimers && id.addr in heap && id.addr in old(heap) && heap[id.addr] == old(heap[id.addr])
    }

    /** One thing a user callback does while a batch is being run.  Cancelling a timer of the batch, or any id that
        is not active, is remembered in `deletedTimers`. */
    method RunAction(action: Action)
      requires Good() && calling && PostedOnce(posted, trace.pending)
      modifies this`heap, this`created, this`timerTree, this`activeTimers, this`deletedTimers, this`fd, this`trace,
               this`posted
      ensures Good() && PostedMore() && BatchKept() && old(deletedTimers) <= deletedTimers
      ensures Shown() == Acted(old(Shown()), action)
      ensures forall id :: id in deletedTimers ==> id in old(deletedTimers) || Cancel(id) == action
      ensures forall e :: e in trace.batch && action == Cancel(IdAt(heap, e.addr)) ==>
        IdAt(heap, e.addr) in deletedTimers
      ensures forall id :: id in old(activeTimers) && action != Cancel(id) ==> Kept(id)
    {
      hide Coherent;
      BatchLive(heap, created, timerTree, activeTimers, trace);
      match action
      case Add(addr, when, interval, clock) =>
        if addr !in heap {  // the allocator never answers a live address
          var id := NewTimer(addr, when, interval);
          AddTimerInLoop(addr, clock);
        }
      case Cancel(id) =>
        DelTimerInLoop(id);
      case Elsewhere(creation) =>
        CreateElsewhere(creation);
    }

    /** A user callback: any additions and cancellations. */
    method RunCallback(actions: seq<Action>)
      requires Good() && calling && PostedOnce(posted, trace.pending)
      modifies this`heap, this`created, this`timerTree, this`activeTimers, this`deletedTimers, this`fd, this`trace,
               this`posted
      ensures Good() && PostedMore() && BatchKept() && old(deletedTimers) <= deletedTimers
      ensures Shown() == ActedAll(old(Shown()), actions)
      ensures forall id :: id in deletedTimers ==> id in old(deletedTimers) || Cancel(id) in actions
      ensures forall e :: e in trace.batch && Cancel(IdAt(heap, e.addr)) in actions ==>
        IdAt(heap, e.addr) in deletedTimers
      ensures forall id :: id in old(activeTimers) && Cancel(id) !in actions ==> Kept(id)
    {
      hide Coherent, Acted, PostedOnce;
      BatchLive(heap, created, timerTree, activeTimers, trace);
      for i := 0 to |actions|
        invariant Good() && PostedMore() && BatchKept() && old(deletedTimers) <= deletedTimers
        invariant Shown() == ActedAll(old(Shown()), actions[..i])
        invariant forall id :: id in deletedTimers ==> id in old(deletedTimers) || Cancel(id) in actions[..i]
        invariant forall e :: e in trace.batch && Cancel(IdAt(heap, e.addr)) in actions[..i] ==>
          IdAt(heap, e.addr) in deletedTimers
        invariant forall id :: id in old(activeTimers) && Cancel(id) !in actions[..i] ==> Kept(id)
      {
        assert actions[..i + 1][..i] == actions[..i];
        RunAction(actions[i]);
      }
      assert actions[..|actions|] == actions;
    }

    /** `entry.second->run()`: the timer is live; its callback acts on the queue. */
    method RunTimer(entry: Entry, actions: seq<Action>)
      requires Good() && calling && PostedOnce(posted, trace.pending)
      requires entry in trace.batch && entry.addr !in trace.ran
      modifies this`heap, this`created, this`timerTree, this`activeTimers, this`deletedTimers, this`fd, this`trace,
               this`posted
      ensures Good() && PostedMore() && entry.addr in old(heap) && old(deletedTimers) <= deletedTimers
      ensures Shown() == ActedAll(old(Shown()), actions)
      ensures var t := old(heap)[entry.addr];
        trace == old(trace).(pending := trace.pending, ran := old(trace.ran) + {entry.addr},
                             runs := old(trace.runs) + [Run(t.sequence, t.interval, trace.now)])
      ensures forall e :: e in trace.batch ==>
        e.addr in heap && e.addr in old(heap) && heap[e.addr] == old(heap[e.addr])
      ensures forall id :: id in deletedTimers ==> id in old(deletedTimers) || Cancel(id) in actions
      ensures forall e :: e in trace.batch && Cancel(IdAt(heap, e.addr)) in actions ==>
        IdAt(heap, e.addr) in deletedTimers
      ensures forall id :: id in old(activeTimers) && Cancel(id) !in actions ==> Kept(id)
    {
      BatchLive(heap, created, timerTree, activeTimers, trace);
      RunGood(heap, created, timerTree, activeTimers, trace, entry.addr);
      hide Coherent;
      trace := trace.(ran := trace.ran + {entry.addr},
                      runs := trace.runs + [Run(heap[entry.addr].sequence, heap[entry.addr].interval, trace.now)]);
      RunCallback(actions);
    }

    /** Runs the callbacks of the batch in order, each exactly once, whatever they cancel. */
    method RunBatch(expired: seq<Entry>, script: seq<seq<Action>>)
      requires Good() && calling && PostedOnce(posted, trace.pending)
      requires deletedTimers == {} && trace.batch == expired && trace.ran == {}
      modifies this`heap, this`created, this`timerTree, this`activeTimers, this`deletedTimers, this`fd, this`trace,
               this`posted
      ensures Good() && PostedMore() && Shown() == Called(old(Shown()), script, |expired|)
      ensures trace == old(trace).(pending := trace.pending, ran := trace.ran, runs := trace.runs)
      ensures forall e :: e in expired ==>
        e.addr in trace.ran && e.addr in heap && e.addr in old(heap) && heap[e.addr] == old(heap[e.addr])
      ensures trace.runs == old(trace.runs) + RunsOf(old(heap), expired, trace.now)
      ensures forall e :: e in expired ==>
        (IdAt(heap, e.addr) in deletedTimers <==> CancelledBy(script, |expired|, IdAt(heap, e.addr)))
      ensures forall id :: id in old(activeTimers) && !CancelledBy(script, |expired|, id) ==> Kept(id)
    {
      hide Coherent, CancelledBy, RunsOf, PostedOnce, Called, ActedAll;
      BatchLive(heap, created, timerTree, activeTimers, trace);
      NothingYet(script, old(heap), trace.now);
      CalledStep(old(Shown()), script, 0);
      for i := 0 to |expired|
        invariant Good() && PostedMore() && Shown() == Called(old(Shown()), script, i)
        invariant trace == old(trace).(pending := trace.pending, ran := trace.ran, runs := trace.runs)
        invariant forall e :: e in expired ==>
          e.addr in heap && e.addr in old(heap) && heap[e.addr] == old(heap[e.addr])
        invariant forall k :: 0 <= k < |expired| ==> (expired[k].addr in trace.ran <==> k < i)
        invariant trace.runs == old(trace.runs) + RunsOf(old(heap), expired[..i], trace.now)
        invariant forall id :: id in deletedTimers ==> CancelledBy(script, i, id)
        invariant forall e :: e in expired && CancelledBy(script, i, IdAt(heap, e.addr)) ==>
          IdAt(heap, e.addr) in deletedTimers
        invariant forall id :: id in old(activeTimers) && !CancelledBy(script, i, id) ==> Kept(id)
      {
        CancelledStep(script, i);
        CalledStep(old(Shown()), script, i);
        RunsStep(old(heap), expired, i, trace.now);
        RunTimer(expired[i], if i < |script| then script[i] else []);
      }
      assert expired[..|expired|] == expired;
    }

    /** What the reset makes of a timer `t` of the batch: a repeating timer that was not cancelled is active again,
        one interval after the batch, with its interval and number; every other one is freed, and its id names no live
        timer, even if another thread has been given its address since. */
    predicate IsReset(id: TimerId, t: Timer, clock: Time)
      reads this
    {
      if t.interval > 0 && id !in deletedTimers then
        && id in activeTimers && Entry(clock + t.interval, id.addr) in timerTree
        && id.addr in heap && heap[id.addr] == Timer(clock + t.interval, t.interval, t.sequence)
      else
        id !in activeTimers && !(id.addr in heap && heap[id.addr].sequence == id.sequence) && id.sequence < created
    }

    /** Restarts or frees the first timer of what is left of the batch. */
    method ResetOne(entry: Entry, clock: Time)
      requires Good() && clock == trace.now && trace.batch != [] && entry == trace.batch[0] && entry.addr in trace.ran
      modifies this`heap, this`timerTree, this`activeTimers, this`trace
      ensures Good() && trace == old(trace).(batch := old(trace.batch)[1..], ran := old(trace.ran) - {entry.addr})
      ensures entry.addr in old(heap) && IsReset(IdAt(old(heap), entry.addr), old(heap)[entry.addr], clock)
      ensures Shown() == ResetAt(old(Shown()), entry.addr, clock) && forall e :: e in old(timerTree) ==> e in timerTree
      ensures forall a :: a != entry.addr ==> (a in heap <==> a in old(heap)) && (a in heap ==> heap[a] == old(heap)[a])
      ensures forall id: TimerId :: id.addr != entry.addr ==> (id in activeTimers <==> id in old(activeTimers))
    {
      hide Coherent;
      BatchLive(heap, created, timerTree, activeTimers, trace);
      var id := IdAt(heap, entry.addr);
      if heap[entry.addr].IsRepeated() && id !in deletedTimers {
        RestartGood(heap, created, timerTree, activeTimers, trace);
        heap := heap[entry.addr := heap[entry.addr].Restart(clock)];
        trace := trace.(batch := trace.batch[1..], ran := trace.ran - {entry.addr},
                        pending := trace.pending + {entry.addr});
        var earliest := InsertTimer(entry.addr);
      } else {
        FreeGood(heap, created, timerTree, activeTimers, trace);
        heap := heap - {entry.addr};
        trace := trace.(batch := trace.batch[1..], ran := trace.ran - {entry.addr});
      }
    }

    /** Before one timer is reset other threads create some. */
    method ResetNext(entry: Entry, clock: Time, creations: seq<Creation>)
      requires Good() && PostedOnce(posted, trace.pending) && clock == trace.now
      requires trace.batch != [] && entry == trace.batch[0] && entry.addr in trace.ran
      modifies this`heap, this`created, this`timerTree, this`activeTimers, this`trace, this`posted
      ensures Good() && PostedMore() && old(created) <= created
      ensures trace == old(trace).(pending := trace.pending, batch := old(trace.batch)[1..],
                                   ran := old(trace.ran) - {entry.addr})
      ensures entry.addr in old(heap) && IsReset(IdAt(old(heap), entry.addr), old(heap)[entry.addr], clock)
      ensures Shown() == ResetAt(MadeAll(old(Shown()), creations), entry.addr, clock)
      ensures forall e :: e in old(timerTree) ==> e in timerTree
      ensures forall a :: a in old(heap) && a != entry.addr ==> a in heap && heap[a] == old(heap)[a]
      ensures forall a :: a in heap && a !in old(heap) ==> old(created) <= heap[a].sequence
      ensures forall id: TimerId :: id.addr != entry.addr ==> (id in activeTimers <==> id in old(activeTimers))
    {
      hide Coherent, PostedOnce, IsReset, ResetAt, MadeAll;
      BatchLive(heap, created, timerTree, activeTimers, trace);
      CreateAll(creations);
      ResetOne(entry, clock);
    }

    /** Restarts or frees every timer of the batch, and rearms the timerfd for the earliest timer left. */
    method ResetTimer(expired: seq<Entry>, clock: Time, meanwhile: seq<seq<Creation>>, later: Time)
      requires Good() && PostedOnce(posted, trace.pending) && trace.batch == expired && clock == trace.now
      requires forall e :: e in expired ==> e.addr in trace.ran
      modifies this`heap, this`created, this`timerTree, this`activeTimers, this`fd, this`trace, this`posted
      ensures Good() && PostedMore() && ArmedEnough(timerTree, fd)
      ensures Shown() == ResetAll(old(Shown()), expired, |expired|, clock, meanwhile)
      ensures fd == if timerTree == [] then old(fd) else ArmedFor(timerTree[0].when, later)
      ensures trace == old(trace).(pending := trace.pending, batch := [], ran := trace.ran)
      ensures forall e :: e in expired ==>
        e.addr in old(heap) && IsReset(IdAt(old(heap), e.addr), old(heap)[e.addr], clock)
      ensures forall id :: id in old(activeTimers) ==> Kept(id)
    {
      hide Coherent, PostedOnce, ArmedEnough, ResetAt, MadeAll, ResetAll, ArmedFor;
      BatchLive(heap, created, timerTree, activeTimers, trace);
      ResetNone(old(Shown()), expired, clock, meanwhile);
      for i := 0 to |expired|
        invariant Good() && PostedMore() && fd == old(fd)
        invariant Shown() == ResetAll(old(Shown()), expired, i, clock, meanwhile)
        invariant trace.batch == expired[i..] && trace.now == clock && trace.runs == old(trace.runs)
        invariant forall k :: i <= k < |expired| ==> expired[k].addr in trace.ran
        invariant forall k :: i <= k < |expired| ==>
          expired[k].addr in heap && heap[expired[k].addr] == old(heap)[expired[k].addr]
        invariant forall k :: 0 <= k < i ==>
          IsReset(IdAt(old(heap), expired[k].addr), old(heap)[expired[k].addr], clock)
        invariant forall id :: id in old(activeTimers) ==> Kept(id)
      {
        assert expired[i..][0] == expired[i] && expired[i..][1..] == expired[i + 1..];
        ResetStep(old(Shown()), expired, i, clock, meanwhile);
        ResetNext(expired[i], clock, if i < |meanwhile| then meanwhile[i] else []);
      }
      assert forall e :: e in expired ==> exists k :: 0 <= k < |expired| && expired[k] == e;
      Rearm(later);
    }

    /** For the earliest timer, if there is one. */
    method Rearm(clock: Time)
      requires Good()
      modifies this`fd
      ensures ArmedEnough(timerTree, fd)
      ensures fd == if timerTree == [] then old(fd) else ArmedFor(timerTree[0].when, clock)
    {
      hide Coherent;
      if timerTree != [] {
        EarliestLive(heap, created, timerTree, activeTimers, trace);
        UpdateTimerFd(heap[timerTree[0].addr].expiration, clock);
      }
    }

    /** Other threads make timers while the loop's thread is at work.  What is live stays live. */
    method CreateAll(creations: seq<Creation>)
      requires Good() && PostedOnce(posted, trace.pending)
      modifies this`heap, this`created, this`trace, this`posted
      ensures Good() && PostedMore() && trace == old(trace).(pending := trace.pending)
      ensures old(created) <= created && Shown() == MadeAll(old(Shown()), creations)
      ensures forall a :: a in old(heap) ==> a in heap && heap[a] == old(heap)[a]
      ensures forall a :: a in heap && a !in old(heap) ==> old(created) <= heap[a].sequence
    {
      hide Coherent;
      for i := 0 to |creations|
        invariant Good() && PostedMore() && trace == old(trace).(pending := trace.pending)
        invariant old(created) <= created && Shown() == MadeAll(old(Shown()), creations[..i])
        invariant forall a :: a in old(heap) ==> a in heap && heap[a] == old(heap)[a]
        invariant forall a :: a in heap && a !in old(heap) ==> old(created) <= heap[a].sequence
      {
        assert creations[..i + 1][..i] == creations[..i];
        CreateElsewhere(creations[i]);
      }
      assert creations[..|creations|] == creations;
    }

    /** Runs the callbacks of a batch that is out of the tree, then resets it. */
    method RunAndReset(expired: seq<Entry>, clock: Time, script: seq<seq<Action>>, meanwhile: seq<seq<Creation>>,
                       later: Time)
      requires Good() && PostedOnce(posted, trace.pending) && !calling
      requires trace.batch == expired && trace.ran == {} && clock == trace.now
      modifies this
      ensures Good() && PostedMore() && !calling && ArmedEnough(timerTree, fd) && trace.batch == []
      ensures Shown() == ResetAll(Called(old(Shown()).(deleted := {}), script, |expired|), expired, |expired|, clock,
                                  meanwhile)
      ensures timerTree != [] ==> fd == ArmedFor(timerTree[0].when, later)
      ensures forall e :: e in expired ==> e.addr in old(heap)
      ensures trace.runs == old(trace.runs) + RunsOf(old(heap), expired, clock)
      ensures forall e :: e in expired ==> var id := IdAt(old(heap), e.addr);
        IsReset(id, old(heap)[e.addr], clock) && (id in deletedTimers <==> CancelledBy(script, |expired|, id))
      ensures forall id :: id in old(activeTimers) && !CancelledBy(script, |expired|, id) ==> Kept(id)
    {
      hide Coherent, Called, ResetAll;
      BatchLive(heap, created, timerTree, activeTimers, trace);
      calling := true;
      deletedTimers := {};
      RunBatch(expired, script);
      calling := false;
      BatchLive(heap, created, timerTree, activeTimers, trace);
      ResetTimer(expired, clock, meanwhile, later);
    }

    /** One readiness of the timerfd: runs exactly the timers that are due, once each, in (time, address) order;
        restarts the repeating ones that were not cancelled meanwhile, frees the others; leaves every other timer
        that no callback cancelled as it was; and rearms the timerfd. */
    method HandleRead(clock: Time, script: seq<seq<Action>>, meanwhile: seq<seq<Creation>>, later: Time)
      requires Valid()
      modifies this
      ensures Valid() && Sorted(old(timerTree)) && old(posted) <= posted
      ensures timerTree != [] ==> fd == ArmedFor(timerTree[0].when, later)
      ensures var due := old(timerTree)[..Due(old(timerTree), clock)];
        && InOrder(due) && (forall e :: e in old(timerTree) ==> (e in due <==> e.when <= clock))
        && Shown() == ResetAll(Called(Taken(old(Shown()), due), script, |due|), due, |due|, clock, meanwhile)
      ensures var due := old(timerTree)[..Due(old(timerTree), clock)];
        (forall e :: e in due ==> e.addr in old(heap)) &&
        trace.runs == old(trace.runs) + RunsOf(old(heap), due, clock) &&
        forall e :: e in due ==> var id := IdAt(old(heap), e.addr);
          IsReset(id, old(heap)[e.addr], clock) && (id in deletedTimers <==> CancelledBy(script, |due|, id))
      ensures forall id :: id in old(activeTimers) && id.addr in old(heap) && old(heap)[id.addr].expiration > clock ==>
        CancelledBy(script, Due(old(timerTree), clock), id) || Kept(id)
    {
      hide Coherent, Called, ResetAll, InOrder, Taken;
      ActiveDue(heap, created, timerTree, activeTimers, trace, clock);
      if fd.Fired? {
        fd := Disarmed;  // the read; it fails if an addition rearmed the timerfd meanwhile
      }
      var expired := GetExpired(clock);
      TakenIs(old(Shown()), expired, activeTimers);
      RunAndReset(expired, clock, script, meanwhile, later);
    }

    /** The kernel: an armed timerfd whose time has come becomes readable. */
    method Tick(clockNs: int)
      requires Valid()
      modifies this`fd
      ensures Valid() && fd == if old(fd).Armed? && old(fd).at <= clockNs then Fired else old(fd)
    {
      if fd.Armed? && fd.at <= clockNs {
        fd := Fired;
      }
    }

    /** One event, from any valid state. */
    method Happen(event: Event)
      requires Valid()
      modifies this
      ensures Valid() && Follows(old(Shown()), event, Shown())
      ensures event.Pass? ==> fd == if old(fd).Armed? && old(fd).at <= event.clockNs then Fired else old(fd)
    {
      hide Coherent, Called, ResetAll, Taken, InOrder, IsDue;
      match event
      case Create(creation) => CreateElsewhere(creation);
      case AddPosted(clock) =>
        if posted != [] {
          var addr := posted[0];
          posted := posted[1..];
          AddTimerInLoop(addr, clock);
        }
      case CancelPosted(id) => DelTimerInLoop(id);
      case Pass(clockNs) => Tick(clockNs);
      case Handle(clock, script, meanwhile, later) =>
        ghost var v, tree := Shown(), timerTree;
        TreeActive();
        HandleRead(clock, script, meanwhile, later);
        ghost var due := tree[..Due(tree, clock)];
        DueActive(v, tree, clock, due);
        assert Handled(v, clock, script, meanwhile, Shown(), due);
    }

    lemma TreeActive()
      requires Good()
      ensures TreeOk(heap, timerTree, activeTimers)
    {
    }

    /** Every run: whatever threads, the kernel and callbacks do, each event has exactly its effect, the queue stays
        valid (no timer is lost, freed twice or used after it is freed, the timerfd is armed early enough), a one-shot
        timer runs at most once, and two runs of a repeating timer are at least its interval apart. */
    method Loop(events: seq<Event>) returns (ghost views: seq<View>)
      requires Valid()
      modifies this
      ensures Valid() && RunsApart(trace.runs)
      ensures |views| == |events| + 1 && views[0] == old(Shown()) && views[|events|] == Shown()
      ensures forall i :: 0 <= i < |events| ==> Follows(views[i], events[i], views[i + 1])
    {
      hide Coherent, Follows;
      views := [Shown()];
      for i := 0 to |events|
        invariant Valid() && |views| == i + 1 && views[0] == old(Shown()) && views[i] == Shown()
        invariant forall j :: 0 <= j < i ==> Follows(views[j], events[j], views[j + 1])
      {
        Happen(events[i]);
        views := views + [Shown()];
      }
      BatchLive(heap, created, timerTree, activeTimers, trace);
    }
  }
}

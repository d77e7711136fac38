/** The asynchronous logger's multi-producer, single-consumer line queue (util/LogBufferQueue.cpp),
    as a state machine whose steps are the atomic accesses of the source.

    Producers take a ticket with `write_index_.fetch_add`, construct the line in their slot, publish the
    slot's flag and count it; whoever counts the last slot rotates in the next buffer.  The consumer reads
    slots in order, retires a buffer it has read completely, and offers it to the recycling ring.

    `Config.clears` selects what `LogBuffer::pop` does with the flag of a slot it has consumed:
    `false` is the code as written (util/LogBufferQueue.cpp:59-66, the flag stays set), `true` is the form the
    comment at util/LogBufferQueue.cpp:51-52 asks for (a buffer that is reused is reset). */
module LogBufferQueue {
  import opened Util

  type Line = string

  /** `slots` is `LogBuffer::kSize`, any positive number here. */
  datatype Config = Config(slots: nat, clears: bool)

  /** The capacity of `RingQueue<4> backup_log_buffers_`. */
  const RING_SIZE: nat := 4

  /** `flags` and `count` are `write_states_[0..kSize]` and `write_states_[kSize]`. */
  datatype LogBuffer = LogBuffer(flags: seq<bool>, items: seq<Line>, count: nat)

  function EmptyBuffer(cfg: Config): LogBuffer {
    LogBuffer(seq(cfg.slots, _ => false), seq(cfg.slots, _ => ""), 0)
  }

  /** Where a producer thread stands inside `LogBufferQueue::push`. */
  datatype Producer =
    | Idle
    | Calling(line: Line)                      // about to fetch_add write_index_
    | Spinning(line: Line)                     // its ticket was too large
    | Claimed(line: Line, slot: nat)           // about to load current_write_buffer_
    | Holding(line: Line, buf: nat, slot: nat) // about to construct the item
    | Constructed(buf: nat, slot: nat)         // about to store the slot's flag
    | Published(buf: nat, slot: nat)           // about to count the slot
    | Last(buf: nat)                           // counted the last slot, about to reset the count
    | Rotating                                 // about to take a buffer from the ring or the allocator
    | Storing(next: nat)                       // about to store current_write_buffer_
    | Linking(next: nat)                       // about to lock flag_ and push into log_buffers_
    | Reopening                                // holds flag_, about to store 0 into write_index_

  /** Where the consumer stands inside `LogBufferQueue::pop`; a call starts and ends in `Ready`. */
  datatype Reader = Ready | Seen | Moved | Retiring | Recycling(buf: nat)

  /** Auxiliary history, written by the steps and read by none of them.
      `pend[k]` holds the lines whose tickets fall into `queue[k]`, `base` those of the retired buffers;
      `owner[i]` is the producer that took ticket `i` of the current generation, `unset` the claimed slots whose
      flag is not stored yet, `counted` the slots counted, `rotator` the producer that is rotating (or -1). */
  datatype History = History(base: seq<Line>, pend: seq<seq<Line>>, owner: seq<nat>, unset: set<nat>,
                             counted: set<nat>, rotator: int)

  /** Buffers are named by their index in `bufs`.  `tickets` lists the lines in the order of their successful
      `fetch_add`, `popped` the lines handed to the consumer. */
  datatype State = State(
    bufs: seq<LogBuffer>,
    queue: seq<nat>,
    current: nat,
    writeIndex: nat,
    locked: bool,
    ring: seq<nat>,
    producers: seq<Producer>,
    reader: Reader,
    readBuffer: Option<nat>,
    readIndex: nat,
    tickets: seq<Line>,
    popped: seq<Line>,
    h: History)

  /** The constructor has already called `setupNextWriteLogBuffer` once. */
  function Init(cfg: Config, threads: nat): State {
    State([EmptyBuffer(cfg)], [0], 0, 0, false, [], seq(threads, _ => Idle), Ready, None, 0, [], [],
          History([], [[]], [], {}, {}, -1))
  }

  datatype Step =
    | Call(p: nat, line: Line)
    | TakeTicket(p: nat)
    | SpinExit(p: nat)
    | LoadCurrent(p: nat)
    | Construct(p: nat)
    | Publish(p: nat)
    | Count(p: nat)
    | ResetCount(p: nat)
    | PickBuffer(p: nat)
    | StoreCurrent(p: nat)
    | Link(p: nat)
    | Reopen(p: nat)
    | FetchFront
    | CheckFlag
    | MoveItem
    | Advance
    | Retire
    | Recycle

  predicate IsReaderStep(step: Step) {
    step.FetchFront? || step.CheckFlag? || step.MoveItem? || step.Advance? || step.Retire? || step.Recycle?
  }

  predicate Enabled(cfg: Config, s: State, step: Step) {
    if IsReaderStep(step) then
      match step
      case FetchFront => s.reader.Ready? && s.readBuffer.None? && !s.locked
      case CheckFlag => s.reader.Ready? && s.readBuffer.Some? && InBuffer(s, s.readBuffer.value, s.readIndex)
      case MoveItem => s.reader.Seen? && s.readBuffer.Some? && InBuffer(s, s.readBuffer.value, s.readIndex)
      case Advance => s.reader.Moved? && s.readBuffer.Some? && InBuffer(s, s.readBuffer.value, s.readIndex)
      case Retire => s.reader.Retiring? && !s.locked && s.queue != []
      case _ => s.reader.Recycling?
    else
      step.p < |s.producers| &&
      var pc := s.producers[step.p];
      match step
      case Call(_, _) => pc.Idle?
      case TakeTicket(_) => pc.Calling?
      case SpinExit(_) => pc.Spinning? && s.writeIndex < cfg.slots
      case LoadCurrent(_) => pc.Claimed?
      case Construct(_) => pc.Holding? && InBuffer(s, pc.buf, pc.slot)
      case Publish(_) => pc.Constructed? && InBuffer(s, pc.buf, pc.slot)
      case Count(_) => pc.Published? && pc.buf < |s.bufs|
      case ResetCount(_) => pc.Last? && pc.buf < |s.bufs|
      case PickBuffer(_) => pc.Rotating?
      case StoreCurrent(_) => pc.Storing?
      case Link(_) => pc.Linking? && !s.locked
      case _ => pc.Reopening?
  }

  predicate InBuffer(s: State, b: nat, slot: nat) {
    b < |s.bufs| && slot < |s.bufs[b].flags| && slot < |s.bufs[b].items|
  }

  function Next(cfg: Config, s: State, step: Step): State
    requires Enabled(cfg, s, step)
  {
    match step
    case FetchFront => DoFetchFront(s)
    case CheckFlag => DoCheckFlag(s)
    case MoveItem => DoMoveItem(s)
    case Advance => DoAdvance(cfg, s)
    case Retire => DoRetire(s)
    case Recycle => DoRecycle(s)
    case Call(p, line) => At(s, p, Calling(line))
    case TakeTicket(p) => if s.writeIndex < cfg.slots then DoClaim(s, p) else DoMiss(s, p)
    case SpinExit(p) => At(s, p, Calling(s.producers[p].line))
    case LoadCurrent(p) => DoLoadCurrent(s, p)
    case Construct(p) => DoConstruct(s, p)
    case Publish(p) => DoPublish(s, p)
    case Count(p) => DoCount(cfg, s, p)
    case ResetCount(p) => DoResetCount(s, p)
    case PickBuffer(p) => if s.ring != [] then DoReuse(s, p) else DoAllocate(cfg, s, p)
    case StoreCurrent(p) => DoStoreCurrent(s, p)
    case Link(p) => DoLink(s, p)
    case Reopen(p) => DoReopen(s, p)
  }

  function At(s: State, p: nat, pc: Producer): State
    requires p < |s.producers|
  {
    s.(producers := s.producers[p := pc])
  }

  // ---------------------------------------------------------------- LogBufferQueue::push

  function Front(pend: seq<seq<Line>>): seq<Line> {
    if pend == [] then [] else pend[0]
  }

  function Rest(pend: seq<seq<Line>>): seq<seq<Line>> {
    if pend == [] then [] else pend[1..]
  }

  function ExtendLast(pend: seq<seq<Line>>, line: Line): seq<seq<Line>> {
    if pend == [] then [] else pend[..|pend| - 1] + [pend[|pend| - 1] + [line]]
  }

  /** `fetch_add` hands out an index below kSize: the ticket is a slot. */
  function DoClaim(s: State, p: nat): State
    requires p < |s.producers| && s.producers[p].Calling?
  {
    var line := s.producers[p].line;
    s.(writeIndex := s.writeIndex + 1,
       producers := s.producers[p := Claimed(line, s.writeIndex)],
       tickets := s.tickets + [line],
       h := s.h.(owner := s.h.owner + [p], unset := s.h.unset + {s.writeIndex}, pend := ExtendLast(s.h.pend, line)))
  }

  /** `fetch_add` hands out an index that is too large: spin until the write index is reset. */
  function DoMiss(s: State, p: nat): State
    requires p < |s.producers| && s.producers[p].Calling?
  {
    s.(writeIndex := s.writeIndex + 1, producers := s.producers[p := Spinning(s.producers[p].line)])
  }

  function DoLoadCurrent(s: State, p: nat): State
    requires p < |s.producers| && s.producers[p].Claimed?
  {
    At(s, p, Holding(s.producers[p].line, s.current, s.producers[p].slot))
  }

  function DoConstruct(s: State, p: nat): State
    requires p < |s.producers| && s.producers[p].Holding? && InBuffer(s, s.producers[p].buf, s.producers[p].slot)
  {
    var pc := s.producers[p];
    var b := s.bufs[pc.buf];
    s.(bufs := s.bufs[pc.buf := b.(items := b.items[pc.slot := pc.line])],
       producers := s.producers[p := Constructed(pc.buf, pc.slot)])
  }

  function DoPublish(s: State, p: nat): State
    requires p < |s.producers| && s.producers[p].Constructed? && InBuffer(s, s.producers[p].buf, s.producers[p].slot)
  {
    var pc := s.producers[p];
    var b := s.bufs[pc.buf];
    s.(bufs := s.bufs[pc.buf := b.(flags := b.flags[pc.slot := true])],
       producers := s.producers[p := Published(pc.buf, pc.slot)],
       h := s.h.(unset := s.h.unset - {pc.slot}))
  }

  /** Counts the slot; the producer that counts the kSize-th one becomes the rotator. */
  function DoCount(cfg: Config, s: State, p: nat): State
    requires p < |s.producers| && s.producers[p].Published? && s.producers[p].buf < |s.bufs|
  {
    var pc := s.producers[p];
    var b := s.bufs[pc.buf];
    var full := b.count + 1 == cfg.slots;
    s.(bufs := s.bufs[pc.buf := b.(count := b.count + 1)],
       producers := s.producers[p := if full then Last(pc.buf) else Idle],
       h := s.h.(counted := s.h.counted + {pc.slot}, rotator := if full then p else s.h.rotator))
  }

  function DoResetCount(s: State, p: nat): State
    requires p < |s.producers| && s.producers[p].Last? && s.producers[p].buf < |s.bufs|
  {
    var b := s.producers[p].buf;
    s.(bufs := s.bufs[b := s.bufs[b].(count := 0)], producers := s.producers[p := Rotating])
  }

  // ---------------------------------------------------------------- setupNextWriteLogBuffer

  function DoReuse(s: State, p: nat): State
    requires p < |s.producers| && s.ring != []
  {
    s.(ring := s.ring[1..], producers := s.producers[p := Storing(s.ring[0])],
       h := s.h.(owner := [], unset := {}, counted := {}))
  }

  function DoAllocate(cfg: Config, s: State, p: nat): State
    requires p < |s.producers|
  {
    s.(bufs := s.bufs + [EmptyBuffer(cfg)], producers := s.producers[p := Storing(|s.bufs|)],
       h := s.h.(owner := [], unset := {}, counted := {}))
  }

  function DoStoreCurrent(s: State, p: nat): State
    requires p < |s.producers| && s.producers[p].Storing?
  {
    s.(current := s.producers[p].next, producers := s.producers[p := Linking(s.producers[p].next)])
  }

  function DoLink(s: State, p: nat): State
    requires p < |s.producers| && s.producers[p].Linking?
  {
    s.(queue := s.queue + [s.producers[p].next], locked := true, producers := s.producers[p := Reopening],
       h := s.h.(pend := s.h.pend + [[]]))
  }

  function DoReopen(s: State, p: nat): State
    requires p < |s.producers|
  {
    s.(writeIndex := 0, locked := false, producers := s.producers[p := Idle], h := s.h.(rotator := -1))
  }

  // ---------------------------------------------------------------- LogBufferQueue::pop

  function DoFetchFront(s: State): State {
    if s.queue == [] then s else s.(readBuffer := Some(s.queue[0]))
  }

  function DoCheckFlag(s: State): State
    requires s.readBuffer.Some? && InBuffer(s, s.readBuffer.value, s.readIndex)
  {
    if s.bufs[s.readBuffer.value].flags[s.readIndex] then s.(reader := Seen) else s
  }

  function DoMoveItem(s: State): State
    requires s.readBuffer.Some? && InBuffer(s, s.readBuffer.value, s.readIndex)
  {
    s.(reader := Moved, popped := s.popped + [s.bufs[s.readBuffer.value].items[s.readIndex]])
  }

  /** Only the repaired form clears the flag of the consumed slot. */
  function DoAdvance(cfg: Config, s: State): State
    requires s.readBuffer.Some? && InBuffer(s, s.readBuffer.value, s.readIndex)
  {
    var b := s.bufs[s.readBuffer.value];
    var bufs := if cfg.clears then s.bufs[s.readBuffer.value := b.(flags := b.flags[s.readIndex := false])] else s.bufs;
    if s.readIndex + 1 == cfg.slots then
      s.(bufs := bufs, readIndex := 0, readBuffer := None, reader := Retiring)
    else
      s.(bufs := bufs, readIndex := s.readIndex + 1, reader := Ready)
  }

  function DoRetire(s: State): State
    requires s.queue != []
  {
    s.(reader := Recycling(s.queue[0]), queue := s.queue[1..],
       h := s.h.(base := s.h.base + Front(s.h.pend), pend := Rest(s.h.pend)))
  }

  /** A full ring refuses the buffer, which is then dropped. */
  function DoRecycle(s: State): State
    requires s.reader.Recycling?
  {
    s.(reader := Ready, ring := if |s.ring| < RING_SIZE then s.ring + [s.reader.buf] else s.ring)
  }

  // ---------------------------------------------------------------- runs

  /** `steps` is a run of the machine from `s`. */
  predicate IsRun(cfg: Config, s: State, steps: seq<Step>)
    decreases |steps|
  {
    steps == [] || (Enabled(cfg, s, steps[0]) && IsRun(cfg, Next(cfg, s, steps[0]), steps[1..]))
  }

  function Exec(cfg: Config, s: State, steps: seq<Step>): State
    requires IsRun(cfg, s, steps)
    decreases |steps|
  {
    if steps == [] then s else Exec(cfg, Next(cfg, s, steps[0]), steps[1..])
  }

  /** The step takes a buffer out of the recycling ring. */
  predicate Reuses(s: State, step: Step) {
    step.PickBuffer? && s.ring != []
  }

  /** No step of the run takes a buffer out of the recycling ring. */
  predicate NeverReuses(cfg: Config, s: State, steps: seq<Step>)
    requires IsRun(cfg, s, steps)
    decreases |steps|
  {
    steps == [] || (!Reuses(s, steps[0]) && NeverReuses(cfg, Next(cfg, s, steps[0]), steps[1..]))
  }

  /** What the consumer has received is exactly the first lines in ticket order. */
  predicate Fifo(s: State) {
    s.popped <= s.tickets
  }
}

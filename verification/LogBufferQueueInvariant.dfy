/** The inductive invariant of the line queue.  Its parts are predicates over the components they speak of. */
module LogBufferQueueInvariant {
  import opened Util
  import opened LogBufferQueue

  // ---------------------------------------------------------------- producers

  /** The producer owns a slot it has not counted yet. */
  predicate HasSlot(pc: Producer) {
    pc.Claimed? || pc.Holding? || pc.Constructed? || pc.Published?
  }

  /** The producer owns a slot whose flag it has not stored yet. */
  predicate Unset(pc: Producer) {
    pc.Claimed? || pc.Holding? || pc.Constructed?
  }

  predicate IsRotator(pc: Producer) {
    pc.Last? || pc.Rotating? || pc.Storing? || pc.Linking? || pc.Reopening?
  }

  ghost predicate RotatorUnique(producers: seq<Producer>, rotator: int) {
    -1 <= rotator < |producers| &&
    forall p :: 0 <= p < |producers| ==> (IsRotator(producers[p]) <==> p == rotator)
  }

  /** `owner` and the producers agree: every uncounted ticket of the generation has exactly one owner. */
  ghost predicate Owners(owner: seq<nat>, unset: set<nat>, counted: set<nat>, producers: seq<Producer>) {
    (forall i :: i in unset ==> i < |owner| && i !in counted) &&
    (forall i :: i in counted ==> i < |owner|) &&
    (forall i :: 0 <= i < |owner| && i !in counted ==>
       owner[i] < |producers| && HasSlot(producers[owner[i]]) && producers[owner[i]].slot == i) &&
    (forall p :: 0 <= p < |producers| && HasSlot(producers[p]) ==>
       producers[p].slot < |owner| && owner[producers[p].slot] == p && producers[p].slot !in counted &&
       (producers[p].slot in unset <==> Unset(producers[p])))
  }

  // ---------------------------------------------------------------- the current generation

  /** How far the current generation is: slots being filled; all counted, next buffer not chosen; `next` chosen
      but not linked (`stored` once current_write_buffer_ names it); linked, write index not yet reset. */
  datatype Phase = Filling | Full(reset: bool) | Choosing(next: nat, stored: bool) | Opening

  function PhaseOf(s: State): Phase {
    if !(0 <= s.h.rotator < |s.producers|) then Filling
    else
      match s.producers[s.h.rotator]
      case Last(_) => Full(false)
      case Rotating => Full(true)
      case Storing(next) => Choosing(next, false)
      case Linking(next) => Choosing(next, true)
      case Reopening => Opening
      case _ => Filling
  }

  function Spare(phase: Phase): Option<nat> {
    if phase.Choosing? then Some(phase.next) else None
  }

  function Hand(reader: Reader): Option<nat> {
    if reader.Recycling? then Some(reader.buf) else None
  }

  /** `current_write_buffer_` is the newest buffer of the queue. */
  predicate CurrentQueued(queue: seq<nat>, current: nat) {
    queue != [] && queue[|queue| - 1] == current
  }

  ghost predicate Generation(slots: nat, queue: seq<nat>, pend: seq<seq<Line>>, owner: seq<nat>, writeIndex: nat,
                             current: nat, phase: Phase)
  {
    |pend| == |queue| &&
    (forall k :: 0 <= k < |queue| - 1 ==> |pend[k]| == slots) &&
    match phase
    case Choosing(next, stored) =>
      owner == [] && writeIndex >= slots && (stored ==> current == next) &&
      (queue != [] ==> |pend[|queue| - 1]| == slots)
    case Opening =>
      owner == [] && writeIndex >= slots && CurrentQueued(queue, current) && pend[|queue| - 1] == []
    case _ =>
      |owner| == (if writeIndex < slots then writeIndex else slots) &&
      if CurrentQueued(queue, current) then |pend[|queue| - 1]| == |owner|
      else |owner| == slots && current !in queue && (queue != [] ==> |pend[|queue| - 1]| == slots)
  }

  ghost predicate Counts(slots: nat, bufs: seq<LogBuffer>, current: nat, owner: seq<nat>, counted: set<nat>,
                         phase: Phase)
  {
    current < |bufs| &&
    (forall b :: 0 <= b < |bufs| && b != current ==> bufs[b].count == 0) &&
    match phase
    case Filling => bufs[current].count == |counted| < slots
    case Full(reset) => |counted| == |owner| == slots && (reset ==> bufs[current].count == 0)
    case _ => counted == {} && bufs[current].count == 0
  }

  /** A producer with an unfinished ticket holds the current buffer and the line of its ticket. */
  predicate Holds(queue: seq<nat>, pend: seq<seq<Line>>, current: nat, bufs: seq<LogBuffer>, pc: Producer)
    requires HasSlot(pc)
  {
    (!pc.Claimed? ==> pc.buf == current) &&
    (Unset(pc) ==>
       CurrentQueued(queue, current) && |pend| == |queue| && pc.slot < |pend[|queue| - 1]| && current < |bufs| &&
       pc.slot < |bufs[current].items| &&
       if pc.Constructed? then bufs[current].items[pc.slot] == pend[|queue| - 1][pc.slot]
       else pc.line == pend[|queue| - 1][pc.slot])
  }

  ghost predicate Holdings(queue: seq<nat>, pend: seq<seq<Line>>, current: nat, bufs: seq<LogBuffer>,
                           producers: seq<Producer>)
  {
    forall p :: 0 <= p < |producers| ==>
      (HasSlot(producers[p]) ==> Holds(queue, pend, current, bufs, producers[p])) &&
      (producers[p].Last? ==> producers[p].buf == current)
  }

  // ---------------------------------------------------------------- buffers

  ghost predicate BufferShapes(slots: nat, bufs: seq<LogBuffer>) {
    forall b :: 0 <= b < |bufs| ==> |bufs[b].flags| == slots && |bufs[b].items| == slots
  }

  /** A buffer is in at most one of: the queue, the ring, the consumer's hand, the rotator's hand. */
  ghost predicate Places(size: nat, queue: seq<nat>, ring: seq<nat>, hand: Option<nat>, spare: Option<nat>) {
    |ring| <= RING_SIZE &&
    (forall k :: 0 <= k < |queue| ==> queue[k] < size && queue[k] !in ring) &&
    (forall k :: 0 <= k < |ring| ==> ring[k] < size) &&
    (forall j, k :: 0 <= j < k < |queue| ==> queue[j] != queue[k]) &&
    (forall j, k :: 0 <= j < k < |ring| ==> ring[j] != ring[k]) &&
    (hand.Some? ==> hand.value < size && hand.value !in queue && hand.value !in ring) &&
    (spare.Some? ==> spare.value < size && spare.value !in queue && spare.value !in ring && spare != hand)
  }

  /** The flag and item of a slot of a queued buffer for which `lines` were claimed and of which the consumer has
      taken `taken` slots; `unset` are its claimed slots without a flag, `clearing` the slot about to be cleared. */
  predicate SlotOk(clears: bool, b: LogBuffer, i: nat, lines: seq<Line>, taken: nat, unset: set<nat>,
                   clearing: Option<nat>)
    requires i < |b.flags| && i < |b.items|
  {
    if i >= |lines| then !b.flags[i]
    else if i < taken then i !in unset && b.flags[i] == (!clears || clearing == Some(i))
    else b.flags[i] == (i !in unset) && (b.flags[i] ==> b.items[i] == lines[i])
  }

  ghost predicate BufferOk(clears: bool, b: LogBuffer, lines: seq<Line>, taken: nat, unset: set<nat>,
                           clearing: Option<nat>)
  {
    forall i :: 0 <= i < |b.flags| && i < |b.items| ==> SlotOk(clears, b, i, lines, taken, unset, clearing)
  }

  function UnsetIn(b: nat, current: nat, unset: set<nat>): set<nat> {
    if b == current then unset else {}
  }

  /** How many slots of the front buffer have been handed to the consumer. */
  function Taken(slots: nat, reader: Reader, readIndex: nat): nat {
    match reader
    case Retiring => slots
    case Moved => readIndex + 1
    case _ => readIndex
  }

  function Clearing(reader: Reader, readIndex: nat): Option<nat> {
    if reader.Moved? then Some(readIndex) else None
  }

  ghost predicate Slots(clears: bool, bufs: seq<LogBuffer>, queue: seq<nat>, pend: seq<seq<Line>>, current: nat,
                        unset: set<nat>, taken: nat, clearing: Option<nat>)
  {
    |pend| == |queue| &&
    forall k :: 0 <= k < |queue| ==>
      queue[k] < |bufs| &&
      BufferOk(clears, bufs[queue[k]], pend[k], if k == 0 then taken else 0, UnsetIn(queue[k], current, unset),
               if k == 0 then clearing else None)
  }

  ghost predicate AllFlags(b: LogBuffer, flag: bool) {
    forall i :: 0 <= i < |b.flags| ==> b.flags[i] == flag
  }

  /** A fully consumed buffer keeps its flags in the written form and has none left in the repaired one. */
  ghost predicate RetiredFlags(clears: bool, bufs: seq<LogBuffer>, ring: seq<nat>, hand: Option<nat>) {
    (forall k :: 0 <= k < |ring| ==> ring[k] < |bufs| && AllFlags(bufs[ring[k]], !clears)) &&
    (hand.Some? ==> hand.value < |bufs| && AllFlags(bufs[hand.value], !clears))
  }

  // ---------------------------------------------------------------- the consumer and the order of lines

  predicate ReaderOk(slots: nat, bufs: seq<LogBuffer>, queue: seq<nat>, pend: seq<seq<Line>>, reader: Reader,
                     readBuffer: Option<nat>, readIndex: nat)
  {
    readIndex < slots && |pend| == |queue| &&
    (readBuffer.Some? ==> queue != [] && queue[0] == readBuffer.value) &&
    (readBuffer.None? ==> readIndex == 0) &&
    match reader
    case Ready => true
    case Retiring => readBuffer.None? && queue != [] && |pend[0]| == slots
    case Recycling(_) => readBuffer.None?
    case _ =>
      readBuffer.Some? && readIndex < |pend[0]| && queue[0] < |bufs| && readIndex < |bufs[queue[0]].flags| &&
      bufs[queue[0]].flags[readIndex]
  }

  ghost predicate Order(tickets: seq<Line>, popped: seq<Line>, base: seq<Line>, pend: seq<seq<Line>>, taken: nat) {
    tickets == base + Concat(pend) &&
    taken <= |Front(pend)| && popped == base + Front(pend)[..taken]
  }

  /** Who is where, and how far the current generation is. */
  ghost predicate Peers(cfg: Config, s: State) {
    match cfg
    case Config(slots, _) =>
      slots > 0 && (s.locked <==> PhaseOf(s).Opening?) &&
      BufferShapes(slots, s.bufs) &&
      RotatorUnique(s.producers, s.h.rotator) &&
      Owners(s.h.owner, s.h.unset, s.h.counted, s.producers) &&
      Generation(slots, s.queue, s.h.pend, s.h.owner, s.writeIndex, s.current, PhaseOf(s)) &&
      Counts(slots, s.bufs, s.current, s.h.owner, s.h.counted, PhaseOf(s)) &&
      Holdings(s.queue, s.h.pend, s.current, s.bufs, s.producers)
  }

  /** Where the buffers are and what their slots hold. */
  ghost predicate Store(cfg: Config, s: State) {
    match cfg
    case Config(slots, clears) =>
      Places(|s.bufs|, s.queue, s.ring, Hand(s.reader), Spare(PhaseOf(s))) &&
      Slots(clears, s.bufs, s.queue, s.h.pend, s.current, s.h.unset, Taken(slots, s.reader, s.readIndex),
            Clearing(s.reader, s.readIndex)) &&
      RetiredFlags(clears, s.bufs, s.ring, Hand(s.reader))
  }

  /** Where the consumer stands and what it has received. */
  ghost predicate Reading(cfg: Config, s: State) {
    match cfg
    case Config(slots, _) =>
      ReaderOk(slots, s.bufs, s.queue, s.h.pend, s.reader, s.readBuffer, s.readIndex) &&
      Order(s.tickets, s.popped, s.h.base, s.h.pend, Taken(slots, s.reader, s.readIndex))
  }

  /** Everything except the cleanliness of a buffer that is about to be linked. */
  ghost predicate Core(cfg: Config, s: State) {
    Peers(cfg, s) && Store(cfg, s) && Reading(cfg, s)
  }

  /** The buffer about to be linked has no flag set. */
  ghost predicate SpareClean(s: State) {
    PhaseOf(s).Choosing? ==> PhaseOf(s).next < |s.bufs| && AllFlags(s.bufs[PhaseOf(s).next], false)
  }

  ghost predicate Inv(cfg: Config, s: State) {
    Core(cfg, s) && SpareClean(s)
  }
}

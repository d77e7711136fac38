# Verification model of libfm

A Dafny model of the core of libfm, an event-driven TCP library with an asynchronous logger, and proofs of what the
library is built to guarantee. `dafny verify dfyconfig.toml` checks all of it.

| module | models |
|---|---|
| `LogBufferQueue`, `LogBufferQueueInvariant`, `LogBufferQueueProof`, `LogBufferQueueTheorems`, `LogBufferQueueCalls`, `LogBufferQueueProgress`, `LogBufferQueueWritten` | the multi-producer, single-consumer line queue as a transition system over atomic accesses, for any number of producers and any buffer size |
| `RingQueue`, `AsyncLogger` | the pool of recycled buffers, and the background thread with its drain |
| `TimerTree`, `TimerQueue` | timers, callbacks that add and cancel timers, the one-shot timerfd |
| `Buffer` | the byte buffer and its integers in network byte order |
| `TcpConnection` | one connection in its loop: partial writes, shutdown, forced close, user callbacks, other threads |
| `ConnectionLife`, `ConnectionRefinement` | what the loops see of a connection, and the proof that the connections of `TcpServer` are those of `TcpConnection` |
| `EventLoop`, `TcpServer` | the hand-off of functors to a loop, and the teardown protocol between loops, as transition systems over their steps |
| `Epoller` | channels, the cached registration state and the kernel's interest set |
| `HttpRequest`, `HttpContext`, `HttpLanguage` | the incremental request parser, the language it accepts, and the message handler over a stream |
| `LogLine` | the tagged binary encoding of a log line |
| `Util` | what several modules need |

Objects whose methods update fields are classes; the three protocols that run on several threads are transition
systems whose steps are the single accesses to shared state, taken one at a time in any order.

## Where the code departs from its intent

The code is modelled as it stands, and where it does not keep a promise the exact condition is proved. For the first
four items the repaired form is proved beside it; the others have none.

- `LogBuffer::pop` never clears the flag of a slot, although a comment at util/LogBufferQueue.cpp:51-53 says that a
  reused buffer is reset. `Config.clears` chooses between the two forms.
- `Buffer::readFd` compares a number with itself at net/Buffer.cpp:209 (`ReadFdAsWritten`, `ReadFd`). `TcpConnection`
  uses the repaired one.
- `Buffer::peekInt16` copies four bytes (`PeekInt16AsWritten`; `PeekInt` reads as many as it is asked for).
- A bad request line, and an entry behind a complete request, keep the parsing loop running forever
  (`WrittenRound`). `ParseRequest` stops with failure at the one; the caller never makes the other (`OnMessage`).
- `send` from another thread keeps a reference to the caller's string at net/TcpConnection.cpp:71. The model copies
  it; even so the message is lost if the state changes before the task runs.
- `Epoller::updateChannel` adds a descriptor without events when a channel outside the epoll set has its bits
  cleared once more. A forced close after `stopRead`, or `stopRead` after the close, does that; a hang-up then fails
  an assertion. `revived` marks these connections.
- One event can close a connection twice: a hang-up without input, together with another event for which reading is
  tried and finds the end of the stream (`ClosesBadly`, `CloseTwice`). The second close fails an assertion.
- A quit stored before `loop()` begins is overwritten (`QuitStays`).
- The message handler parses one request per call: a second complete request in the buffer waits until more bytes
  arrive (`HeldBack`).
- Any header line without a colon ends the headers, although a comment at net/http/HttpContext.cpp:43 speaks of the
  empty line (`ColonlessLineEnds`, `AcceptedRequests`).

## Model

| member | source | states |
|---|---|---|
| LogBufferQueueProof.InitInv | util/LogBufferQueue.cpp:106-138 | a new queue, for any buffer size and any number of producers, satisfies the invariant over tickets, flags, counts, queue, ring and rotation |
| LogBufferQueueProof.StepKeepsInv | util/LogBufferQueue.cpp:44-190 | every atomic step of every producer and of the consumer keeps that invariant (in the written form: every step that does not take a buffer out of the recycling ring) |
| LogBufferQueueProof.ReaderStepKeepsCore | util/LogBufferQueue.cpp:163-190 | every consumer step keeps the invariant in both forms, and does not move the producers' generation on |
| LogBufferQueueTheorems.RunKeepsInv | util/LogBufferQueue.cpp:145-190 | the invariant holds along every run |
| LogBufferQueueTheorems.EveryRunIsFifo | util/LogBufferQueue.cpp:145-190 | flags cleared on consumption: in every reachable state the lines received are exactly the first k in ticket order, so none is lost, duplicated, stale or reordered |
| LogBufferQueueTheorems.RunWithoutReuseIsFifo | util/LogBufferQueue.cpp:145-190 | the code as written: the same for every run that never reuses a buffer |
| LogBufferQueueCalls.EveryCallGetsItsTicket | util/LogBufferQueue.cpp:145-161 | read off the calls of a run alone: in every run the lines passed to `push` are exactly the tickets together with the lines of the producers that still wait for one, and the tickets of each producer, then the line in its hand, are its calls in call order |
| LogBufferQueueCalls.EveryLineArrivesInOrder | util/LogBufferQueue.cpp:145-190 | with flags cleared on consumption, or without reuse: what the consumer has of each producer are the first lines that producer passed to `push`, in call order |
| LogBufferQueueCalls.IdleCanCall | util/LogBufferQueue.cpp:145-161 | a producer can call `push` with any line exactly when it is not inside it |
| LogBufferQueueWritten.ReuseBreaksOrder | util/LogBufferQueue.cpp:59-66 | the code as written: after the first reuse of a buffer in a run there is a continuation, itself without reuse, in which the consumer receives a line that was not the next ticket |
| LogBufferQueueWritten.WrittenFormExact | util/LogBufferQueue.cpp:59-66 | the code as written, step by step: behind a run without reuse, a step leaves every continuation that reuses no buffer in ticket order if and only if it does not itself take a buffer from the ring |
| LogBufferQueueWritten.WrittenRunsExact | util/LogBufferQueue.cpp:59-66 | the code as written, over whole runs: a run passes only through states from which every continuation without reuse keeps ticket order if and only if it never reuses a buffer |
| LogBufferQueueWritten.WrittenFormFails | util/LogBufferQueue.cpp:59-66 | the code as written: such a run exists for every buffer size and every number of producers |
| LogBufferQueueTheorems.SlotOwnership | util/LogBufferQueue.cpp:44-57 | a producer with an unfinished ticket holds the current buffer, its slot is in range, and no two producers own the same slot |
| LogBufferQueueTheorems.RotationIsExclusive | util/LogBufferQueue.cpp:118-138 | one producer rotates, when all slots of the old buffer are counted, nobody owns one any more, and every claimed line of it is published |
| LogBufferQueueTheorems.PublishedTail | util/LogBufferQueue.cpp:44-48 | a slot of the newest buffer that is claimed, published and not yet taken holds exactly the line of its ticket |
| LogBufferQueueTheorems.ProducerCanStep | util/LogBufferQueue.cpp:145-161 | a producer inside `push` can always take its next step (all accesses in bounds, the lock free when needed) except while it spins on a full buffer |
| LogBufferQueueTheorems.SpinnersAreServed | util/LogBufferQueue.cpp:155-159 | while the write index is too large, some producer that owns a slot or rotates can take its next step |
| LogBufferQueueProgress.WorkStep | util/LogBufferQueue.cpp:118-160 | each such step uses up a rank over slot owners and the rotator, no other step of any thread changes it, and the write index stays too large until it is reset |
| LogBufferQueueProgress.SpinningIsBounded | util/LogBufferQueue.cpp:118-160 | under every interleaving the write index is reset before more such steps than the rank are taken, so nobody spins for ever while the others are scheduled |
| LogBufferQueueProgress.ServiceReopens | util/LogBufferQueue.cpp:118-138 | from every such state these steps alone lead to the reset (the written form: with nothing to reuse) |
| LogBufferQueueTheorems.ReaderProgress | util/LogBufferQueue.cpp:163-190 | every consumer step either belongs to a failing `pop` or decreases a rank |
| LogBufferQueueTheorems.ReaderReceives | util/LogBufferQueue.cpp:170-189 | one access of `pop` hands over at most one line, and only the one that moves the item does |
| LogBufferQueueProgress.NextLine | util/LogBufferQueue.cpp:59-62 | the line moved out is the next one in ticket order |
| LogBufferQueueProgress.CallReceives | util/LogBufferQueue.cpp:163-190 | a call of `pop`, from its look at the flag to its return and among any steps of the producers, hands over exactly the next line if the flag was set and nothing otherwise |
| LogBufferQueueTheorems.FailedPopIsEmpty | util/LogBufferQueue.cpp:163-190 | if no claimed slot is unpublished, a failing `pop` means that every line has been received |
| LogBufferQueueTheorems.DrainRun | util/LogBufferQueue.cpp:163-190 | from any state the consumer alone reaches a failing `pop` |
| RingQueue.RingQueue.Push | util/LogBufferQueue.cpp:77-90 | appends to a first-in first-out queue, refusing exactly when SIZE buffers are held |
| RingQueue.RingQueue.Pop | util/LogBufferQueue.cpp:92-104 | yields the oldest buffer, or nothing exactly when the queue is empty |
| RingQueue.Offer | util/LogBufferQueue.cpp:177-185 | the circular array refines the ring of the concurrent model when the consumer hands a buffer back |
| RingQueue.Request | util/LogBufferQueue.cpp:118-132 | and when the rotating producer asks for one: a recycled buffer if there is any, otherwise a new one |
| AsyncLogger.AsyncLogger.Produce | util/AsyncLogger.cpp:28-30 | any step of any producer, at any point of the background thread, keeps file, queue and the record of the calls of `push` consistent |
| AsyncLogger.AsyncLogger.Access | util/AsyncLogger.cpp:38-43 | one access of the consumer keeps them consistent and makes progress |
| AsyncLogger.AsyncLogger.Pop | util/AsyncLogger.cpp:39 | a call of `pop` ends, with a line in hand or with the queue failing |
| AsyncLogger.AsyncLogger.FinishAndDrain | util/AsyncLogger.cpp:32-48 | with the producers done, from wherever the thread stood when the shutdown was stored, it stops with the file holding exactly the lines that were passed to `push`, each once, in ticket order, and those of each producer in call order |
| TimerTree.Insert | net/TimerQueue.cpp:176-179 | inserting into the ordered tree keeps it sorted, adds exactly the entry, and says what is first |
| TimerTree.Erase | net/TimerQueue.cpp:111-114 | erasing removes exactly the entry; what becomes first is not earlier |
| TimerTree.Due | net/TimerQueue.cpp:193-196 | the entries before the bound are exactly those with expiration not after now |
| TimerTree.TimespecFromNow | net/TimerQueue.cpp:35-42 | the requested delay is exactly max(100 ns, 1000 * difference in us) for every signed difference, as a normalised timespec |
| TimerQueue.TimerQueue.NewTimer | net/TimerQueue.cpp:84-88 | a new timer's id carries a number never used before, even at a reused address |
| TimerQueue.TimerQueue.CreateElsewhere | net/TimerQueue.cpp:84-88 | a timer made by another thread, at any moment, is posted to the loop exactly once and disturbs nothing |
| TimerQueue.TimerQueue.UpdateTimerFd | net/TimerQueue.cpp:54-62 | the timerfd is armed for exactly the expiration, or for 100 ns from now if that is earlier |
| TimerQueue.TimerQueue.InsertTimer | net/TimerQueue.cpp:165-185 | the timer enters tree and active set together, and the result says whether it is now strictly the earliest |
| TimerQueue.TimerQueue.AddTimerInLoop | net/TimerQueue.cpp:90-98 | an addition keeps the timerfd armed early enough for the tree |
| TimerQueue.TimerQueue.DelTimerInLoop | net/TimerQueue.cpp:104-125 | exactly the timer active under this very id is freed; any other id frees nothing and is remembered only while callbacks run |
| TimerQueue.TimerQueue.GetExpired | net/TimerQueue.cpp:187-208 | takes out exactly the timers with expiration not after now, the earlier first and at the same time the lower address first, from tree and active set |
| TimerQueue.TimerQueue.RunAction | net/TimerQueue.cpp:84-125 | an addition, a cancellation or a timer of another thread has exactly its effect on the live and the active timers, the cancelled ids and the posted additions; the running batch stays allocated and unchanged |
| TimerQueue.TimerQueue.RunBatch | net/TimerQueue.cpp:135-139 | every timer of the batch runs once, in order, and is allocated when it runs, also if an earlier callback cancelled it; the callbacks have exactly the effect of their actions in order |
| TimerQueue.TimerQueue.ResetOne | net/TimerQueue.cpp:146-156 | a repeating timer that was not cancelled is in tree and active set again for exactly the batch time plus its interval, with the same interval and number; every other one is freed and its id names no live timer |
| TimerQueue.TimerQueue.ResetTimer | net/TimerQueue.cpp:145-163 | the same for the whole batch, even if other threads reuse the freed addresses meanwhile, and the timerfd is armed early enough for what is left, from a clock read anew |
| TimerQueue.TimerQueue.HandleRead | net/TimerQueue.cpp:127-143 | runs exactly the timers with expiration not after now, once each, in order; those that repeat and are not cancelled are due again exactly one interval after the batch, the others never return, the rest are untouched; the whole new state, and the time the timerfd is set for |
| TimerQueue.TimerQueue.Tick | net/TimerQueue.cpp:54-62 | exactly an armed timerfd whose time has come fires; the queue stays valid |
| TimerQueue.TimerQueue.Happen | net/TimerQueue.cpp:84-208 | one event, from any valid state: exactly what it makes of the live timers, the active ones and the posted additions |
| TimerQueue.TimerQueue.Loop | net/TimerQueue.cpp:84-208 | over every run, with other threads creating timers also while a batch runs and is reset, each timer is in exactly one of tree with active set, batch, posted addition, or freed; one-shot timers run at most once and runs of a repeating timer are at least its interval apart; each event has exactly its effect |
| TimerQueue.ExpireStep | net/TimerQueue.cpp:200-205 | moving a due timer from tree and active set to the batch keeps the partition and the run history |
| TimerQueue.RestartGood | net/TimerQueue.cpp:149-152 | restarting a timer of the batch keeps partition and history |
| TimerQueue.FreeGood | net/TimerQueue.cpp:153-155 | freeing one does too: nothing is freed twice |
| TimerQueue.CancelGood | net/TimerQueue.cpp:108-117 | so does cancelling an active timer |
| TimerQueue.EarliestLive | net/TimerQueue.cpp:159-162 | the first entry of the tree belongs to an allocated timer with that expiration |
| Buffer.Find | net/Buffer.cpp:25-34 | the first occurrence of a byte, or the end |
| Buffer.FindCrLf | net/Buffer.cpp:14-17 | the first line end, or the end if there is none |
| Buffer.BytesRoundTrip | net/Buffer.cpp:62-130 | decoding the bytes of an unsigned value of any width gives it back |
| Buffer.SignedRoundTrip | net/Buffer.cpp:62-130 | every signed value of any width survives encoding and decoding |
| Buffer.BigEndianLayout | net/Buffer.cpp:62-75 | byte i of the encoding of a natural number is its (n-1-i)-th digit to the base 256: network byte order |
| Buffer.SignedLayout | net/Buffer.cpp:62-75 | byte i of the encoding of any signed value x is floor(x / 256^(n-1-i)) modulo 256: two's complement in network byte order |
| Buffer.WidthsInBits | net/Buffer.cpp:62-79 | the values that one, two, four and eight bytes hold, as numbers |
| Buffer.Buffer.AppendInt | net/Buffer.cpp:62-79 | the contents grow by exactly these bytes, for negative values too |
| Buffer.Buffer.Retrieve | net/Buffer.cpp:36-42 | takes bytes from the front; an emptied buffer regains its whole space |
| Buffer.Buffer.RetrieveAsString | net/Buffer.cpp:49-54 | hands out exactly the bytes it takes from the front |
| Buffer.Buffer.MakeSpace | net/Buffer.cpp:181-193 | growing and sliding both keep the readable bytes; the internal assertion that sliding moves bytes down holds even after prepends |
| Buffer.Buffer.EnsureWritableBytes | net/Buffer.cpp:175-179 | afterwards the space is there and the contents are unchanged |
| Buffer.Buffer.Append | net/Buffer.cpp:56-60 | the contents grow at the end by exactly the data |
| Buffer.Buffer.Prepend | net/Buffer.cpp:151-156 | the contents grow at the front by exactly the data |
| Buffer.Buffer.UnWrite | net/Buffer.cpp:163-166 | takes bytes back from the end |
| Buffer.Buffer.Swap | include/libfm/fmnet/Buffer.h:33-37 | exchanges vectors and indices |
| Buffer.Buffer.Shrink | net/Buffer.cpp:168-173 | a fresh vector with the same contents and the reserve behind them |
| Buffer.Buffer.PeekInt | net/Buffer.cpp:105-130 | the value of the first bytes, nothing consumed |
| Buffer.Buffer.ReadInt | net/Buffer.cpp:81-103 | the same value, and exactly its bytes are consumed |
| Buffer.AppendThenRead | net/Buffer.cpp:62-103 | an appended integer is read back, for every width and signed value and through any reallocation, after the unchanged earlier bytes |
| Buffer.PrependThenRead | net/Buffer.cpp:132-156 | a prepended integer is read back and the other bytes are unchanged |
| Buffer.Buffer.ReadFd | net/Buffer.cpp:195-216 | with the comparison as meant, exactly the received bytes are appended, whether or not they fit the free space |
| Buffer.Buffer.ReadFdAsWritten | net/Buffer.cpp:206-214 | as written, the indices stay valid if and only if the received bytes fit the free space |
| Buffer.ReadFdOverruns | net/Buffer.cpp:195-216 | one byte more than the free space leaves the write index behind the vector |
| Buffer.Buffer.PeekInt16AsWritten | net/Buffer.cpp:119-124 | as written, the copy leaves the vector if and only if readable bytes and free space together are fewer than four, and at which byte; otherwise the value is right |
| Buffer.PeekInt16Overruns | net/Buffer.cpp:119-124 | a buffer filled to its end and drained to two bytes: the copy leaves the vector |
| TcpConnection.TcpConnection.SendInLoop | net/TcpConnection.cpp:92-143 | which messages are accepted, how much goes out at once, what is buffered behind earlier bytes, when write-complete and high-water callbacks are posted |
| TcpConnection.TcpConnection.Send | net/TcpConnection.cpp:66-74 | a message is accepted exactly if the connection is fully open and a direct write does not meet a vanished peer; the whole effect on what went out, what is held, the functors and the interest |
| TcpConnection.TcpConnection.HandleWrite | net/TcpConnection.cpp:254-274 | sends a prefix of what is held; interest in writing ends, and a pending shutdown is carried out, exactly when nothing is left |
| TcpConnection.TcpConnection.ShutdownInLoop | net/TcpConnection.cpp:152-156 | before the disconnect the write half is closed exactly if every accepted byte has reached the kernel; after it, always |
| TcpConnection.TcpConnection.Shutdown | net/TcpConnection.cpp:145-150 | the connection stops accepting, and the half is closed at once exactly if nothing is held |
| TcpConnection.TcpConnection.ForceClose | net/TcpConnection.cpp:158-163 | an open connection posts its close and counts as disconnecting at once |
| TcpConnection.TcpConnection.StartReadInLoop | net/TcpConnection.cpp:187-193 | reading is on; exactly when this revives a closed connection's descriptor |
| TcpConnection.TcpConnection.StopReadInLoop | net/TcpConnection.cpp:199-205 | reading is off; exactly when this revives a closed connection's descriptor |
| TcpConnection.TcpConnection.RunCalls | net/TcpConnection.cpp:244 | the calls of a user callback have exactly their effects, in order (a single one is `CallMade`); they keep every invariant, cannot close the connection, and change nothing sent once it is closed |
| TcpConnection.CallbackSends | net/TcpConnection.cpp:66-74 | every message that a callback sends on a fully open connection before it asks to close is accepted, in order |
| TcpConnection.TcpConnection.HandleClose | net/TcpConnection.cpp:276-288 | its assertion fails exactly if the connection is not open; otherwise both callbacks run once and nothing is sent any more |
| TcpConnection.TcpConnection.ConnectEstablished | net/TcpConnection.cpp:207-216 | its assertion fails exactly if it runs twice; otherwise the connection is open and reading |
| TcpConnection.TcpConnection.ConnectDestroyed | net/TcpConnection.cpp:218-237 | the channel is removed, and the assertion in `Channel::remove` fails exactly if an interest is left |
| TcpConnection.TcpConnection.HandleRead | net/TcpConnection.cpp:239-252 | received bytes are passed on; end of stream closes, which aborts exactly if the connection is not open |
| TcpConnection.TcpConnection.HandleEvent | net/Channel.cpp:68-90 | for every combination of events: an open connection aborts exactly on a hang-up without input together with another event for which the read finds the end of the stream, otherwise closes exactly on the one or the other; which callbacks run, in which order, and their whole effect |
| TcpConnection.TcpConnection.Perform | net/TcpConnection.cpp:66-169 | the effect of every kind of functor; a message posted from another thread is accepted exactly if the connection is still fully open when the task runs |
| TcpConnection.TcpConnection.RunTask | net/EventLoop.cpp:191-204 | the oldest functor runs and leaves the queue; what it posts goes to the end |
| TcpConnection.Happen | net/Channel.cpp:68-90 | every event, task and call, also between the poll and the dispatch of an event, has exactly its effect and keeps the invariants; exactly when it aborts and when it closes |
| TcpConnection.Run | net/TcpConnection.cpp:66-288 | over every run: kernel bytes followed by held bytes are the accepted messages in order, writing is of interest exactly while bytes are held, no byte goes out behind a half-close, one close callback at most, and the only ways to abort; each event has exactly its effect |
| TcpConnection.Flush | net/TcpConnection.cpp:254-274 | write events that take at least one byte each deliver everything held and then close the write half if asked |
| TcpConnection.SendAllAndShutdown | net/TcpConnection.cpp:66-156 | messages sent in the loop before a shutdown all reach the kernel in order, however writes are cut up, and then the half is closed |
| TcpConnection.OtherThreadLosesMessage | net/TcpConnection.cpp:66-74 | a message sent and then a shutdown, both from another thread: the message is lost |
| TcpConnection.ShutdownCutsTail | net/TcpConnection.cpp:152-156 | a shutdown task behind a disconnect closes the half with accepted bytes still held |
| TcpConnection.ForcedCloseAborts | net/TcpConnection.cpp:158-169 | stop reading, force the close, hang-up: the assertion in `handleClose` fails |
| TcpConnection.DispatchedLate | net/EventLoop.cpp:92-97 | an event already polled is dispatched even if another handler has stopped the reading meanwhile; the close works, but puts the descriptor back into the epoll set |
| EventLoop.StepKeepsInv | net/EventLoop.cpp:84-204 | every step of the loop thread and of every other thread keeps functor order and the promise of a wakeup |
| EventLoop.LabelsDecide | net/EventLoop.cpp:77-127 | the functors queued, and whether the loop is asked to stop, are exactly what the calls of `queueInLoop`, `quit` and `loop` in a run say |
| EventLoop.CallersNeverWait | net/EventLoop.cpp:109-127 | another thread can always queue or quit, then can always make the wakeup it owes, and leaves the eventfd readable |
| EventLoop.LoopNeverWaits | net/EventLoop.cpp:84-127 | the loop's thread can always go on, except that its poll blocks exactly while the eventfd is empty and nothing else happens |
| EventLoop.EveryRunIsSafe | net/EventLoop.cpp:84-127 | in every reachable state the functors that have run, run now and wait are together, in order, exactly those queued by the steps of any thread, and a loop about to poll with functors queued or a quit asked for has the eventfd readable or a caller about to wake it (nothing queued by the loop's own thread before it starts) |
| EventLoop.RoundRunsAll | net/EventLoop.cpp:191-204 | under every interleaving one round of the loop runs every functor queued before it, by whichever thread |
| EventLoop.PollDelivers | net/EventLoop.cpp:84-103 | with nobody in the middle of a hand-off and functors queued, the poll is woken without a timeout and exactly the functors queued by any thread have run after one round |
| EventLoop.QuitStays | net/EventLoop.cpp:77-113 | in every run in which nobody asks again, a quit is still there if and only if `loop()` has not been started since |
| EventLoop.QuitEndsPolling | net/EventLoop.cpp:84-113 | once asked to quit, the loop waits in its poll at most once more, and not at all unless it is there already |
| EventLoop.QuitDelivers | net/EventLoop.cpp:84-113 | a loop that waits in its poll and is asked to quit is woken without a timeout and leaves `loop()` |
| EventLoop.EarlyQuitIsLost | net/EventLoop.cpp:77-84 | so a quit before `loop()` starts is lost together with its wakeup: from every quiet idle state the started loop goes back to waiting |
| EventLoop.EarlyPushSleeps | net/EventLoop.cpp:120-127 | the exception of the wakeup promise is real: in any idle state with the eventfd empty and no wakeup under way, a functor queued by the loop's own thread wakes nobody |
| TcpServer.DecimalInjective | net/TcpServer.cpp:63 | decimal renderings of different numbers differ |
| TcpServer.DecimalReads | net/TcpServer.cpp:63 | a rendering consists of decimal digits, without a leading zero, and reads as its number |
| TcpServer.NamesUnique | net/TcpServer.cpp:62-64 | connection names are unique |
| TcpServer.NewIsLocal | net/TcpServer.cpp:59-86 | a new connection gets a fresh name and map entry, and its establishment is queued exactly once in its own loop, or done at once without threads |
| TcpServer.NewIsNamed | net/TcpServer.cpp:59-86 | the name is the server's name, a hash sign and the running number, and the connection is listed under it for its loop |
| TcpServer.WhatMayHappen | net/TcpServer.cpp:59-86 | a new connection is always possible, user code can always call an established one, and whatever is in the epoll set can be polled and is then dispatched in any of three ways |
| TcpServer.EstablishIsLocal | net/TcpConnection.cpp:207-216 | the assertion that a connection is established once holds |
| TcpServer.CloseIsLocal | net/TcpServer.cpp:88-92 | closing an open connection queues its removal exactly once in the main loop, or removes it at once without threads |
| TcpServer.RemoveIsLocal | net/TcpServer.cpp:94-109 | the erase removes exactly one entry, and the last task is queued exactly once in the connection's loop |
| TcpServer.DestroyIsLocal | net/TcpConnection.cpp:218-237 | the last task ends the life, or aborts at a connection whose descriptor was revived after its close |
| TcpServer.StepKeepsInv | net/TcpServer.cpp:59-109 | every step keeps the teardown invariant, or aborts at a revived connection or at one that an event closes twice |
| TcpServer.AbortsExactly | net/TcpConnection.cpp:276-288 | an assertion fails if and only if one event closes twice, a closed connection's descriptor reports another close, or a channel has an interest when it is to be removed |
| TcpServer.EveryRunIsOrderly | net/TcpServer.cpp:59-109 | in every run of every server each connection goes established, closed, erased, destroyed, each once and in that order; the map holds exactly those not yet erased; a closed channel is out of the epoll set unless revived; only a revived connection, or one that the last event closes twice, can abort |
| TcpServer.RunExtendsLives | net/TcpServer.cpp:59-109 | no later step takes back a part of a connection's life |
| TcpServer.QuietMeansSettled | net/TcpServer.cpp:88-109 | with all queues empty, every connection is open and listed or completely destroyed |
| TcpServer.AnyTeardown | net/TcpServer.cpp:88-109 | from every reachable state in which no closed connection reads, dispatching what was polled and running queued tasks in any order keeps the invariant without an abort, and every step uses up what remains, so no such run goes on for ever |
| TcpServer.TeardownEndsQuiet | net/TcpServer.cpp:88-109 | such a run that cannot be extended ends with all queues empty and every connection open and listed or completely destroyed |
| TcpServer.TeardownCompletes | net/TcpServer.cpp:88-109 | such a run exists |
| TcpServer.RestartAborts | net/TcpConnection.cpp:182-193 | `startRead` behind the close makes the removal of the channel fail |
| TcpServer.ForcedCloseAborts | net/TcpConnection.cpp:158-169 | a forced close after `stopRead` and a hang-up make `handleClose` fail |
| ConnectionRefinement.EventRefines | net/TcpConnection.cpp:66-288 | every event of a modelled connection is a run of server steps on that connection with the same outcome and as many forced closes queued, and the one aborts exactly if the other does |
| ConnectionRefinement.DrainTo | net/EventLoop.cpp:191-204 | the loop of a connection, running the heads of its queue, gets to a queued forced close of the connection or the process ends on the way |
| ConnectionRefinement.ForceRefines | net/TcpConnection.cpp:158-169 | a forced close whose turn has come is such a run too |
| ConnectionRefinement.RunRefines | net/TcpConnection.cpp:66-288 | every sequence of events of a connection is a run of the server on it, up to the end of the process |
| ConnectionRefinement.EstablishRefines | net/TcpConnection.cpp:207-216 | so is its first task, which never aborts |
| ConnectionRefinement.DestroyRefines | net/TcpConnection.cpp:218-237 | so is its last task, with the same abort |
| HttpRequest.MethodOf | net/http/HttpRequest.cpp:36-45 | the method whose text is given, or invalid exactly if there is none |
| HttpRequest.TrimExactly | net/http/HttpRequest.cpp:62-70 | trimming removes exactly the white space around a value |
| HttpRequest.TrimSplits | net/http/HttpRequest.cpp:62-70 | every string is white space, its trimmed value, white space |
| HttpRequest.SpacesInBytes | net/http/HttpRequest.cpp:64-68 | white space is exactly the bytes 9 to 13 and 32 |
| HttpRequest.HttpRequest.SetMethod | net/http/HttpRequest.cpp:36-45 | accepts exactly the five methods |
| HttpRequest.TrimmedValue | net/http/HttpRequest.cpp:64-68 | the two loops compute the trimmed value |
| HttpRequest.HttpRequest.AddHeader | net/http/HttpRequest.cpp:62-70 | stores the trimmed value over any earlier one of the same name |
| HttpRequest.AddThenGet | net/http/HttpRequest.cpp:62-77 | a header line that was added is found under its name, trimmed, over any earlier one, and every other lookup answers as before |
| HttpRequest.HttpRequest.Clear | net/http/HttpRequest.cpp:88-94 | an empty request |
| HttpContext.HttpContext.ProcessRequestLine | net/http/HttpContext.cpp:62-97 | the fields and the verdict of the line, fields of a bad line included |
| HttpContext.HttpContext.ParseRequest | net/http/HttpContext.cpp:13-60 | the loop over the buffer ends (each continuing round takes at least two bytes) and leaves context, buffer and result of the specification; a bad line ends it with failure |
| HttpContext.HttpContext.OnMessage | net/http/HttpServer.cpp:59-70 | a complete request is handed on and the parser starts anew, so no call begins behind a complete request |
| HttpContext.RoundExtends | net/Buffer.cpp:14-17 | bytes behind a complete line do not change what it does |
| HttpContext.ChunkingInvariance | net/http/HttpContext.cpp:13-60 | parsing a and then b is parsing a followed by b; if a completes the request, b is left untouched |
| HttpContext.AnyChunking | net/http/HttpContext.cpp:13-60 | the same for any number of chunks: same state, fields, left-over bytes |
| HttpContext.LineParses | net/http/HttpContext.cpp:62-97 | every well-formed request line yields its method, path, query with its question mark, and version |
| HttpContext.CollectLast | net/http/HttpRequest.cpp:69 | of header fields with the same name the last one wins |
| HttpContext.FieldsParse | net/http/HttpContext.cpp:35-52 | every sequence of well-formed header fields yields their trimmed values and ends at the empty line |
| HttpContext.RequestParses | net/http/HttpContext.cpp:13-97 | every well-formed request (sections 3.1.1 and 3.2 of RFC 7230) is parsed to its fields, consuming exactly its own bytes |
| HttpContext.RequestInBytes | net/http/HttpContext.cpp:13-97 | the same for a request written out byte by byte, for each of the five methods and three versions |
| HttpContext.StuckForever | net/http/HttpContext.cpp:22-28 | the loop as written never ends on a bad request line or behind a complete request |
| HttpContext.WrittenHaltsExactly | net/http/HttpContext.cpp:13-60 | the loop as written ends if and only if the first line is incomplete or good and the request is not complete; then it does what the repaired one does |
| HttpContext.EmptyLineNeverEnds | net/http/HttpContext.cpp:13-60 | an empty request line keeps the loop as written running for ever |
| HttpLanguage.AcceptedLines | net/http/HttpContext.cpp:62-97 | a request line is accepted if and only if it is one of the five methods, a space, a target without a space, a space, and a supported version |
| HttpLanguage.AcceptedRequests | net/http/HttpContext.cpp:13-97 | bytes are parsed to a complete request, leaving `rest`, if and only if they are an accepted request line, field lines, any line without a colon, and `rest` |
| HttpLanguage.ColonlessLineEnds | net/http/HttpContext.cpp:38-46 | a line ends the headers if and only if it has no colon, whether it is empty or not |
| HttpLanguage.HandedOn | net/http/HttpServer.cpp:59-70 | for every chunking, the requests passed on followed by those still complete in the buffer are the requests of the stream; each call passes on at most one |
| HttpLanguage.HeldBack | net/http/HttpServer.cpp:59-70 | the requests passed on are a prefix of those of the stream, and one is held back if and only if what is left in the buffer is parsed to one |
| HttpLanguage.SecondWaits | net/http/HttpServer.cpp:59-70 | of two requests that arrive together the second one waits for more bytes |
| HttpLanguage.ServeAll | net/http/HttpServer.cpp:59-70 | the same on the input buffer and the parser object |
| LogLine.RoundTrip | util/LogLine.cpp:226-258 | decoding visits exactly the encoded values, in order, and stops exactly at the end |
| LogLine.OneRoundTrip | util/LogLine.cpp:64-108 | the same for one value in front of any bytes |
| LogLine.HeaderRoundTrip | util/LogLine.cpp:110-142 | the header is decoded to the values it was made of |
| LogLine.LowLayout | util/LogLine.cpp:64-79 | byte i of a number in memory is its i-th digit to the base 256 |
| LogLine.EncodeHeader | util/LogLine.cpp:110-123 | the header takes 53 bytes and fits the buffer inside the object |
| LogLine.LogLine.ResizeIfNeeded | util/LogLine.cpp:165-179 | stored bytes survive growth, the space is there, and the capacity is at most max(512, 2 * required) |
| LogLine.LogLine.Append | util/LogLine.cpp:70-75 | the line logs one value more, inside the buffer, and keeps all earlier ones |
| LogLine.LogLine.AppendString | util/LogLine.cpp:81-89 | a string is logged up to its first NUL, an empty one not at all |
| LogLine.LogLine.Stringify | util/LogLine.cpp:125-163 | the printing loop yields the header and exactly the logged values |
| Epoller.Epoller.UpdateChannel | net/Epoller.cpp:58-87 | cache, channel index and kernel interest set agree afterwards; every epoll_ctl call was legal and every assertion holds |
| Epoller.Epoller.RemoveChannel | net/Epoller.cpp:89-105 | the channel leaves cache and kernel set; the DEL, if any, is legal |
| Epoller.Epoller.HasChannel | net/Epoller.cpp:107-111 | answers exactly for the channels whose index is not new |
| Epoller.Channel.Change | net/Channel.cpp:44-47 | a channel outside the epoll set enters it whatever its bits, one inside leaves it when it has none: the rule the connection and the server models use |
| Epoller.Channel.EnableReading | include/libfm/fmnet/Channel.h:41 | the read bit is set and the kernel follows |
| Epoller.Channel.DisableWriting | include/libfm/fmnet/Channel.h:44 | the write bit is cleared and the kernel follows |
| Epoller.Channel.DisableAll | include/libfm/fmnet/Channel.h:45 | no bits are left; a channel in the epoll set leaves it, one outside it enters it |
| Epoller.Channel.Remove | net/Channel.cpp:49-53 | the channel is forgotten by cache and kernel |
| Epoller.Channel.Dispose | net/Channel.cpp:30-35 | the assertions of the destructor hold for a channel that was removed, and its descriptor is free again |
| Epoller.Run | net/Epoller.cpp:58-111 | after any calls, with channels coming and going and descriptors used again, the kernel watches exactly the descriptors whose index is added, for exactly their events, and has refused no call; each call has exactly its effect on its channel |
| Epoller.UseAgain | net/Epoller.cpp:58-105 | a descriptor can be given to a new channel once the old one is removed and gone |
| Epoller.DisableTwice | net/Epoller.cpp:66-76 | disabling what is already disabled puts the descriptor back into the epoll set without events |

## Left out

- Weak memory orderings: every atomic access of the line queue is a step of its own, in one total order.
- LogBufferQueue: a transition system on values rather than a class, because its accesses interleave; buffers are
  logical identities, so reclaiming memory is not modelled. A buffer dropped because the ring is full may still be
  owed a count by a producer (util/LogBufferQueue.cpp:50, util/LogBufferQueue.cpp:179-185).
- LogBufferQueue: a moved-from item keeps the bytes of its line in the model, as a line without a heap buffer does.
- Wrap-around of `write_index_`, of `next_conn_id_`, of timer numbers, and of sizes: unbounded integers.
- AsyncLogger: the wait for the ready state, file rolling and flushing; lines added by producers that are still
  inside `push` at shutdown.
- TimerQueue: one kind of clock stands for the system clock and the monotonic clock of the timerfd; the destructor.
  `TimerId::operator<` is not a strict weak order, but the sets of ids are hashed and do not use it.
- Buffer: the searches that start in the middle, `findEOL` and the `retrieve` variants that only compute a length.
- PeekInt, ReadInt: the host byte order is taken to be little-endian and only the result of the conversion is modelled.
- TcpConnection: `send(Buffer*)` from another thread, the error text, `setTcpNoDelay`, `forceCloseWithDelay` (which
  is unfinished), state changes of two threads at the very same moment, the object's lifetime.
- EventLoop: timeouts of the poll and other descriptors appear only as polls that return without the wakeup.
- ConnectionRefinement: one connection at a time; an assertion that fails at another connection ends the run.
- TcpServer: the destructor of a server with live connections, the acceptor, the choice of the next loop (any loop
  may be chosen).
- HttpContext: the received time is kept by the object and is not part of the chunking theorems; request bodies are
  not parsed by the code either; bytes above 127 are not white space.
- LogLine: a view is its address and length, the memory behind it is not modelled; a double is its bit pattern;
  formatting, the time stamp's text and the abort after a fatal line.
- Epoller: `poll` and the list of active events.
- `ThreadPool`, `Connector`, `TcpClient`, `EventLoopThreadPool`, `LogFile`, `HttpResponse`: not part of this model.

# A verified model of ring-channel

ring-channel is a bounded multi-producer multi-consumer channel over a ring buffer. Sending never blocks; when the
buffer is full the oldest message is overwritten and handed back. Receivers can poll: a receiver that finds nothing
stores a waker in its slot of a waitlist, and senders wake one such receiver per message that overwrites nothing. The
code is short; what makes it correct is the order of accesses to shared memory in different threads: push, then look
for a waker; store a waker, then look at the buffer again; read `senders`, then pop; decrement a counter, drain the
waitlist, then swap `connected`.

This project models the whole channel and proves, for every capacity, any number of senders, receivers, slots and
threads, and every interleaving:

- **Refinement.** Every run is a run of a sequential lossy bounded FIFO with disconnection (`History`). Push, `Got`,
  `Disconnected` and a refused send take effect at one step; `Empty` and a successful send also use that the peer
  counter was positive at the load their own call made.
- **FIFO accounting.** What was pushed equals what left the front (received or overwritten, in order) followed by the
  buffer. With at most `capacity` pushes and a reported disconnection, receivers got exactly what was sent.
- **No message gets stuck.** While a message waits and a receiver exists, a sender or a dropping receiver is still
  looking for a waker, or some receiver is inside `poll` or has an empty slot. When all threads are idle, some receiver
  is not asleep.
- **No receiver is left behind.** After the last sender's drain has seen `None`, no waker stays in a slot, although the
  scan is not a snapshot. A waker that leaves its slot by a `pop` is in the hands of exactly one thread until that
  thread wakes it.
- **A scan that finds nothing** has seen every slot empty at some moment; exactly when it is a snapshot is proved too.
- **No deadlock.** While some thread is inside an operation, some such thread can move.
- **The drain ends**, whatever receivers do meanwhile.
- **The block is freed exactly once**, by whichever last endpoint comes second, and is never touched afterwards. No run
  panics on a missing slot, wraps a counter around or fails an assertion of the free.

## Shape

| file | content |
|---|---|
| `Base`, `Fifo`, `SlotMap` | shared types; the bounded overwriting queue and the slot map as values |
| `History` | the reference: legal sequential histories and what follows from them alone |
| `Protocol` | states, program counters, actions, steps, runs |
| `Invariant` | what holds in every reachable state, in groups |
| `Frames`, `KeepLife`, `KeepWaitlist`, `KeepHistory`, `KeepProgress`, `Keep` | every step keeps each group |
| `Safety`, `Runs`, `Drain` | the main results, about states, about runs, about the last sender's loop |
| `Scanning` | what a scan of the waitlist sees while others insert, and when it is a snapshot |
| `Limits` | what the channel does not promise, and the exact conditions under which it holds |
| `Execution`, `Interference`, `Channel` | the operations as programs, run against arbitrary other threads |
| `Calls` | the accesses that a thread makes during a call |
| `Atomic`, `Buffer`, `Waitlist`, `Sink` | the cell, the ring buffer, the waitlist and the sink as classes |

Each action of `Protocol` makes at most one access to shared memory. Steps of a thread that touch only its own data are
merged into the access next to them: an operation begins with its first access, and a construction ends with its last.
The steps correspond to the source as follows.

| steps in `Protocol` | source |
|---|---|
| `SendStart`, `Push` | src/channel.rs:44-63, src/buffer.rs:34-39 |
| `LockWaitlist`, `VisitSlot`, `FoundNothing`, `UnlockWaitlist`, `Wake` | src/waitlist.rs:39-41, src/channel.rs:54-56, src/channel.rs:83-85, src/channel.rs:231-233 |
| `SenderClone`, `SenderDrop` | src/channel.rs:66-93 |
| `Swap`, `Free` | src/channel.rs:89-91, src/channel.rs:239-241, src/control.rs:68-76 |
| `LoadSenders`, `Pop` | src/channel.rs:163-173, src/buffer.rs:42-47 |
| `Insert`, `Remove` | src/channel.rs:191-216, src/waitlist.rs:31-37 |
| `ReceiverClone`, `Register` | src/channel.rs:148-155, src/channel.rs:219-224, src/waitlist.rs:23-25 |
| `ReceiverDrop`, `DecReceivers` | src/channel.rs:226-244, src/waitlist.rs:27-29 |

A state field `fault` records anything that would panic, wrap a counter around, fail an assertion of the free or use
the block after it; `Safety.NeverFaults` shows that it is never set. In `Channel` every method lets the other threads
run between any two of its accesses (`Interfere` allows every run of the others), so what its contract says holds
under every interleaving, and its loops end under every interleaving. `AwaitWriteLock` lets them run until the lock is
free. A `Channel` records every access in `run`, with the thread that makes it; contracts say which accesses the
calling thread makes, so a call that touches anything else does not meet its contract. `Atomic`, `Buffer` and
`Waitlist` are the sequential classes; they are proved against the same functions (`Fifo.Push`, `Fifo.Pop`, and those
of `SlotMap`) that the steps of `Protocol` use.

Where the documentation and the code differ, the model follows the code, and `Limits` gives for each such point a run
that shows it and the exact condition (for the scan, in `Scanning`). `send` is documented to fail on a disconnected
channel (src/channel.rs:38-43), and `try_recv` to report `Disconnected` on an empty one (src/channel.rs:157-162); both
read their counter before they touch the buffer, so a send succeeds, and a `try_recv` says `Empty`, if and only if the
last peer goes in between. `Waitlist::pop` returning `None` means that each slot was empty at some moment of the scan,
not that all were empty at one moment: there is a scan that finds nothing although some slot is full all the time. All
slots are empty at the end of such a scan if and only if no poll stored its waker in a slot already passed and left it
there.

## Model

| member | source | states |
|---|---|---|
| Fifo.PushAllSplits | src/buffer.rs:34-39 | any number of pushes onto any queue keeps the newest `cap` elements of everything and hands the rest back in order, `None` first |
| Fifo.PushAllFromEmpty | src/buffer.rs:86-104 | m pushes into an empty buffer return the first max(0, m - cap) messages in order and leave the last min(m, cap) |
| Atomic.AtomicOption.Take | src/atomic.rs:23-28 | returns what the cell held and leaves it empty |
| Atomic.AtomicOption.Swap | src/atomic.rs:40-45 | returns what the cell held and leaves the new item |
| Atomic.AtomicOption.IntoInner | src/atomic.rs:49-54 | returns what the cell held |
| Buffer.RingBuffer.constructor | src/buffer.rs:14-22 | an empty buffer of the given capacity, which is a cell exactly for capacity 1 |
| Buffer.RingBuffer.Push | src/buffer.rs:34-39 | whatever the representation, the contents and the result are those of a push into the bounded overwriting queue |
| Buffer.RingBuffer.Pop | src/buffer.rs:42-47 | whatever the representation, the contents and the result are those of a pop from that queue |
| Waitlist.StoredAt | src/waitlist.rs:145-160 | the multiset of stored items does not depend on the order in which slots are visited |
| Waitlist.StoredCounts | src/waitlist.rs:145-160 | an item is in the multiset of stored items as often as there are slots that hold it |
| Waitlist.Waitlist.Register | src/waitlist.rs:23-25 | returns a key that was not in use, adds an empty slot under it and changes no other |
| Waitlist.Waitlist.Deregister | src/waitlist.rs:27-29 | removes the slot and returns what it held |
| Waitlist.Waitlist.Insert | src/waitlist.rs:31-33 | stores the item in its slot, returns the one it replaces, changes no other slot |
| Waitlist.Waitlist.Remove | src/waitlist.rs:35-37 | empties the slot and returns what it held, changes no other slot |
| Waitlist.Waitlist.Pop | src/waitlist.rs:39-41 | takes exactly one stored item from some slot, or reports that every slot is empty and changes nothing |
| Waitlist.Waitlist.PopAll | src/waitlist.rs:145-160 | popping until `None` ends, returns each item as often as there were slots that held it, empties every slot and keeps the slots |
| History.CountersNeverNegative | src/channel.rs:66-76 | in a legal history neither counter goes below 0 |
| History.ZeroIsAbsorbing | src/channel.rs:66-76 | a counter that was 0 at some point of a legal history is 0 ever after |
| History.FifoAccounting | src/buffer.rs:34-47 | in every legal history the messages sent are those removed, in order, followed by the queue, which never exceeds the capacity |
| History.ReceivedInOrder | src/channel.rs:163-173 | what receivers got, and what was overwritten, are subsequences of what was sent |
| History.DisconnectedIsFinal | src/channel.rs:159-162 | after `Disconnected` nothing is pushed, the queue stays empty, and every receive whose load comes later is told `Disconnected` |
| History.DisconnectedLosesNothing | src/channel.rs:159-162 | a history with a `Disconnected` has every message received or handed back, none twice |
| History.RefusedIsFinal | src/channel.rs:40-43 | a push after a refused send belongs to a call that made its load before the refusal |
| History.NothingOverwritten | fuzz/fuzzer.rs:62-68 | with at most `capacity` messages sent nothing is overwritten |
| History.LosslessWhenLargeEnough | fuzz/fuzzer.rs:62-68 | with at most `capacity` messages sent and a reported disconnection, received equals sent, in order |
| KeepHistory.StepsFollowTheirLabel | src/channel.rs:44-63 | each step changes log, buffer and counters exactly as the operation it makes visible says |
| KeepHistory.LabelsAreLegal | src/channel.rs:163-173 | the operation a step makes visible is a legal continuation; rests on reading the counter before the buffer |
| KeepWaitlist.KeepParked | src/channel.rs:191-216 | every step keeps that the waker of a Pending receiver is stored, in flight or woken, and nothing else is in its slot |
| KeepProgress.KeepNotStuck | src/channel.rs:44-63 | every step keeps that a waiting message has an attended slot or a scan that has not begun to look |
| KeepProgress.ClearedStays | src/channel.rs:198-213 | without senders a slot that is empty, or about to be emptied by its own poll, stays so |
| KeepProgress.KeepDraining | src/channel.rs:74-86 | every step keeps that what the last sender has scanned stays clear, and after the drain everything is |
| Keep.KeepInv | src/channel.rs:44-244 | no step from a good state crashes and every step leads to a good state |
| Keep.ReachableInv | src/channel.rs:317-320 | the invariant holds in every reachable state |
| Safety.NeverFaults | src/control.rs:68-76 | no run panics, underflows, fails an assertion of the free or uses the block after the free |
| Safety.SlotDiscipline | src/channel.rs:148-155 | receivers in use and registered slots correspond one to one, and there are at most `receivers` slots |
| Safety.CountersTrackHandles | src/channel.rs:66-76 | each counter is the number of handles that exist and what the history says |
| Safety.FreedAtMostOnce | src/control.rs:68-76 | at most one free; after it `connected` is false, both counters are 0, no handle and no operation exists and no action is possible |
| Safety.FreedExactlyOnce | src/channel.rs:73-94 | once all drops have finished the block has been freed exactly once |
| Safety.OnlyCloneWaits | src/waitlist.rs:23-25 | a thread inside an operation can move unless it waits for the write lock to register a slot; then every reader in its way can move (a drop that waits for the lock has not begun here, see `DropWaits`) |
| Safety.DropWaits | src/waitlist.rs:27-29 | the drop of a receiver that nobody uses can begin, or waits for readers all of which can move |
| Safety.NoDeadlock | src/waitlist.rs:23-41 | while some thread is inside an operation, some such thread can move |
| Safety.NoStuckMessage | src/channel.rs:44-63 | a waiting message with a registered slot has a responsible thread: one that is to scan and has looked at no slot yet, or a receiver polling or with an empty slot |
| Safety.SomebodyIsAwake | src/channel.rs:227-234 | with all threads idle, a waiting message and a receiver, some receiver is not parked or has been woken |
| Safety.WakeDelivery | src/channel.rs:54-56 | a Pending receiver's slot holds its own waker or nothing, and in the latter case it was woken or exactly one thread holds the waker to wake it |
| Safety.NoneLeftBehind | src/channel.rs:74-86 | after the drain has seen `None`, a receiver without a poll under way has an empty slot, and if Pending, its waker was woken or is about to be |
| Safety.LateSecondLook | src/channel.rs:198-213 | a poll that read `senders` as positive and looks again after the drain has lost its waker to the drain |
| Safety.PendingAfterDrain | src/channel.rs:206-213 | a poll that returns Pending after the drain leaves no waker in its slot |
| Safety.DisconnectWakesEverybody | src/channel.rs:679-701 | with all threads idle and no sender left every parked receiver has been woken |
| Runs.StepRefines | src/channel.rs:44-63 | each step adds at most one legal operation, and buffer and counters agree with the history |
| Runs.RunRefines | src/channel.rs:163-173 | in every run the history is legal and gives the buffer and both counters |
| Runs.FirstInFirstOut | src/buffer.rs:34-47 | in every run pushed equals removed in order followed by the buffer, within the capacity |
| Runs.NothingLost | fuzz/fuzzer.rs:62-68 | in every run with at most `capacity` pushes nothing is overwritten: pushed equals received, in order, followed by the buffer |
| Runs.LosslessRun | fuzz/fuzzer.rs:62-68 | at most `capacity` pushes and a reported disconnection: received equals pushed, in order |
| Runs.DisconnectedForGood | src/channel.rs:163-173 | after a `Disconnected` there is no sender, no push in flight, the buffer is empty and every message was received or handed back |
| Runs.DisconnectedForEverybody | src/channel.rs:163-173 | every `try_recv` whose load comes after a reported disconnection reports it too |
| Runs.ZeroStaysZero | src/channel.rs:66-76 | a counter that reaches 0 in a run stays 0 |
| Runs.RefusedForEverybody | src/channel.rs:44-63 | after a refused send every send that starts later is refused with its message and changes nothing; a later push made its load before |
| Runs.DrainedIff | src/channel.rs:83-85 | in every run the drain is over exactly from the moment the last sender's scan ended without a waker, for good |
| Runs.NobodyLeftBehind | src/channel.rs:74-86 | in every run, at any time after the drain has seen `None`, a receiver without a poll under way has an empty slot, and if Pending, its waker was woken or is about to be |
| Runs.EachStepMovesFates | src/waitlist.rs:23-41 | a waker is offered, stored, leaves its slot in one of four ways, and is woken only after a `pop` took it |
| Runs.WakerConservation | src/waitlist.rs:23-41 | wakers inserted are those stored, in flight, woken, withdrawn, replaced or returned, each in one place only |
| Runs.LeavesItsSlotOnce | src/waitlist.rs:23-41 | in every run a waker that has left its slot never comes back |
| Drain.MeasureStep | src/channel.rs:83-85 | without senders no step raises the number of full slots plus late inserters, and every waker found lowers it |
| Drain.RoundsStep | src/channel.rs:83-85 | every round of the last sender's loop lowers a bound that no step raises |
| Drain.DrainTerminates | src/channel.rs:83-85 | in every run the wakers found and the rounds of the loop are bounded by what is true when `senders` reaches 0 |
| Scanning.EachVisitedWasEmpty | src/waitlist.rs:39-41 | no slot comes or goes during a scan, and each slot passed so far was empty at some moment of it |
| Scanning.NoneMeansEachWasEmpty | src/waitlist.rs:39-41 | a scan that finds nothing has seen each slot empty at some moment; a slot that stays full is never passed over |
| Scanning.NoneMeansAllLeft | src/waitlist.rs:39-41 | when `pop` returns `None`, every waker that was in a slot when it began has left its slot for good |
| Scanning.NoneMeansAllLeftSince | src/waitlist.rs:39-41 | the same for every waker that was in a slot at any earlier moment |
| Scanning.PassedIsEmptyIff | src/waitlist.rs:31-41 | at any point of a scan, a slot it has passed is empty if and only if no poll stored a waker there after the pass that nobody has taken out since |
| Scanning.NoneIsSnapshotIff | src/waitlist.rs:31-41 | all slots are empty together at the end of a scan that finds nothing, if and only if no slot was filled after the scan had passed it and left full |
| Scanning.UndisturbedNoneIsSnapshot | src/waitlist.rs:31-41 | a scan that finds nothing and behind which nobody inserts is a snapshot |
| Limits.ZeroSince | src/channel.rs:66-76 | a counter that was positive is 0 now if and only if its last endpoint left in between |
| Limits.PushedToNobodyIff | src/channel.rs:44-46 | a push happens on a channel without receivers if and only if the last one went between the load of its call and the push |
| Limits.PushedToNobody | src/channel.rs:38-46 | a run, for every capacity, in which `send` succeeds although the last receiver is gone |
| Limits.EmptyWithoutSendersIff | src/channel.rs:163-173 | on an empty buffer `Disconnected` means that the load saw no sender; `Empty` without senders, that the last one went between load and pop |
| Limits.EmptyWithoutSenders | src/channel.rs:157-173 | a run in which `try_recv` returns `Empty` although the channel is empty and has no sender |
| Limits.NoneIsNotASnapshot | src/waitlist.rs:31-41 | a run in which a scan finds nothing although some slot is full in every state of the scan |
| Interference.OthersKeep | src/channel.rs:44-244 | whatever other threads do, a thread stands where it stood, no operation was added in its name, and the last sender's loop has not grown |
| Calls.CallIsRun | src/channel.rs:44-244 | if a call's accesses are `own`, the channel went from its first state to its last by a run in which the thread made just these, the first of them first |
| Calls.FirstOfMine | src/channel.rs:44-244 | such a run is: others, the thread's first access, others, its next one, and so on, each a step in the thread's name |
| Channel.Channel.constructor | src/channel.rs:317-320 | a fresh channel with one sender and one registered receiver |
| Channel.Channel.PopWaker | src/waitlist.rs:39-41 | under any interleaving the call is one whole scan from its first state to its last: a waker returned was in a slot that the scan came to and is now taken; after `None` every waker that was in a slot at the start has left it, and the thread goes on as its call site does; the thread's accesses are the read lock, visits and the release, and no other |
| Channel.Channel.PopAndWake | src/channel.rs:54-56 | the call is one scan and, if it found a waker, its wake; after it that waker is woken, or every waker that was in a slot at the start has left it; the thread makes no other access |
| Channel.Channel.Send | src/channel.rs:44-63 | under any interleaving: refused, with its message back, exactly if there was no receiver when it began; else makes exactly one load and one push and returns what the push overwrote; after a push that overwrote nothing it scans the waitlist, and the waker found is woken, or every waker that was in a slot at the push has left it; the thread makes no other access |
| Channel.Channel.CloneSender | src/channel.rs:66-71 | the call is the increment of `senders` and nothing else |
| Channel.Channel.DropSender | src/channel.rs:73-94 | under any interleaving the thread's accesses are exactly the decrement and, for the last sender, rounds of scan and wake, one scan that finds nothing, one swap and at most one free; it ends with the handle gone, and the last sender leaves its side closed, no waker that was in a slot at the start still in it, and the block freed if the other side is closed |
| Channel.Channel.SwapAndFree | src/channel.rs:88-92 | one swap, which closes the side, and a free exactly if it comes second; no other access |
| Channel.Channel.TryRecv | src/channel.rs:163-173 | under any interleaving the thread's accesses are exactly one load, the first of the call, and one pop, the last; returns the result of the pop; without a message, `Disconnected` exactly if there was no sender when it began |
| Channel.Channel.Poll | src/channel.rs:191-216 | under any interleaving the thread's accesses are exactly load and pop, then either the removal of the waker, or its insert, a second load and pop, and if ready the removal; returns what the last look found, Pending only with its waker recorded, Ready only with its slot emptied |
| Channel.Channel.CloneReceiver | src/channel.rs:219-224 | under any interleaving the thread's accesses are exactly the increment and the registration of an empty slot; ends with the new receiver in use |
| Channel.Channel.AwaitWriteLock | src/waitlist.rs:23-29 | from every reachable state the others can run until no thread holds the read lock, and callers rely on no more than that |
| Channel.Channel.DropReceiver | src/channel.rs:226-244 | under any interleaving the thread's accesses are exactly the removal of the slot, one pop and wake if the slot was empty when the lock was granted, the decrement, and for the last receiver one swap and at most one free; ends with the handle gone; if the slot was empty, one receiver is woken, or every waker in a slot at that moment has left it; the last receiver leaves its side closed, and the block freed if the other side is closed |
| Sink.RingSender.StartSend | src/channel.rs:108-112 | sends on the channel: `backoff` records whether the send overwrote a message, and is left alone by an error, which is returned exactly if there was no receiver; the thread begins no other operation |
| Sink.RingSender.PollFlush | src/channel.rs:114-125 | pauses exactly if a pause was due, wakes its own task when it does, and leaves none due |
| Sink.RingSender.Drive | src/channel.rs:103-125 | a driver on the channel, whatever other threads do: one pause per send of its own that overwrote a message, never two in a row, each with a self-wake; ready once per item tried and once for the flush; it sends its items in order, stops only at a refusal, and begins no other operation |

## Left out

- Weak memory: the acquire/release and relaxed orderings and the fences. Accesses are sequentially consistent and keep program order.
- The internals of `ArrayQueue`, `AtomicCell`, `HopSlotMap` and spin's `RwLock`, which are not in the repository: an atomic bounded FIFO with force-push, an exchange cell, a map that gives out unused keys and is scanned in any order, and a readers/writer lock are assumed.
- Several threads polling one receiver handle at a time (`recv` takes `&self`): each receiver has one slot, so one poll at a time per handle is assumed. Several threads may send, `try_recv` and clone through one handle.
- Executors, `block_on` and waker virtual tables. A waker is the clone that one poll makes; each poll has its own.
- Boxing of large types in the cell, cache padding, `Send`/`Sync`, `Debug`, `Eq` and the error types' `Display`: no hard property.
- Fairness and liveness over infinite runs; the drain is bounded instead.
- Overflow of the counters at `usize::MAX`: counters are unbounded naturals.
- The build without the `futures_api` feature, which is the same channel without waitlist and polling.
- The drop of messages still in the buffer when the block is freed; no step can follow the free.
- AwaitWriteLock: shows that the lock can become free, not that a scheduler lets it; new readers may overtake a waiting writer for ever.
- OnlyCloneWaits: a step of `Protocol` starts the drop of a receiver when the write lock is granted, so a drop that waits is not inside an operation.

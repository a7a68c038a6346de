# Verified models of the `may` coroutine runtime

`may` schedules coroutines and gives them blocking primitives. Its hard logic is hand-written
concurrency: counters paired with queues of waiters that may leave at any moment, queues made of
blocks that are freed late, by a read count, or recycled, a timer index shared by many threads, and
the token that suspends and resumes a coroutine. This project models that logic in Dafny and proves
what it promises. Check it with `dafny verify dfyconfig.toml`.

## How the models work

Each concurrent component is a step machine: the shared memory, one program counter per thread, and
one step per atomic operation of the source, interleaved freely and seen in one order by everybody.
`Enabled` says when a step can be taken, `Next` what it does, `Reachable` what any number of threads
can reach by any finite run. Every main lemma is about all reachable states, or about every run. The
timer index and the single-producer queue are also objects: classes whose methods assign fields and
loop as the source does, proved against a set of deadlines and against a sequence.

What a call may answer is stated too. The lemmas named `RefinesPlain...` say of every step how a call may go on and
end, seen by its caller, and what it may change; in `MpmcCalls`, `SpmcCalls`, `ListCalls` and the `Ledger` of `MpscQueue` the
arguments are written down from the calls and compared with what comes out.

Steps that read memory out of range, or that the source would panic on, are not enabled; the lemmas
named `NeverBlocked`, `PopAlwaysFinds`, `AssertionsHold` and so on prove that no run gets there.

| file | source | what is proved |
|---|---|---|
| `Handoff` | `src/sync/blocking.rs` | the handshake between a waker and a waiter that leaves |
| `WaitList` | the `to_wake` queues | the handshake for any number of blockers in one queue |
| `Semphore` | `src/sync/semphore.rs` | permits are conserved, no wake-up is lost |
| `Mutex` | `src/sync/mutex.rs`, global lock of `src/sync/rwlock.rs` | one lock token, one popper |
| `RwLock` | `src/sync/rwlock.rs` | exclusion, exact reader count, nobody parked without a guard; over two `Mutex` machines |
| `Condvar` | `src/sync/condvar.rs` | signals are conserved, waits return with the mutex; over a `Mutex` machine |
| `SemphoreRest` | `src/sync/semphore.rs` | how the threads of a semaphore come to rest |
| `Mpmc`, `MpmcCalls`, `MpmcRest`, `MpmcDisconnect`, `MpmcStranded` | `src/sync/mpmc.rs` | a permit means an item, what is received is what was sent; what the last sender's drop achieves |
| `MpscQueue` | `may_queue/src/mpsc.rs` | order, and the lifetime of blocks freed one block late |
| `SpmcQueue`, `SpmcCalls` | `may_queue/src/spmc.rs` | every index read once, blocks freed after their last read |
| `SpscQueue`, `SpscObject` | `may_queue/src/spsc.rs` | order, recycling, how many blocks are ever made |
| `IntrusiveList`, `ListCalls` | `may_queue/src/mpsc_list_v1.rs` | every value leaves once, every node is freed once |
| `TimeoutList` | `src/timeout_list.rs` | the timer index agrees with a plain set of deadlines |
| `TimerThread` | `src/timeout_list.rs` | no list is orphaned, every timer leaves once and none fires early, how far the timer thread can sleep past a deadline |
| `Oversleep` | `src/timeout_list.rs` | a run in which it does, and exactly when it cannot |
| `Park` | `src/park.rs`, `src/cancel.rs` | one resume per suspension, no lost unpark or cancel |
| `Counting`, `Traces`, `Options` | - | sums over thread tables; runs, and invariants along them; optional values |

## Where the code does not keep a promise

* `src/sync/mpmc.rs:126-129` says that the last sender's drop wakes every parked receiver. It may not.
  A receiver pushes its blocker before it is counted; one that is overtaken in between swallows the
  wake-up of a later receiver that is already counted and parked. `MpmcStranded.ReceiverLeftParked`
  is such a run, carried on until every other call has returned, and `MpmcDisconnect.DisconnectExact` says exactly
  in which states the drop is safe.
* `Park::subscribe` arms the timer before it stores the coroutine (`src/park.rs:193-202`). A timer that
  fires in between finds an empty slot and is spent, and the timeout is lost.
  `Park.TimeoutCanBeLost` is such a run, and `Park.TimeoutExact` says when it cannot happen: exactly when
  the store comes before the deadline.

* `src/timeout_list.rs:125-126` says that `add_timer` can be called in any thread, but it reads the clock first (129)
  and pushes second (142, 159, 172). An adder that is overtaken in between by one with a later reading and the same
  interval pushes an earlier deadline behind a later one, is not the head and wakes nobody: the timer thread sleeps
  past its deadline. `Oversleep.CanOversleep` is such a run, `TimerThread.NeverOversleeps` bounds the delay by the time
  between reading and push, and `Oversleep.WokenInTimeExact` says that a timer is safe exactly when there is none.

## Model

| member | source | states |
|---|---|---|
| `Handoff.MoveKeeps` | src/sync/blocking.rs:252-281 | every atomic step keeps the flags consistent, and changes the outcome exactly when it claims the resource, which must still be in transit |
| `Handoff.PlayKeeps` | src/sync/blocking.rs:213-226 | over any interleaving the number of claims is 1 if the outcome is settled and 0 otherwise |
| `Handoff.ExactlyOneSideClaims` | src/sync/blocking.rs:198-281 | at most one side ever claims; when both sides are through exactly one has; a waiter still parked after its waker finished has its token |
| `WaitList.JoinOk` | src/sync/semphore.rs:120-122 | pushing a blocker keeps the table of all blockers in order and leaves the other threads alone |
| `WaitList.PopOk` | src/sync/semphore.rs:81-83 | popping makes one blocker in flight and nothing else |
| `WaitList.WaiterOk` | src/sync/semphore.rs:128-158 | a waiter's step changes what is in flight by exactly what it claims |
| `WaitList.WakerOk` | src/sync/semphore.rs:85-96 | a waker's step changes what is in flight by exactly what it claims |
| `WaitList.InFlightHasCarrier` | src/sync/blocking.rs:213-226 | whatever is in flight has a thread that still has to move it |
| `Semphore.InvStep` | src/sync/semphore.rs:81-250 | every step of every call keeps permit conservation and the counter/queue identity |
| `Semphore.PermitConservation` | src/sync/semphore.rs:81-166 | initial value + posts = acquired + free + in transit, and each permit in transit has a thread still moving it |
| `Semphore.RefinesPlainSemaphore` | src/sync/semphore.rs:111-260 | each step of a call seen as a plain semaphore's: `try_wait` is refused only with no permit free; a wait that is woken has the permit, and one ends without it only by a timeout, a cancel or `stop`; `post` adds one permit or panics on a full counter; no call answers for another |
| `Semphore.PopAlwaysFinds` | src/sync/semphore.rs:81-97 | queue length = waiters not yet counted + pops owed + max(0, -cnt), so the pop of `wakeup_one` never finds the queue empty |
| `Semphore.NoLostWakeupAtRest` | src/sync/semphore.rs:111-166 | at rest nobody is parked while a permit is free |
| `Semphore.NeverBlocked` | src/sync/semphore.rs:81-250 | a thread in a call that is not parked or panicked always has a step |
| `Semphore.OverflowIsReal` | src/sync/semphore.rs:231-250 | the overflow panic fires only when the outstanding permits do not fit |
| `SemphoreRest.DriveMove` | src/sync/semphore.rs:81-250 | a thread in a semaphore call that is neither settled nor about to be counted has a step that brings it nearer to its end |
| `SemphoreRest.LiveKept` | src/sync/semphore.rs:81-97 | a parked waiter stays parked and queued under every step of the others but its own pop |
| `Mutex.MutualExclusion` | src/sync/mutex.rs:99-210 | cnt > 0 exactly when the one token exists; at most one guard; while it is live nobody is passing the lock on |
| `Mutex.SinglePopper` | src/sync/mutex.rs:185-210 | two threads are never both about to pop the single-consumer waiter queue |
| `Mutex.HandOffAlwaysFinds` | src/sync/mutex.rs:190-210 | queue length = waiters not yet counted + pops owed + max(0, cnt-1); the pop never fails and `unlock` never underflows |
| `Mutex.NoLostLockAtRest` | src/sync/mutex.rs:99-161 | at rest nobody is parked on a free lock |
| `Mutex.NeverBlocked` | src/sync/mutex.rs:99-210 | a thread in a call that is not parked always has a step |
| `Mutex.RefinesPlainLock` | src/sync/mutex.rs:99-183 | guards change hands as in a plain lock: gained by the thread whose `lock` or `try_lock` ends, when nobody has one; lost by `unlock`; `try_lock` refused exactly when the token is somewhere; a `lock` goes on until it has the guard unless a check heeds the cancel, and then ends without it |
| `Mutex.IgnoringLockAcquires` | src/sync/mutex.rs:121-157 | a lock whose cancel is disabled ends only by acquiring the guard |
| `RwLock.InvStep` | src/sync/rwlock.rs:125-402 | every step, with both inner locks run on the mutex machine, keeps: guards of rlock = threads inside it; guards of the global lock = write guards + readers' share; count = read guards + calls between guard and count |
| `RwLock.RefinesPlainRwLock` | src/sync/rwlock.rs:235-400 | each step of a call seen as a plain reader-writer lock's: a `read` that finds readers gets its guard, a `try_read` with `rlock` is refused only without readers and with the global lock's token somewhere, a blocking call ends without a guard only by a cancel of the lock it waits for, and guards are made and given up nowhere else |
| `RwLock.WriterExcludes` | src/sync/rwlock.rs:125-396 | a write guard is the global lock's one guard and excludes every other guard |
| `RwLock.ReaderCountIsExact` | src/sync/rwlock.rs:235-328 | the count is the live read guards plus the calls between guard and count; outside those calls the global lock's guard exists exactly for a writer or for the readers |
| `RwLock.NoReaderParksOverGuards` | src/sync/rwlock.rs:235-262 | a reader waits for the global lock only when no read guard exists or is being dropped |
| `RwLock.CountNeverUnderflows` | src/sync/rwlock.rs:290-328 | `read_unlock` always finds a positive count |
| `RwLock.NeverBlocked` | src/sync/rwlock.rs:235-402 | a thread in a call has a step unless it is parked in one of the two locks |
| `RwLock.SomebodyParkedMeansGuard` | src/sync/rwlock.rs:125-218 | once everybody is idle or parked, somebody parked means a live read or write guard |
| `Condvar.SignalConservation` | src/sync/condvar.rs:77-132 | notifications = normal returns + dropped on an empty queue + in transit, so a leaving waiter never absorbs one |
| `Condvar.RefinesPlainCondvar` | src/sync/condvar.rs:77-132 | each step of a call seen as a plain condition variable's: a wait begins with the mutex, gives it up, is answered once, with Ok exactly when it was woken, and ends with that answer and the mutex; `notify_one` never touches the mutex |
| `Condvar.ReturnsWithMutex` | src/sync/condvar.rs:77-132 | every return from `wait_impl` is with the mutex's one guard, and nobody else is about to return or wait with it |
| `Condvar.RelockEndsWithGuard` | src/sync/condvar.rs:119-132 | whatever step of the mutex machine ends the re-lock, the waiter has the guard: a cancel never makes it give up |
| `Condvar.DroppedOnlyWhenNobodyWaits` | src/sync/condvar.rs:269-289 | a signal is dropped only when every waiter has its own signal in transit, or is leaving and its waker took the signal back |
| `Condvar.SettledAtRest` | src/sync/condvar.rs:269-289 | at rest every signal was returned, dropped, or is with a notified waiter asleep on the mutex; parked waiters are queued; somebody asleep on the mutex means somebody holds it |
| `Condvar.NeverBlocked` | src/sync/condvar.rs:77-132 | a thread in a call has a step unless it is asleep in the wait or on the mutex |
| `Mpmc.PermitMeansItem` | src/sync/mpmc.rs:52-117 | while a sender lives, a receiver with a permit finds an item; the "no queued item" branches are reached only after disconnect |
| `MpmcCalls.ReceivedIsSent` | src/sync/mpmc.rs:52-117 | while somebody can receive, the values received followed by the queued items are the arguments of the sends, in the order of their pushes |
| `MpmcCalls.CallsAnswer` | src/sync/mpmc.rs:52-160 | how every call may go on and end: a send is refused only without receivers; a receive ends with an item, or without one when the senders are gone, it does not block, or it timed out; the last handle of a side starts its clean-up |
| `MpmcCalls.InsideSemaphore` | src/sync/semphore.rs:111-260 | inside the semaphore the call goes as a plain semaphore's |
| `Mpmc.NeverBlocked` | src/sync/mpmc.rs:52-160 | a thread in a channel call has a step unless it is parked in the semaphore or dead after a panic |
| `Mpmc.MeasureStep` | src/sync/mpmc.rs:123-132 | the wake loop's measure is never raised by a semaphore step other than a new wait |
| `MpmcRest.CallsEnd` | src/sync/mpmc.rs:81-117 | with the semaphore at rest, every call that is through with it returns |
| `MpmcRest.FirstPhase` | src/sync/mpmc.rs:62-117 | after the wake loop, with a parked receiver beyond the pops that are owed, everybody else can end its calls, out of the channel, and leave that receiver parked |
| `MpmcDisconnect.DisconnectExact` | src/sync/mpmc.rs:123-132 | after the last drop no run reaches rest with a receiver parked if and only if, at the drop, each parked receiver has as many waiters behind it as there are pushed but uncounted receivers |
| `MpmcDisconnect.GuardSuffices` | src/sync/mpmc.rs:62-79 | with that condition no run reaches rest with a receiver parked |
| `MpmcDisconnect.GuardNeeded` | src/sync/mpmc.rs:123-132 | without it in some run the wake loop ends, every call that is not parked returns, and a receiver is parked |
| `MpmcDisconnect.CoveredAtRest` | src/sync/mpmc.rs:99-105 | once the owed pops reach every parked receiver, rest leaves none parked |
| `MpmcDisconnect.WakeLoopEnds` | src/sync/mpmc.rs:123-132 | in every run the loop goes round at most as often as receivers were waiting or about to |
| `MpmcStranded.OvertakenIsReachable` | src/sync/semphore.rs:122-126 | a state with an overtaken receiver is reached by a concrete run |
| `MpmcStranded.ReceiverLeftParked` | src/sync/mpmc.rs:123-132 | a concrete run from there: the last sender drops, its loop ends, receiver 1 looks for its item and returns, and receiver 2 is parked with nobody else in the channel |
| `MpscQueue.BulkEnd` | may_queue/src/mpsc.rs:135-138 | a bulk pop goes as far as it can without leaving its block |
| `MpscQueue.FifoPrefix` | may_queue/src/mpsc.rs:220-377 | what pops and bulk pops returned is a prefix of the arguments of the pushes, in the order in which their calls won the tail |
| `MpscQueue.PushesOnce` | may_queue/src/mpsc.rs:220-264 | every call of `push` has won one index for its argument or is still before that; when it is over the index counts as complete |
| `MpscQueue.PopAnswers` | may_queue/src/mpsc.rs:267-377 | a pop that is over returned one value, a bulk pop at least one, or it answered that there is none |
| `MpscQueue.PopGoesOn` | may_queue/src/mpsc.rs:267-377 | a pop takes one value; a bulk pop goes on to the end of its block, to a slot that is not ready, or to the tail it saw when it had to wait |
| `MpscQueue.EmptyMeansConsumed` | may_queue/src/mpsc.rs:267-304 | an empty answer means every push completed before the call was consumed |
| `MpscQueue.NoUseAfterFree` | may_queue/src/mpsc.rs:398-403 | no step of any pusher or of the consumer touches a freed block or frees one again |
| `MpscQueue.FreedOneBlockLate` | may_queue/src/mpsc.rs:398-403 | between calls exactly the blocks before the delayed one are freed |
| `MpscQueue.PusherNeverBlocked` | may_queue/src/mpsc.rs:220-264 | a pusher has a step other than a failing compare-exchange; or the tail is locked and the pusher that won its last slot is still at work and has one; or others won slots since it loaded the tail |
| `MpscQueue.ConsumerNeverBlocked` | may_queue/src/mpsc.rs:275-377 | the consumer has a step unless it spins on a slot whose pusher is at it |
| `SpmcQueue.ReadExactlyOnce` | may_queue/src/spmc.rs:197-422 | a read is of a committed index nobody has read and returns the value pushed there |
| `SpmcCalls.PushesOnce` | may_queue/src/spmc.rs:175-194 | the committed values are the arguments of the pushes, and every push that is over has committed |
| `SpmcCalls.TakesAnswer` | may_queue/src/spmc.rs:197-422 | a call that takes ends having read nothing, by an empty answer, or a stretch of the committed values whose indices it claimed, one value unless it is a bulk pop |
| `SpmcQueue.ClaimedIsRead` | may_queue/src/spmc.rs:197-264 | a claimed index not yet read has exactly one thread still at it |
| `SpmcQueue.NoUseAfterFree` | may_queue/src/spmc.rs:175-422 | no step touches a freed block or frees one again |
| `SpmcQueue.FreedAfterAllRead` | may_queue/src/spmc.rs:91-95 | a freed block has had all 32 slots read |
| `SpmcQueue.AllReadIsFreed` | may_queue/src/spmc.rs:91-95 | a block all of whose 32 slots were read is freed, or a thread still has to count its slots or free it |
| `SpmcQueue.FreedExactly` | may_queue/src/spmc.rs:91-95 | once nobody is at work on a block it is freed if and only if all 32 slots were read |
| `SpmcQueue.EmptyMeansClaimed` | may_queue/src/spmc.rs:197-371 | an empty answer: every index committed when the call loaded the head was claimed then; with the head locked, every index committed so far is claimed |
| `SpmcQueue.EmptyAtSomeMoment` | may_queue/src/spmc.rs:197-371 | in every run that ends in an empty answer there is a moment, within that call, at which every committed index was claimed; the reload after a failed compare-exchange included |
| `SpmcQueue.NeverBlocked` | may_queue/src/spmc.rs:175-422 | a thread in a call has a step other than a failing compare-exchange; or the head is locked by a thread that holds the lock and has one; or others claimed slots since it loaded the head |
| `SpmcQueue.SleepNeverNeeded` | may_queue/src/spmc.rs:398-403 | without address reuse the sleep loops never wait and no slot is skipped |
| `SpscQueue.BulkEnd` | may_queue/src/spsc.rs:103-108 | a bulk pop ends in its own block, at its end or at the end of the queue |
| `SpscQueue.InvStep` | may_queue/src/spsc.rs:173-308 | every step of either side keeps the ring of blocks, the stored values and both positions |
| `SpscQueue.PopsInOrder` | may_queue/src/spsc.rs:235-308 | what came out is a prefix of what went in, and only committed slots are read |
| `SpscQueue.BetweenCalls` | may_queue/src/spsc.rs:198-308 | between calls the tail index counts the pushes that are over, and the head index the values returned |
| `SpscQueue.PopTakes` | may_queue/src/spsc.rs:235-308 | a pop takes one value, a bulk pop all up to the end of its block or of the queue |
| `SpscQueue.PopEnds` | may_queue/src/spsc.rs:235-308 | a pop ends with the head index where it was going |
| `SpscQueue.EmptyMeansConsumed` | may_queue/src/spsc.rs:235-240 | a pop that finds nothing has returned every completed push |
| `SpscQueue.RecycledIsOutside` | may_queue/src/spsc.rs:173-213 | the block about to be appended is none of those from head to tail, which stay linked in order |
| `SpscQueue.NeverBlocked` | may_queue/src/spsc.rs:198-308 | neither side follows an address that is not a block |
| `SpscQueue.AllocOnlyWhenFull` | may_queue/src/spsc.rs:184-194 | a block is made only when the values in the queue need all the others |
| `SpscQueue.BlocksEverAllocated` | may_queue/src/spsc.rs:173-195 | in every run the blocks ever made are at most ceil(greatest occupancy / 32) + 1 |
| `SpscObject.RingQueue.constructor` | may_queue/src/spsc.rs:157-169 | a new queue is empty |
| `SpscObject.RingQueue.AllocNode` | may_queue/src/spsc.rs:173-195 | the assignments are the machine's allocation step |
| `SpscObject.RingQueue.Push` | may_queue/src/spsc.rs:198-216 | appends one value to the contents |
| `SpscObject.RingQueue.Pop` | may_queue/src/spsc.rs:235-261 | returns and removes the first value; nothing exactly when empty |
| `SpscObject.RingQueue.BulkPop` | may_queue/src/spsc.rs:278-308 | removes a prefix, empty only on an empty queue, and stops only at a block end or when all is out |
| `IntrusiveList.InvStep` | may_queue/src/mpsc_list_v1.rs:72-306 | every step of pushers, handles and consumer keeps links, counts and history |
| `IntrusiveList.LeavesOnceInOrder` | may_queue/src/mpsc_list_v1.rs:216-306 | pops returned, in push order, exactly what was pushed up to the tail and not removed; removals returned their own value; the rest is in the list |
| `ListCalls.HeadAnswer` | may_queue/src/mpsc_list_v1.rs:169-179 | `push` answers "head" only for the first node in the list; a first node with the other answer had its predecessor removed |
| `ListCalls.PushGivesHandle` | may_queue/src/mpsc_list_v1.rs:169-179 | a push adds one node with its argument and ends by handing out that node's handle |
| `ListCalls.TakesOneValue` | may_queue/src/mpsc_list_v1.rs:216-306 | a pop of a list that is not empty takes the first value and no other, `pop_if` too unless its condition refuses it; a removal takes its own node's |
| `ListCalls.ValueInList` | may_queue/src/mpsc_list_v1.rs:72-306 | a node has its value exactly while it is in the list, behind the tail |
| `ListCalls.EmptyMeansGone` | may_queue/src/mpsc_list_v1.rs:181-187 | head = tail exactly when the list has no value, and then everything pushed was popped or removed |
| `IntrusiveList.FreedWhenLetGo` | may_queue/src/mpsc_list_v1.rs:125-137 | a node is freed if and only if it is not in the list nor on its way out, and no handle, no pusher and no removal has it |
| `IntrusiveList.LinkTargetAlive` | may_queue/src/mpsc_list_v1.rs:169-179 | no node is freed while a pusher still has to link from it |
| `IntrusiveList.NoUseAfterFree` | may_queue/src/mpsc_list_v1.rs:72-306 | no step follows a pointer to a freed node |
| `IntrusiveList.FreedOnce` | may_queue/src/mpsc_list_v1.rs:258-261 | a freed node never changes again |
| `IntrusiveList.RemoveExact` | may_queue/src/mpsc_list_v1.rs:72-123 | `remove` takes the value out if and only if the node is inside the list with a linked successor |
| `IntrusiveList.AssertionsHold` | may_queue/src/mpsc_list_v1.rs:238-249 | the consumer's assertions and unwraps never fail |
| `IntrusiveList.SpinHasPusher` | may_queue/src/mpsc_list_v1.rs:227-236 | a spinning consumer waits for a pusher about to link from the tail |
| `TimeoutList.TimeoutDeadline` | src/timeout_list.rs:31-34 | deadline = now + interval without overflow; the interval is the duration unless the deadline saturates |
| `TimeoutList.MinIndex` | src/timeout_list.rs:195-196 | an entry with the least time |
| `TimeoutList.HeapCovers` | src/timeout_list.rs:191-201 | no pending deadline is before the least heap time, and the heap is empty exactly when nothing is pending |
| `TimeoutList.RoundKeeps` | src/timeout_list.rs:204-219 | a round fires distinct pending timers, keeps the index, and lowers the number of due heap entries by one |
| `TimeoutList.TimeOutList.AddTimer` | src/timeout_list.rs:128-185 | the pending set gains exactly the new timer; without a recall some pending timer is due no later, with one the timer is alone in its list; a list is made only when the interval has none |
| `TimeoutList.TimeOutList.Remove` | may_queue/src/mpsc_list_v1.rs:72-123 | the pending set loses exactly that timer, unless it is not linked or is the last of its list |
| `TimeoutList.TimeOutList.Drain` | src/timeout_list.rs:71-80 | takes the due prefix and leaves a head later than now |
| `TimeoutList.TimeOutList.PutBack` | src/timeout_list.rs:212-239 | a list with a node gets its one heap entry back, an empty one gets none |
| `TimeoutList.TimeOutList.ScheduleTimer` | src/timeout_list.rs:191-241 | terminates; fires each due timer once and none early; keeps all others; None exactly when nothing is pending, else a wait that passes no pending deadline and ends at the least time in the heap |
| `TimerThread.InvStep` | src/timeout_list.rs:119-300 | every step of adders, deleters and timer thread keeps one heap entry per list in use, cover for every list with a timer, the sleep protocol, the order of pushes, and the record of what became of every timer |
| `TimerThread.NoTimerOrphaned` | src/timeout_list.rs:119-185 | a list with a timer is in the heap, about to be, under the timer thread's hands, or owed by an adder |
| `TimerThread.OneEntryPerList` | src/timeout_list.rs:119-123 | no list ever has two heap entries, nor one and another on its way |
| `TimerThread.RepushHasHead` | src/timeout_list.rs:231-236 | a list that is put back has a head, so the unwrap of its deadline never fails |
| `TimerThread.EveryTimerAccounted` | src/timeout_list.rs:125-241 | a timer is pending if and only if its own list holds it, and one that fired did so at or after its deadline |
| `TimerThread.LeavesOnce` | src/timeout_list.rs:71-80 | a timer leaves its list once, fired by the timer thread when it is due or taken out by a removal, and stays as it left |
| `TimerThread.CallsArrive` | src/timeout_list.rs:128-277 | an add pushes one timer, with the clock it read and the interval it was called with, behind all others of a list of that interval; a deletion leaves one request, taken once |
| `TimerThread.NeverBlocked` | src/timeout_list.rs:280-300 | the timer thread has a step of its own unless it is parked without a token |
| `TimerThread.EntriesAreEarly` | src/timeout_list.rs:119-239 | a heap entry is later than a timer of its list by no more than the time between that timer's clock reading and its push |
| `TimerThread.EntriesAreDeadlines` | src/timeout_list.rs:141-236 | every heap entry is the deadline of a timer that was pushed in its list |
| `TimerThread.NeverOversleeps` | src/timeout_list.rs:261-300 | parked without a token and with every call returned, or not past its clock reading: no removal request waits, the heap is the one the sleep was chosen for, and the sleep passes no pending timer's deadline by more than the time between that timer's clock reading and its push |
| `Oversleep.CanOversleep` | src/timeout_list.rs:126-172 | for every reading, every push from then on and every positive interval, a reachable sleep that passes the deadline by just that time |
| `Oversleep.WokenInTimeExact` | src/timeout_list.rs:129-159 | for every reading and push time: no reachable sleep passes the deadline of a timer with these, if and only if the push is at the clock that was read |
| `Park.InvStep` | src/park.rs:84-217 | every step of coroutine, kernel, timers, unparkers and cancelers keeps the protocol |
| `Park.TakenOnce` | src/park.rs:120-135 | every suspension is taken by exactly one party and never overwritten in the slot |
| `Park.OneKernel` | src/park.rs:140-153 | a coroutine that passes the wait for the kernel finds the previous one done |
| `Park.NoLostUnpark` | src/park.rs:95-99 | a suspended coroutine that was unparked since its last return, or that meets a token, has somebody about to take it out |
| `Park.SleepsOnlyUnasked` | src/park.rs:189-217 | at rest a suspended coroutine has been neither unparked since its last return nor canceled |
| `Park.ParksReturnOnce` | src/park.rs:140-171 | every park returns once, with Ok or an error; an error has a cause, a cancel or a timer that fired since the park began; a park that finds the cancel before it yields is not suspended |
| `Park.TimeoutNotEarly` | src/park.rs:193-197 | the timer of a suspension does not fire before the timeout asked for has passed |
| `Park.TimersCounted` | src/park.rs:79-112 | every timer that was armed fired once, was deleted, or can still fire |
| `Park.KernelCancel` | src/cancel.rs:162-178 | the kernel's steps keep every cancel on its way to the slot |
| `Park.OksComeFromUnparks` | src/park.rs:84-171 | parks return Ok at most twice for every unpark, so never before the first |
| `Park.OneUnparkTwoOks` | src/park.rs:95-99 | twice does happen: an unpark whose token a park used up goes on to resume the next one |
| `Park.TimerKeptIfStoredInTime` | src/park.rs:193-202 | a suspension stored before the deadline of its timeout has its timer armed, and the timer resumes it with an error when due |
| `Park.TimeoutExact` | src/park.rs:193-202 | for every timeout, deadline d and store time c: in every reachable state with these the timer is armed, if and only if c < d |
| `Park.TimeoutCanBeLost` | src/park.rs:193-202 | for every timeout, deadline and later store, a reachable state in which the park sleeps on and only an unpark or a cancel can end it |

## Left out

- Weak memory orderings, fences and cache padding: steps are sequentially consistent.
- Packed pointers, index wrap-around and reuse of freed addresses: pointers are records, indices are natural numbers, blocks and nodes have fresh identities (spsc recycling excepted, which is modelled).
- Park.SleepsOnlyUnasked: does not model `disable_cancel`, which hides a cancel from the recheck in `subscribe`; a second `Park` registered by the same coroutine and the cancel panic after a resume are not modelled either.
- RwLock.NeverBlocked: assumes that the reader mutex is never poisoned; the bound on the spins of `try_lock_rlock` is left open.
- Condvar.SignalConservation: covers runs that use `notify_one`; `notify_all` only pops in a loop.
- MpmcDisconnect.DisconnectExact: a thread killed by the overflow panic of `post` counts as at rest.
- MpscQueue.EmptyMeansConsumed: does not cover `peek` and `len`, which only read.
- SpmcQueue.ReadExactlyOnce: does not cover `Steal::steal_into`, which is a `bulk_pop` followed by local pushes, nor the destructors.
- TimerThread.InvStep: an adder may push in any list of its interval or create one, so the interval hash and its write lock are not modelled; deadlines do not saturate here, as they do in `TimeoutList.TimeoutDeadline`.
- TimeoutList.TimeOutList.ScheduleTimer: takes a callback that leaves the index alone; adds are in clock order, as the source's monotonic clock gives one caller.
- TimeoutList.TimeOutList.Remove: finds the node by its number instead of following its own pointers.
- IntrusiveList.InvStep: takes the consumer's pointer writes that no other thread reads as one step.
- Values are integers; panics in user code, poison flags, iterators, `Debug`, `into_inner` and the destructors are not modelled.
- `src/io`, `src/net`, `src/os`, generator stacks and context switches, the scheduler, `cqueue`, `join`, `scoped`, `WaitGroup`, `SyncFlag`, `spsc` and `mpsc` channels: system calls, or combinations of the pieces above.

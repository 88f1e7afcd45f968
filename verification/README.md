# TonIO protocols in Dafny

TonIO is a multi-threaded coroutine runtime for Python, written in Rust. What makes it hard is a handful of
small lock-free and mutex protocols: how workers are put to sleep and woken, how an edge-triggered readiness
cache survives stale clears, how a lock is handed to a waiter that may have been cancelled, which of many racing
wakers gets to schedule a coroutine. This project models each of them and proves what it keeps over every run.

## How the model is built

* **Step systems.** Each protocol is a `State`, an `Action` type, `Enabled`, and `Step`: one action per atomic
  operation or lock section, any number of threads, sequentially consistent memory. `Runs` defines finite runs
  and reachability; the main theorems are about every reachable state. Counters are unbounded integers where a
  theorem shows that they stay in range, and wrap explicitly elsewhere.
* **Ledgers.** A counter of the source is tied to the threads by the sum of a per-thread weight (`Ledger.Sum`).
  One operation changes the counter by what it changes in the weights of the threads it touches.
* **Objects.** The structures whose methods loop over their own fields, or work on a packed word, are also classes
  updated in place: `WorkQueues.WorkSchedule`, `WorkQueues.Queues`, `ScheduledIo.ScheduledIO`,
  `EventObjects.Event`, `EventObjects.Runtime`, `SyncObjects.Lock`, `SyncObjects.Semaphore`, `Timers.TimerHeap`.
  A method is one uninterrupted call, and lemmas (`WorkQueues.WakeAlone`, `WorkQueues.FindWorkAlone`,
  `SyncObjects.ReleaseAlone`, the `…Unpacked` lemmas of `ReadyWord` with `Readiness.SameOperations`) connect it with
  the steps of the step system.

| files | protocol |
|---|---|
| `Scheduler`, `SchedulerSafety`, `SchedulerTheorems`, `SchedulerExact`, `SchedulerStop`, `SchedulerStranding`, `WorkQueues` | work stealing, idle flags, throttled and forced wakes |
| `ReadyWord`, `Readiness`, `ScheduledIo` | the readiness cache, its reader, its writer and its poller |
| `HandOff`, `LockSemaphore`, `SyncObjects` | lock and semaphore with cancellation |
| `Channel` | bounded and unbounded channels |
| `WaitOne`, `WaitAll`, `EventObjects` | events, suspensions, timeouts, the wait-all sentinel |
| `BlockingPool`, `BlockingTask` | the blocking thread pool and one task of it |
| `Trampoline` | generators stepped by handles |
| `IoLifetime`, `Timers` | poll tokens, timers |

## Where the code does less than one might hope

Each of these is a lemma with a concrete input or run, next to the exact condition under which the code is right.

* A throttled push can be left in the injector with every worker asleep (`ThrottledPushCanStrand`): its wake is
  elided against a producer that still holds the token after its look at the last flag (src/work.rs:61-73 and 86-96).
  `LeaveExact` says exactly when an elided wake leaves nobody, and `InjectorSeenToExactly` that over every run nothing
  else does, until the next push.
* A blocking task can be left in the queue with no worker (`UndoCanOrphan`): a call reads a thread count made of a
  reservation that is about to be undone (src/blocking.rs:215-218). `AbandonExact` gives the condition,
  `TaskAttendedExactly` shows that nothing else can go wrong, and the next call to `run` attends to the queue again.
* 256 readiness updates within one attempt let a stale clear through (`FullTurnStalls`); `GuardExact` and
  `ClearLosesExactly` say that only full turns of the tick do, and `ReportedExactly` that nothing else loses anything.
* A semaphore of 2^31 permits blocks its first client (`HugeSemaphoreBlocks`), because the test is made on `i32`;
  its second client then overtakes the first (`HugeSemaphoreOvertakes`). `SignedTestExact` says for which counts and
  queue lengths the test is right.
* A deregistration that the kernel refuses is ignored, and can leave a token to an entry that is gone
  (`FailedDeregistrationDangles`, src/runtime.rs:169-172); `TokensNeverDangle` says that only this can, and
  `LingersExactly` tells such a descriptor from the others.
* A second abort of a multi-event suspension throws again if it comes over a decrement below zero
  (`SecondAbortFires`, src/events.rs:833-851); `FurtherAbortExact` says that only then.

## Model

| member | source | states |
|---|---|---|
| `SchedulerTheorems.ForcedWakeNeverStranded` | src/runtime.rs:307-312 | once `add_io_handle` has returned, while its handle is in the injector and the runtime is not stopping, some worker will scan the injector before it blocks, and if it is at the parker its token is there or coming |
| `SchedulerTheorems.InjectorLookedAfter` | src/work.rs:61-97 | every handle in the injector has its wake call in flight, a worker that will scan, or a producer with flags left to look at, unless it is unforced and its call was elided with every token held by a producer past the last flag and every worker asleep |
| `SchedulerTheorems.AsleepMeansDone` | src/work.rs:154-234 | when every thread is parked or outside the runtime, all deques and hands are empty and the injector holds at most handles of that one exception, never a forced one |
| `SchedulerTheorems.ElisionExact` | src/work.rs:65-71 | an elided wake leaves neither a worker that will scan nor a producer with flags left to look at if and only if every token is with a producer past the last flag and every worker is asleep: flag up, past its scan, no park token; and exactly then it is recorded as unseen |
| `SchedulerExact.InjectorSeenToExactly` | src/work.rs:61-97 | over every run: a non-empty injector has a worker that will scan it or a wake call that will still do something about it if and only if no elided wake has left it unseen since the last push |
| `SchedulerExact.LeaveExact` | src/work.rs:65-71 | an elision leaves nobody if and only if every token is with a producer past the last flag, every worker is asleep and no other wake call will do anything; told on the state before it |
| `SchedulerExact.AsleepMeansUnseen` | src/work.rs:154-234 | when every thread is parked or outside the runtime, what is left in the injector was left unseen, and the next push sees to all of it |
| `SchedulerExact.SeenToUntilLeft` | src/work.rs:61-97 | while the injector is non-empty, no step but such an elision leaves it with nobody |
| `SchedulerExact.UnseenUntilPush` | src/work.rs:172-231 | once nobody is left, no step but a push brings somebody back: workers go on to sleep and find nothing to steal |
| `SchedulerTheorems.SpeculationLedger` | src/work.rs:61-97 | `speculation` is exactly the tokens held by producers inside `wake_idle`, claimed and speculating workers, and workers that left with one; it never underflows, and none has left before the runtime stops |
| `SchedulerTheorems.IdleCountLedger` | src/work.rs:41-56 | `idle_count` is set flags minus workers inside `set_idle` plus claimers not yet debited; it may pass below zero, and the wrapped word reads zero only at zero |
| `SchedulerTheorems.RunsOnce` | src/work.rs:104-134 | every pushed handle is in exactly one queue or pair of hands or has been run, once; a parked worker has an empty deque |
| `SchedulerTheorems.QueuesInOrder` | src/runtime.rs:296-317 | the injector and every deque hold their handles in the order of the pushes, in every reachable state |
| `SchedulerTheorems.SearchPassedOn` | src/work.rs:155-163 | a worker that found a handle runs it, stops speculating, and makes a wake call of its own exactly if nobody else holds a token |
| `SchedulerStop.StopDrains` | src/runtime.rs:186-198 | once `stop_threads` has unparked a worker and nothing can move any more, that worker has left, with its flag down and nothing in its hands or deque |
| `SchedulerTheorems.InvKept` | src/work.rs:154-234 | every atomic operation of a worker or producer keeps the whole invariant |
| `SchedulerTheorems.ServedWillScan` | src/work.rs:221-231 | a claimed worker at the parker has its token or the claimer is about to deliver it |
| `SchedulerSafety.GoodUntilEmptyScan` | src/work.rs:172-219 | a worker that owes a scan ceases to owe it only by looking at an empty injector itself |
| `SchedulerSafety.ZeroIdleServed` | src/work.rs:62-64 | `idle_count` reads zero only while some worker owes a scan |
| `SchedulerSafety.AwakeServed` | src/work.rs:172-219 | a worker that is awake, claimed or has a park token owes a scan |
| `SchedulerSafety.TokenServed` | src/work.rs:65-71 | if there are more tokens than producers past the last flag, some worker owes a scan or some producer has flags left to look at |
| `SchedulerSafety.LookServes` | src/work.rs:86-94 | a producer that looks at a flag leaves a worker that owes a scan: the one it claims, or the one whose flag was down |
| `SchedulerSafety.SeenToKept` | src/work.rs:61-97 | while a handle is in the injector, somebody who will see to it is always followed by somebody who will |
| `SchedulerSafety.ForcedNotElidedKept` | src/work.rs:76-82 | a forced wake is never elided by the speculation counter |
| `SchedulerSafety.ClaimsDeliveredKept` | src/work.rs:85-97 | a claimed worker without its park token has a claimer that will deliver it |
| `SchedulerStranding.ThrottledPushCanStrand` | src/work.rs:85-97 | a reachable state with a handle in the injector, the only worker parked, no wake in flight, and no step possible short of another push or a stop |
| `WorkQueues.WakeAlone` | src/work.rs:85-97 | a producer left alone claims, debits and unparks the worker with the first raised flag, or gives its token back: what `WakeIdle` does |
| `WorkQueues.FindWorkAlone` | src/work.rs:104-134 | a worker left alone in `find_work` comes to hold the newest of its own deque, else the oldest injected, else the oldest of the first other deque that has one, every other queue unchanged; it finds nothing only if all are empty: what `FindWork` does |
| `WorkQueues.LocalPushRunsNext` | src/runtime.rs:296-304 | what a worker pushes while running a handle is what it runs next, if it is still the newest of its deque |
| `WorkQueues.SleepsAgain` | src/work.rs:172-233 | a worker woken with nothing to be found, claimed or by a stale token, goes back to the parker with its flag up, its park token used and its speculation token given back |
| `WorkQueues.LeavesWhenStopping` | src/work.rs:165-197 | a worker that found nothing leaves once the runtime is stopping, with its flag down |
| `WorkQueues.WorkSchedule.constructor` | src/work.rs:26-38 | no worker idle, no token out |
| `WorkQueues.WorkSchedule.ClearIdle` | src/work.rs:47-56 | takes the flag down, reports whether it was still up, and debits only then |
| `WorkQueues.WorkSchedule.WakeIdle` | src/work.rs:85-97 | exactly the first idle worker is claimed and unparked, or the token is returned and nothing else changes |
| `WorkQueues.WorkSchedule.UnparkOne` | src/work.rs:61-73 | nothing happens with nobody idle or a token out; otherwise the first idle worker is woken and one token is out |
| `WorkQueues.WorkSchedule.Unpark` | src/work.rs:76-82 | the first idle worker is woken whatever the tokens |
| `WorkQueues.Queues.FindWork` | src/work.rs:104-134 | the newest own handle, else the oldest injected, else the oldest of the first other non-empty deque; nothing found means all are empty |
| `ReadyWord.GuardExact` | src/io/schedule.rs:91-100 | the 8-bit guard passes if and only if a multiple of 256 updates has intervened |
| `ReadyWord.ClearIsExact` | src/io/schedule.rs:91-100 | with fewer than 256 updates the guarded clear equals the one with an unbounded tick: a no-op exactly when an update intervened |
| `ReadyWord.UpdateCounts` | src/io/schedule.rs:116-123 | after n updates the tick field is n modulo 256 |
| `ReadyWord.UpdateTicks` | src/io/schedule.rs:119-121 | an update advances the tick by one, wrapping, and stays within the fourteen bits |
| `ReadyWord.UpdateAdds` | src/io/schedule.rs:121-121 | an update adds its bits and drops none |
| `ReadyWord.ShutdownSticks` | src/io/schedule.rs:91-123 | no clear, consume or update drops SHUTDOWN |
| `ReadyWord.DirectionsApart` | src/io/schedule.rs:166-172 | the writer's clear never drops READABLE or READ_CLOSED, nor the reader's WRITABLE or WRITE_CLOSED |
| `ReadyWord.UpdateUnpacked` | src/io/schedule.rs:116-123 | on every word and mask, the packed update is the update of the separate fields |
| `ReadyWord.ClearUnpacked` | src/io/schedule.rs:91-100 | the packed guarded clears are the clears of the separate fields |
| `ReadyWord.ConsumeReadUnpacked` | src/io/schedule.rs:103-112 | consuming the read mask drops the read side and keeps tick, shutdown and the write side |
| `ReadyWord.ConsumeWriteUnpacked` | src/io/schedule.rs:103-112 | consuming the write mask drops the write side and keeps the rest |
| `ReadyWord.ShutdownUnpacked` | src/io/schedule.rs:140-143 | the shutdown bit changes no other field |
| `ReadyWord.BlockBits` | src/io/schedule.rs:63-65 | the masked test of `arm` passes exactly if one of the three named bits of the direction, or the shutdown bit, is set |
| `ReadyWord.SidesNamed` | src/io/schedule.rs:18-19 | each direction by the names of its three bits: what its clear drops at the recorded tick and at no other, what its consume drops, and what its tests look at |
| `Readiness.ReaderNeverStalls` | tonio/_net/_socket.py:193-210 | in every run, a parked reader is in its slot; and unread data, an end of file or an error has an edge, an update or a wake still to come, unless a clear at a full turn of the tick wiped it out and nothing has reported it since |
| `Readiness.WriterNeverStalls` | tonio/_net/_socket.py:321-346 | in every run, a parked writer is in its slot; and room to send, a broken pipe or an error has an edge, an update or a wake still to come, unless it was lost in the same way |
| `Readiness.ReportedExactly` | src/io/schedule.rs:91-123 | in every run, unread data, room, an end, a broken pipe and an error are each reported in the word or about to be if and only if no clear, of either side, has wiped that out with nothing to report it since |
| `Readiness.NothingLostInTime` | src/io/schedule.rs:91-100 | a run without a clear at a full turn of the tick, in particular with fewer than 256 updates per attempt, loses nothing |
| `Readiness.ClearLosesExactly` | src/io/schedule.rs:166-172 | a clear wipes out exactly what holds of its side and is not still to be reported, if it is made at a full turn of the tick, and nothing otherwise |
| `Readiness.FullTurnStalls` | src/io/schedule.rs:91-100 | a reachable state after 256 updates in one attempt: the reader parked over unread data that nothing will report |
| `Readiness.InvKept` | src/runtime.rs:108-130 | every step of reader, writer, poller, closer and kernel keeps: what holds is cached, coming or lost, and an armed slot over a ready word is about to be woken |
| `Readiness.ArmExact` | src/io/schedule.rs:62-83 | `arm` goes on to an attempt exactly if one of the three named bits of its side is set or the entry is shut down |
| `Readiness.ReadyAttempts` | src/io/schedule.rs:146-164 | a party that arms over a ready word attempts its call with the current tick recorded |
| `Readiness.BlockedParks` | tonio/_net/_socket.py:199-204 | a party whose call would block, with no update since it armed, clears its side and parks in its slot |
| `Readiness.TriesAgain` | tonio/_net/_socket.py:193-203 | a party that was woken, or whose call was interrupted, tries again if the word has something for it |
| `Readiness.CallEnds` | tonio/_net/_socket.py:205-210 | a call that moved something, ended or was abandoned is over, and moved exactly what it says |
| `Readiness.NobodyParkedOnClosed` | src/io/schedule.rs:140-143 | once the entry is shut down nobody stays parked on it, and the bit that keeps later parties from waiting is up |
| `Readiness.SameOperations` | src/io/schedule.rs:91-138 | the update, the clears and the tests of the step system are those of the unpacked word |
| `ScheduledIo.ReadinessFromEvent` | src/io/schedule.rs:183-201 | the mask built has exactly the reported bits |
| `ScheduledIo.ScheduledIO.constructor` | src/io/schedule.rs:46-54 | tick zero, nothing ready, nobody armed |
| `ScheduledIo.ScheduledIO.ArmR` | src/io/schedule.rs:146-154 | waits, in the reader's slot, exactly if READABLE, READ_CLOSED, ERROR and SHUTDOWN are all clear; otherwise records the current tick for the attempt |
| `ScheduledIo.ScheduledIO.ArmW` | src/io/schedule.rs:156-164 | waits, in the writer's slot, exactly if WRITABLE, WRITE_CLOSED, ERROR and SHUTDOWN are all clear; otherwise records the current tick for the attempt |
| `ScheduledIo.ScheduledIO.ClearR` | src/io/schedule.rs:166-168 | READABLE, READ_CLOSED and ERROR are dropped if the tick is the recorded one, nothing else changes |
| `ScheduledIo.ScheduledIO.ClearW` | src/io/schedule.rs:170-172 | WRITABLE, WRITE_CLOSED and ERROR are dropped if the tick is the recorded one, nothing else changes |
| `ScheduledIo.ScheduledIO.ConsumeR` | src/io/schedule.rs:174-176 | drops READABLE, READ_CLOSED and ERROR whatever the tick and reports whether any was set |
| `ScheduledIo.ScheduledIO.ConsumeW` | src/io/schedule.rs:178-180 | drops WRITABLE, WRITE_CLOSED and ERROR whatever the tick and reports whether any was set |
| `ScheduledIo.ScheduledIO.SetReadiness` | src/io/schedule.rs:116-123 | next tick, new bits on top of the old |
| `ScheduledIo.ScheduledIO.Wake` | src/io/schedule.rs:125-138 | takes the reader's slot exactly on readable, read-closed or error, and the writer's exactly on writable, write-closed or error |
| `ScheduledIo.ScheduledIO.Shutdown` | src/io/schedule.rs:140-143 | both slots are taken, and the word only gains the shutdown bit |
| `ScheduledIo.ScheduledIO.Dispatch` | src/runtime.rs:116-127 | an event is added to the word; the reader's slot is taken exactly if it is readable, read-closed or an error, the writer's exactly if it is writable, write-closed or an error |
| `HandOff.PermitsConserved` | src/sync.rs:82-115 | over runs of any length, free permits plus those held, being released or handed over, cancelled or not, are the initial number; none is free while a client is queued; with fewer than 2^31 permits and no more than 2^31 queued the signed test means "no permit free" |
| `HandOff.SignedTestExact` | src/sync.rs:82-94 | for every count and queue length, with casts and subtraction that wrap at 32 bits: exactly when the test agrees with "no permit is free", and exactly when it agrees with "no more permits than clients queued" |
| `HandOff.CastOfDifference` | src/sync.rs:85-85 | the two casts and the wrapping subtraction are one cast of the true difference |
| `HandOff.HugeSemaphoreBlocks` | src/sync.rs:85-91 | a semaphore of 2^31 permits queues its first client with every permit free |
| `HandOff.HugeSemaphoreOvertakes` | src/sync.rs:85-93 | the second client of that semaphore takes a permit while the first waits |
| `HandOff.LockExclusive` | src/sync.rs:25-65 | `state` is true if and only if there is an owner (holder, releaser, or waiter handed the lock); there is one at most; every live waiter is queued behind one |
| `HandOff.NoOvertaking` | src/sync.rs:57-65 | while a live waiter is queued no step takes a permit from the pool, and a hand-over goes to the head of the queue |
| `HandOff.NoLostHandOff` | tonio/_sync.py:27-36 | in a state where no client can move and no uncancelled client holds a permit, nobody waits and every permit is free: a client that was cancelled keeps nothing |
| `HandOff.ReachableStories` | tonio/_sync.py:27-54 | in every reachable state a client was cancelled exactly if it is raising or has raised, through the hand-back if it was given the permit; it has held a permit exactly if it holds it, releases it on leaving, or is done; only `try_acquire` is refused |
| `HandOff.AtRest` | tonio/_sync.py:27-54 | once no client can move, a cancelled one has raised and kept nothing, a refused one came by `try_acquire`, and any other holds, has held, or waits unserved |
| `HandOff.AttemptExact` | src/sync.rs:25-55 | an attempt takes a permit exactly if fewer are out than there are; otherwise `try_acquire` is refused and `acquire` goes to the end of the queue |
| `LockSemaphore.LockIsSemaphore` | src/sync.rs:25-65 | along every run of a lock, however long, with any acquires, tries, cancels and releases and no more than 2^31 queued at once, a one-permit semaphore starts at its beginning and follows every step by steps of the same client, with the same answers, free permits and queue up to cancelled entries and a release still to hand over |
| `LockSemaphore.LockStepFollowed` | src/sync.rs:25-65 | every single step of the lock is followed: arrivals, cancellations and release calls by the same step, an operation of a client by operations of that client |
| `LockSemaphore.SemaphoreIsLock` | src/sync.rs:82-115 | in every reachable state of a one-permit semaphore a lock can be in the same state, and it follows whatever the semaphore does next by the same action, made once or twice |
| `HandOff.InvKept` | tonio/_sync.py:45-54 | every step of acquire, try, cancel, hand-back and release keeps the permit ledger and the queue's shape |
| `SyncObjects.HandOver` | src/sync.rs:107-115 | the pop loop of both releases sets the oldest event not yet set, wakes its watchers, drops it and all before it, and touches no other event |
| `SyncObjects.Lock.Acquire` | src/sync.rs:25-44 | the lock is taken at once if free, otherwise a fresh unset event is queued last |
| `SyncObjects.Lock.TryAcquire` | src/sync.rs:46-55 | succeeds exactly if the lock was free, and never queues |
| `SyncObjects.Lock.Release` | src/sync.rs:57-65 | the lock goes to the oldest live waiter and stays taken, or becomes free with an empty queue |
| `SyncObjects.Semaphore.constructor` | src/sync.rs:76-80 | the given permits, nobody waiting |
| `SyncObjects.Semaphore.Acquire` | src/sync.rs:82-94 | with fewer than 2^31 permits and no more than 2^31 queued, a permit is taken exactly if one is free, otherwise a fresh event is queued; nobody waits while a permit is free |
| `SyncObjects.Semaphore.TryAcquire` | src/sync.rs:96-105 | with fewer than 2^31 permits and no more than 2^31 queued, succeeds exactly if a permit is free, and never queues |
| `SyncObjects.Semaphore.Release` | src/sync.rs:107-115 | the permit goes to the oldest live waiter, or back to the pool with an empty queue |
| `SyncObjects.ReleaseAlone` | src/sync.rs:57-65 | a release in the step system, left alone, ends as the methods do: oldest live waiter set, cancelled ones dropped, everyone else untouched |
| `Channel.Fifo` | src/sync.rs:281-328 | what was dequeued followed by the queue is what was enqueued, and each dequeued message is with exactly one receiver per time it was dequeued |
| `Channel.NoLostWake` | tonio/_sync.py:70-76 | a parked receiver is queued or about to be woken, and while one is queued there are no more messages than woken receivers that have not pulled again |
| `Channel.SleepsOnlyOnEmpty` | src/sync.rs:298-328 | when nothing moves any more, a parked receiver means an empty, open queue, and a blocked sender means its own message is queued |
| `Channel.Backpressure` | src/sync.rs:281-296 | `len` is the queue plus pushers not yet enqueued plus pullers not yet debited; at most `size` outstanding messages lack a sender event; a blocked sender has its message queued or its notification under way |
| `Channel.SendExact` | src/sync.rs:281-284 | a message carries a sender event exactly if the queue, the pushers not yet enqueued and the pullers not yet debited come to the capacity; a send is turned away exactly on a closed channel |
| `Channel.SendCall` | src/sync.rs:493-498 | a send on an open channel with room, left alone, is done, with its message last in the queue and no sender event |
| `Channel.ReceiveCall` | src/sync.rs:298-328 | a receive left alone takes the oldest message, else reports a closed channel, else parks last in the deque |
| `Channel.CloseCall` | src/sync.rs:264-278 | a close left alone marks the channel, empties the deque and wakes every parked receiver; on a closed channel it does nothing |
| `Channel.HonestAnswers` | src/sync.rs:493-529 | a sender that is done has its message enqueued, one that was turned away has not, and nobody is told that an open channel is closed |
| `Channel.CloseUnparks` | src/sync.rs:264-278 | once every `close` has finished the deque of receivers is empty and a parked one is about to be woken by a sender |
| `Channel.ClosedOnlyWhenDrained` | src/sync.rs:299-313 | "channel closed" reaches a receiver only when all that was enqueued has been dequeued |
| `Channel.UnboundedKept` | src/sync.rs:369-406 | the unbounded channel never counts, blocks a sender or owes one a notification |
| `Channel.InvKept` | src/sync.rs:264-328 | every step of send, receive and close keeps all ledgers |
| `WaitAll.FiresAtMostOnce` | src/events.rs:818-852 | in every interleaving at most one handle is scheduled, a normal one only after every event was set, an exceptional one only after the abort |
| `WaitAll.FiresExactlyOnce` | src/events.rs:651-683 | once the abort has run, or all events have notified and no wake is under way, exactly one handle was scheduled |
| `WaitAll.FurtherAbortExact` | src/events.rs:833-851 | a further abort schedules the coroutine again if and only if some waker has decremented below zero and not undone it; otherwise it changes nothing |
| `WaitAll.SecondAbortFires` | src/events.rs:669-683 | a reachable state in which a second abort throws into the coroutine again |
| `WaitAll.CounterTells` | src/events.rs:833-846 | the wrapped counter reads zero and one exactly when the true count is zero and one, decrements below zero included |
| `WaitAll.InvKept` | src/events.rs:159-176 | every step of set, notify, register, decrement, undo and abort keeps the count and the one shot |
| `WaitOne.FiresAtMostOnce` | src/events.rs:651-683 | with one event, an optional timeout and any number of aborts, at most one handle is scheduled in every interleaving, and only with its cause: the event set, the timer expired, or an abort |
| `WaitOne.FiresExactlyOnce` | src/events.rs:159-176 | with no call under way and the waker registered, exactly one handle was scheduled if and only if waker, timer or an abort has had its turn, and the waker has had it once the event notified; pruning stale wakers does not disturb this |
| `WaitOne.TurnFires` | src/time.rs:48-52 | once the timer has expired, an abort was called, or the event notified a registered waker, every later state with no call under way has exactly one handle scheduled |
| `WaitOne.TimeoutComes` | src/events.rs:168-175 | a waiter with a timeout that was registered can expire |
| `WaitOne.InvKept` | src/time.rs:48-52 | every step of set, notify, register, timer, prune and abort keeps the one shot |
| `EventObjects.OneShot` | src/events.rs:651-683 | for every sequence of resumes and errors, handles scheduled plus "still armed" never changes: a suspension fires once at most, and has fired exactly when it is no longer armed |
| `EventObjects.ErrorExact` | src/events.rs:669-683 | an error on an armed suspension, whatever it still waits for, throws into its coroutine once and disarms it; otherwise it does nothing; no other suspension is concerned |
| `EventObjects.NotifyExact` | src/events.rs:23-29 | a notification resumes a suspension if and only if it was armed and watches at least as often as it still has events to wait for |
| `EventObjects.StaleIsHarmless` | src/events.rs:50-58 | dropping dead watchers from the back changes no later notification |
| `EventObjects.Runtime.Resume` | src/events.rs:651-667 | the wrapping decrement with its undo is a decrement that stops at zero, and fires exactly on the last |
| `EventObjects.Runtime.Error` | src/events.rs:669-683 | takes the one shot if it is still there |
| `EventObjects.Event.Notify` | src/events.rs:23-29 | every watcher is woken once, in order, and none is left |
| `EventObjects.Event.Set` | src/events.rs:72-82 | only the call that raises the flag returns true and notifies |
| `EventObjects.Event.AddWaker` | src/events.rs:39-47 | a waker added to a set event is woken at once, otherwise it is queued last |
| `EventObjects.Event.RemStaleWakers` | src/events.rs:50-58 | drops the longest tail of dead watchers, never a live one, and a later notification does the same |
| `EventObjects.Event.Prune` | src/events.rs:101-107 | pruning only when the dirty mark is up is enough |
| `BlockingPool.PoolLedgers` | src/blocking.rs:227-261 | `budget` is waiting workers plus sends not yet debited minus rescues not yet credited minus queued tasks; `threads` is counted workers plus reservations being undone; tasks are taken in order, and each that was taken has been run once or is in the hands of one worker |
| `BlockingPool.SpawnExact` | src/blocking.rs:213-236 | told on the threads: a call looks at the thread count exactly if waiting workers and sends not yet debited, less rescues not yet credited, do not exceed the queued tasks; it starts one worker exactly if counted workers and reservations being undone are below the limit |
| `BlockingPool.FreeWorkerSuffices` | src/blocking.rs:228-236 | in a pool at rest with a worker waiting, the next call starts no thread |
| `BlockingPool.TaskAttendedExactly` | src/blocking.rs:239-261 | a queued task has a live worker or a call that may still start one if and only if no call has abandoned it since the last send, through every timeout, retirement and rescue |
| `BlockingPool.AbandonExact` | src/blocking.rs:227-236 | a refused call leaves the pool unattended if and only if the whole thread count is reservations being undone and nobody else is deciding, taking a last look or rejoining |
| `BlockingPool.NeverOrphanedIfUndoAtomic` | src/blocking.rs:213-236 | with the failed reservation and its undo as one step, a pool of at least one thread always has a live worker or a call in flight for a queued task |
| `BlockingPool.RestMeansDrained` | src/blocking.rs:239-261 | when nothing can move, every task has been run unless a call abandoned the queue; and the next call attends to all that is queued |
| `BlockingPool.RefusalExact` | src/blocking.rs:227-236 | a refused call finds no live worker if and only if the whole count is reservations being undone and nobody is between retiring and rejoining |
| `BlockingPool.UndoCanOrphan` | src/blocking.rs:215-218 | a reachable state with a queued task, no worker, every call returned and no step possible |
| `BlockingPool.InvKept` | src/blocking.rs:213-261 | every step of call, worker, timeout, retirement and rescue keeps the ledgers and the attendance |
| `BlockingTask.ExactlyOneOutcome` | src/blocking.rs:59-119 | for any number of racing aborts the target is entered once and its own end is stored, or never and the abort error is; the event is set at most once, after both slots; the thread identity is published while the target is inside, and neither before pick-up nor after the end |
| `BlockingTask.AlwaysSignalled` | src/blocking.rs:159-188 | once the worker and every abort have returned, the event is set |
| `BlockingTask.FirstWins` | src/blocking.rs:79-119 | an abort cancels the task, and a worker enters the target, exactly if nobody has won it before; otherwise the abort writes nothing and the worker leaves it alone |
| `BlockingTask.AbortReachesWorker` | src/blocking.rs:109-117 | an abort that comes while the target is running comes to read the identity of its worker |
| `BlockingTask.InvKept` | src/blocking.rs:102-119 | every step of the worker and of any abort keeps a single owner of the outcome |
| `Trampoline.TrampolinePreservesMeaning` | src/handles.rs:32-91 | for every tree of generators and every interleaving, generators are resumed with the values and exceptions of direct nested evaluation, in that order; the result is the direct result; there is one pending handle exactly until the end |
| `Trampoline.FaithfulKept` | src/handles.rs:341-401 | one handle or thrower, whatever the generator does with it, leaves "inputs so far plus what is to come" equal to direct evaluation |
| `Trampoline.AdvanceSplits` | src/handles.rs:35-80 | stepping a generator to its next yield splits its direct evaluation there |
| `Trampoline.ResumedOnce` | src/events.rs:651-683 | a suspension that has been resumed or thrown into ignores every later outcome |
| `Trampoline.ChainFrame` | src/events.rs:527-553 | what a chain of suspensions will deliver depends only on the older generators and its own suspensions |
| `IoLifetime.TokensNeverDangle` | src/runtime.rs:108-130 | every token of a batch, through its whole dispatch, is the address of an entry owned by the map, the pending-release list or a deregistration in progress, with addresses and descriptors reused; unless it came by a descriptor that the kernel had refused to forget |
| `IoLifetime.LingersExactly` | src/runtime.rs:151-184 | a descriptor known to the kernel names an entry registered under it, or leaving and not yet past the kernel, if and only if the kernel has not refused to forget it |
| `IoLifetime.FailedDeregistrationDangles` | src/runtime.rs:169-172 | a reachable state in which a failed deregistration has left a token in the batch to an entry that is gone |
| `IoLifetime.ReleaseIsSafeAndComes` | src/runtime.rs:71-78 | an entry parked for release is known to the kernel only by descriptors it refused to forget, entries are released with no batch in hand, and every parked entry has its release flagged or about to be |
| `IoLifetime.EveryTokenDispatched` | src/runtime.rs:108-130 | every token that a poll returns is dispatched, once and in order, before the next release |
| `IoLifetime.ReleaseExact` | src/runtime.rs:76-78 | the poller goes through a release exactly if one was flagged since it last looked, and then drops every parked entry |
| `IoLifetime.DeregisterAlone` | src/runtime.rs:164-184 | a deregistration left alone takes the entry out of the map and its descriptor out of the kernel, and parks it with its release flagged; of an entry not in the map it does nothing |
| `IoLifetime.RegisterThenDeregister` | src/runtime.rs:151-184 | registering and then deregistering leaves map and kernel as they were |
| `IoLifetime.InvKept` | src/runtime.rs:71-184 | every step of registration, deregistration, kernel and poll keeps one owner per entry, with addresses and descriptors reused |
| `IoLifetime.OpMoveFits` | src/runtime.rs:151-184 | every step of a registration or deregistration leaves each entry with one owner |
| `Timers.TimerHeap.Peek` | src/time.rs:36-46 | a maximum under the reversed order |
| `Timers.TopIsEarliest` | src/time.rs:36-46 | a maximum under the reversed order has the earliest deadline |
| `Timers.TimerHeap.Drain` | src/runtime.rs:132-146 | releases exactly the timers due at the sampled tick, in nondecreasing deadline order, and leaves exactly the later ones |
| `Timers.LaterExact` | src/runtime.rs:132-146 | what a drain leaves is what the step system keeps |
| `Timers.NeverSleptPast` | src/runtime.rs:80-105 | while the poller is blocked, a timer earlier than its timeout has a wake pending or about to be issued |
| `Timers.TimersAccounted` | src/runtime.rs:132-146 | in every run each timer ever added is in the heap or was released, as often as it was added, none before its deadline; and a poller that blocks with a timeout does so for the deadline of a timer |
| `Timers.ReturnThenDrain` | src/runtime.rs:93-146 | a poll that has returned drains before it sleeps again, and releases all that is due |
| `Timers.DrainThenSleep` | src/runtime.rs:80-92 | the drain keeps exactly the timers not yet due, and the next timeout is the earliest of them |

## Left out

- Weak memory orderings, and the internals of the deque, injector, channel, parker, concurrent map and poll libraries: operations are atomic and sequentially consistent.
- Python calls, reference counts, context variables, and runtime start-up and teardown other than the stop flag and the unparks of `stop_threads`.
- The step systems are on values, not on shared objects: aliasing between threads does not appear in them. The classes model single uninterrupted calls.
- Checkpoints, abort routing and scope cancellation: an abort is one competing `error` call. The early return of the async suspension once aborted, and the part it plays in `is_dead`, are not modelled.
- `Event.clear` and `unnotify`, which race with multi-event waiters without a clear promise; what wakers and aborts do after a second abort has fired.
- The list of results composed by a sentinel: event wakers only ever pass `None`.
- Barrier, the context-manager objects, and the sender and receiver reference counts that call `close`: `close` may be called at any time instead.
- Generators that yield a waiter (that suspension is the subject of `WaitOne`, `WaitAll` and `EventObjects`), and generator bodies with unbounded loops: a body is a finite tree of yields, calls, branches, returns, raises and catches, over arbitrary local functions.
- HandOff.PermitsConserved: is stated for semaphores of fewer than 2^31 permits with no more than 2^31 entries queued at once, as the signed test needs (a lock has no bound); `SignedTestExact`, `HugeSemaphoreBlocks` and `HugeSemaphoreOvertakes` say what happens beyond. A debug build panics where the test wraps.
- SchedulerTheorems.InjectorLookedAfter: excludes unforced pushes elided while every token is with a producer past the last flag and every worker asleep, because the code does strand a handle there (`ThrottledPushCanStrand`); `InjectorSeenToExactly` is the exact form.
- In the blocking pool `recv_timeout` may give up at any time, and a worker's thread always starts once reserved.
- Several readers or several writers of one descriptor: slot and tick are per direction and `arm` overwrites the slot, so one of each is assumed. An edge not yet delivered is reported with all that holds, as edge-triggered polling does; `connect` and `accept` loops are not modelled apart.
- The second poll after an interrupt, signal tokens, and the rounding of clock values; `poll` may return at any time.
- The binary heap of timers is a store with an operation that finds a maximum; heap order inside it is not modelled.
- Delivery of an asynchronous exception to a blocking thread: the abort reads the thread identity and the effect on the target is one of its possible ends.
- TLS, networking above the readiness loop, files, subprocesses, signals, decorators and the `async` mirrors of the same protocols.

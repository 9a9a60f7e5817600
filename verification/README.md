# SlimThreading: models and proofs

SlimThreading is a C library of synchronizers. All of them block threads through one small
protocol, the parker, and keep their waiters in a handful of wait-list designs. This project
models those designs and proves what they promise, over every interleaving or every sequence
of calls.

There are two kinds of model.

* **Step systems**, for code whose threads meet in single compare-and-swaps, exchanges and
  reads of shared words. A state holds the shared fields and one record per thread; `Do`
  makes one step of one thread, and `Exec` or `Reached` is the state after a schedule of
  steps. The number of threads and the schedule are arbitrary, and memory is sequentially
  consistent. A theorem about `Reached(...)` is about every run.
  * `LockClients`, `LockedQueue*`: the locked queue with two clients, the counting semaphore
    and the read/write lock.
  * `NotificationEvent*`: the event with a lock bit, a set bit and a list head in one word.
  * `Barrier*`: the cyclic barrier with two phase buffers.
  * `InitOnceLock`: the lock that passes the duty to initialize from thread to thread.
  * `Parker*`: the parker and its park spot.

  For each of them there are invariants over all runs, what calls return, and that every
  operation can end: from every reachable state there is a continuation in which all
  operations end that need not wait; for the init-once lock exactly if nobody is stranded.
* **Classes with imperative methods**, for code that works under a lock. A method is a
  critical section with the loops and the in-place updates of the original; what cancellers
  do meanwhile is a parameter, so that each contract holds for whatever they do.
  * `StreamBooks`, `StreamQueue`, `Rings`: the stream blocking queue.
  * `BoundedBooks`, `BoundedQueue`: the bounded blocking queue.
  * `Deadlines`, `TimerList`: the delta-encoded raw timer list.
  * `LockedQueueLoops`: the two loops of the locked queue's holder, as loops.

In the step systems a load and the compare-and-swap it feeds are one step, because a failed
swap changes nothing and is retried; where the code does something else after a failed swap,
the two are separate steps. A few fields, named where they are declared, are not part of the
program's state: no step tests them, and they only serve to state properties.

## What the proofs found

* A grant taken back from a cancelled waiter is added to a semaphore's count without a
  bound. The count can become negative if the maximum exceeds 2^30, whatever the initial
  count (`LockedQueueLimits.CountInRangeIff`), and it can pass the maximum for every maximum
  between 1 and 2^31 - 2 (`LockedQueueLimits.MaximumKeptIff`).
* A read/write lock whose reader count has reached its maximum can leave a reader blocked
  that could be served, because only the last reader to leave looks at the queue
  (`LockedQueueLimits.MaximumReadersStrand`). Bounding the number of readers excludes this
  if and only if the bound is below the maximum (`LockedQueueLimits.ReaderBoundIff`). Lost
  wakeups are excluded for all runs in which no reader leaves while the count is at its
  maximum (`LockedQueueTheorems.NoStrandedWaiter`), and from a state at rest such a step
  strands somebody if and only if a reader is at the front of the queue
  (`LockedQueueTheorems.ExitReadStrandsIff`).
* A thread that reads a free init-once lock and fails to take it goes on with the stale
  value and may queue its parker over a lock that has become free again. Nobody then has the
  duty to initialize, and all later callers block. The comment beside the loop says that the
  parker is inserted only if the lock remains busy. `InitOnceLock.StrandedIff` shows that
  this is the only way to strand a waiter, `StrandedForever` that there is no way back, and
  `StrandingRun` gives a run of two threads.
* When the timer thread puts the limit timer in front of the list it subtracts the limit
  from the limit timer itself, which is the first timer by then. Its delay is zero, and the
  deadlines of the other timers still hold (`Deadlines.LimitInFront`). But a timer that is
  set in the same tick stands behind it, so that it is not the first and does not wake the
  timer thread, which then sleeps for the whole limit of 30 ticks. Setting a timer makes
  the thread sleep past a deadline if and only if the limit timer is in the list, the clock
  still shows its base time and the delay is below the limit
  (`TimerList.List.SetRawTimer`, `Deadlines.HiddenByLimit`); `TimerList.SetBehindLimit` is
  an example.
* A periodic timer that is re-armed after its next deadline has passed is set 2^32 ticks too
  late, with one exception: exactly one tick late, when all delays in the list are zero, the
  computed delay is the head's sentinel, the search goes once around the list, and the timer
  is due at once and keeps its pace (`Deadlines.RearmedAt`, `Deadlines.NoDriftIff`,
  `TimerList.List.FindPlace`).

## Model

| member | source | states |
|---|---|---|
| LockedQueueTheorems.NoStrandedWaiter | src/SlimThreading/Semaphore.c:120-308 | in every reachable state in which no thread is in the middle of an operation, the lock is free, the blocked threads are exactly those in the list, and the front request cannot be granted; for the read/write lock if no reader ever left while the reader count was at its maximum |
| LockedQueueTheorems.SemaphoreStrandsNobody | src/SlimThreading/Semaphore.c:120-308 | the same for a semaphore, in every run |
| LockedQueueTheorems.ExitReadStrandsIff | src/SlimThreading/ReadWriteLock.c:597-613 | from a state at rest in which nobody is stranded, an exit that leaves other readers behind strands somebody if and only if the front request is a read, which implies that the count was at its maximum |
| LockedQueueTheorems.QueueIsFifo | src/SlimThreading/LockedQueue.c:31-186 | at every step the list, what the holder has detached and the reversed stack form one queue in order of arrival, which holds each live block once |
| LockedQueueTheorems.ServedInOrder | src/SlimThreading/Semaphore.c:152-183 | the block taken off for a grant is the oldest of all that wait |
| LockedQueueTheorems.HintIsExact | src/SlimThreading/StInternal.h:496-564 | whenever the lock is free the published hint is zero if and only if the list is empty, and otherwise the front's request, although it is written and cleared around the swap of the lock word |
| LockedQueueHint.HeldHintIsReset | src/SlimThreading/StInternal.h:496-564 | from the moment that the holder of the lock has reset the hint until it publishes it again the hint is zero, so that no releaser comes for the lock |
| LockedQueueTheorems.MutualExclusion | src/SlimThreading/LockedQueue.c:82-186 | at most one thread is between locking and unlocking the queue |
| LockedQueueTheorems.UnlinkFindsBlock | src/SlimThreading/Semaphore.c:244-256 | a canceller that holds the lock finds its block linked if and only if it is in the list, never on the stack |
| LockedQueueTheorems.PermitsAreConserved | src/SlimThreading/Semaphore.c:26-112 | at every step the count is not negative, and count, permits held and temporary grants add up to the initial count plus all releases |
| LockedQueueTheorems.CancelledGetsNothing | src/SlimThreading/Semaphore.c:152-207 | no step grants anything to a waiter whose parker was cancelled |
| LockedQueueTheorems.WritersExcludeReaders | src/SlimThreading/ReadWriteLock.c:42-283 | the state word is WRITING exactly when one writer and no reader holds the lock, and otherwise the number of read locks, temporary grants included |
| LockedQueueTheorems.WriterIsAlone | src/SlimThreading/ReadWriteLock.c:597-635 | while a thread holds the write lock no other thread holds the lock in any mode |
| LockedQueueCalls.StepReturns | src/SlimThreading/Semaphore.c:330-470 | what acquire calls return: an attempt ends with the grant of exactly its request, or, if it polls, with nothing and for a reason, and if it does not poll it waits; a waiter is given exactly its request when its parker is granted, and returns only then or after a cancellation, with nothing; no other step gives or takes anything |
| LockedQueueCalls.ReleaseReturns | src/SlimThreading/Semaphore.c:93-112 | a release of any LONG adds it to the count if and only if the sum is between zero and the maximum, and changes nothing otherwise |
| LockedQueueCalls.ExitReturns | src/SlimThreading/ReadWriteLock.c:597-635 | an exit by a holder gives back one reader or the write lock |
| LockedQueueProgress.EveryOperationCanEnd | src/SlimThreading/LockedQueue.c:31-281 | from every reachable state, letting the threads go on, with no further call, timeout or alert, brings every operation to its end, but for acquires that wait; and then nobody waits who could be served |
| LockedQueueSafety.StepSafe | src/SlimThreading/LockedQueue.c:31-281 | every step of every thread keeps the queue invariant, the permit ledger, the account of lock-only waiters and the debt: a free lock with a front that can be served has a thread that still owes it a check, unless a reader has left while the count was at its maximum |
| LockedQueueLimits.CountInRangeIff | src/SlimThreading/Semaphore.c:77-88 | for every initial count, the count never becomes negative in any run if and only if the maximum is at most 2^30 |
| LockedQueueLimits.MaximumKeptIff | src/SlimThreading/Semaphore.c:77-112 | for every initial count, the count never passes the maximum in any run if and only if the maximum is zero or the largest number that the field can hold |
| LockedQueueLimits.OverfillRun | src/SlimThreading/Semaphore.c:77-112 | a run of three threads, for every initial count and every request q, that ends with the count at the maximum plus q, in 32 bits |
| LockedQueueLimits.MaximumReadersStrand | src/SlimThreading/ReadWriteLock.c:597-613 | a run that ends with a blocked reader that could be served, once the reader count was at its maximum |
| LockedQueueLimits.ReaderBoundIff | src/SlimThreading/ReadWriteLock.c:597-613 | every run with at most m readers at any time leaves nobody stranded at rest if and only if m is below the maximum reader count |
| LockClients.PendingIsCanTake | src/SlimThreading/Semaphore.c:123-135 | the check for pending releases announces a grant if and only if the acquire test would make it |
| LockedQueueLoops.LockedList.ProcessLockQueue | src/SlimThreading/LockedQueue.c:31-71 | the loop over a detached stack puts the live blocks, oldest first, behind the list as it was, lock-only blocks on the private queue, and marks the others; it reports a change if and only if there is a live block |
| LockedQueueLoops.LiveInOrder | src/SlimThreading/LockedQueue.c:53-59 | of two live blocks the one further down the stack comes first in the list |
| LockedQueueLoops.ProcStepsMatchLoop | src/SlimThreading/LockedQueue.c:43-71 | the holder's steps in the step system, if nobody interferes, end in what the loop computes |
| LockedQueueLoops.LockedList.ReleaseWaiters | src/SlimThreading/Semaphore.c:140-207 | the release loop serves a prefix of the list in order, wakes exactly those that are not cancelled, each of whom can be served when its turn comes, pays for these alone, marks the others as unlinked, and stops only when the front cannot be served |
| LockedQueueLoops.GrantsArePaid | src/SlimThreading/Semaphore.c:53-70 | after a series of grants a semaphore's count has dropped by the sum of the requests |
| LockedQueueLoops.UndoneIsUndone | src/SlimThreading/Semaphore.c:77-88 | taking back a grant restores the state word, for all clients and requests |
| StreamQueue.StreamBlockingQueue.OneStream | src/SlimThreading/StreamBlockingQueue.c:127-233 | in every state of the queue, what a write moved is a prefix of its buffer and one contiguous block of the stream (the bytes read, then those not yet read), and what a read got is one contiguous block of the bytes written |
| StreamBooks.BlocksInOrder | src/SlimThreading/StreamBlockingQueue.c:408-569 | the blocks of writes, and those of reads, lie in the stream in the order in which the calls took the lock |
| StreamBooks.ServedKeeps | src/SlimThreading/StreamBlockingQueue.c:139-193 | serving the first blocked operation keeps the wait list in order, of one kind, with bytes left to move, and no blocked operation outside it |
| StreamBooks.ServedAppends | src/SlimThreading/StreamBlockingQueue.c:156-160 | the bytes it moves go to the end of the stream of its kind and of no other |
| StreamBooks.ShutReleasesAll | src/SlimThreading/StreamBlockingQueue.c:735-745 | disposal releases every blocked operation whose parker it can lock, once, and touches no other |
| StreamQueue.StreamBlockingQueue.constructor | src/SlimThreading/StreamBlockingQueue.c:670-690 | a new queue is empty and satisfies the invariant |
| StreamQueue.StreamBlockingQueue.WriteEx | src/SlimThreading/StreamBlockingQueue.c:59-261 | a write keeps the invariant (bytes written are bytes read plus bytes unread; readers wait only for an empty ring and writers only for a full one), moves bytes only for itself and blocked operations, and is left incomplete only with a full ring; a blocked reader stays parked or is released with success, or is cancelled if and only if a canceller had locked its parker, and one that was locked before it was looked at gets no byte |
| StreamQueue.StreamBlockingQueue.ReadEx | src/SlimThreading/StreamBlockingQueue.c:338-602 | a read keeps the invariant and is left incomplete only with an empty ring; what is said of blocked readers for a write holds here for blocked writers, over both loops |
| StreamQueue.StreamBlockingQueue.HandToReaders | src/SlimThreading/StreamBlockingQueue.c:127-195 | the copy loop to blocked readers ends, whatever cancellers do, with the write complete or no reader left; it releases those that it completes and cancels exactly those whose parkers it finds locked |
| StreamQueue.StreamBlockingQueue.DrawFromWriters | src/SlimThreading/StreamBlockingQueue.c:440-503 | the copy loop from blocked writers ends with the read complete or no writer left, and treats them so too |
| StreamQueue.StreamBlockingQueue.RefillRing | src/SlimThreading/StreamBlockingQueue.c:510-569 | the loop that refills the ring ends with a full ring or no writer left, and treats them so too |
| StreamQueue.StreamBlockingQueue.Put | src/SlimThreading/StreamBlockingQueue.c:209-232 | copying to the ring in one or two parts appends exactly these bytes to its contents |
| StreamQueue.StreamBlockingQueue.Take | src/SlimThreading/StreamBlockingQueue.c:408-434 | copying from the ring in one or two parts removes exactly the first bytes of its contents |
| StreamQueue.StreamBlockingQueue.CheckForWait | src/SlimThreading/StreamBlockingQueue.c:235-255 | an incomplete call gives up if it polls and otherwise is the last in the wait list |
| StreamQueue.StreamBlockingQueue.FinishCancelled | src/SlimThreading/StreamBlockingQueue.c:297-310 | a cancelled call leaves the wait list, if it is still there, and reports what it moved, with success if that is all |
| StreamQueue.StreamBlockingQueue.FinishReleased | src/SlimThreading/StreamBlockingQueue.c:285-295 | a released call reports disposal only if it moved nothing; one released with success is complete |
| StreamQueue.StreamBlockingQueue.Dispose | src/SlimThreading/StreamBlockingQueue.c:699-795 | disposal hands the callback exactly the unread bytes, in order |
| Rings.AfterIsModulo | src/SlimThreading/StreamBlockingQueue.c:214-229 | the tail that the code computes by comparison is head plus count modulo the capacity |
| Rings.PutAppends | src/SlimThreading/StreamBlockingQueue.c:214-232 | elements written in one or two parts stand behind those that were in the ring |
| BoundedQueue.BoundedBlockingQueue.DeliveredInOrder | src/SlimThreading/BoundedBlockingQueue.c:106-145 | in every state of the queue, the i-th delivery is the i-th item added, it goes to a take of its own, and exactly the takes that got an item have one; takes are served in order of arrival unless the queue is last in, first out |
| BoundedBooks.SweptFindsFirst | src/SlimThreading/BoundedBlockingQueue.c:107-133 | what the release loops find is the first entry of the wait list whose parker can be locked; no entry before it could be, and these, and no others, have been cancelled |
| BoundedBooks.AddedAt | src/SlimThreading/BoundedBlockingQueue.c:164-190 | an item is among those added if its add succeeded, behind the items of all earlier adds |
| BoundedBooks.AcceptKeeps | src/SlimThreading/BoundedBlockingQueue.c:260-277 | a blocked add that is released adds exactly its item, and the wait list stays in order |
| BoundedBooks.GiveKeeps | src/SlimThreading/BoundedBlockingQueue.c:107-123 | a blocked take that is released gets exactly the item, as the next delivery |
| BoundedBooks.ShutReleasesAll | src/SlimThreading/BoundedBlockingQueue.c:648-658 | disposal releases every blocked operation whose parker it can lock, once, and touches no other |
| BoundedQueue.BoundedBlockingQueue.AddEx | src/SlimThreading/BoundedBlockingQueue.c:70-165 | an add succeeds at once if and only if the ring is not full, and otherwise polls or blocks; its item goes to the first blocked take whose parker can be locked, which is the next delivery and is released with success, and to the end of the abstract queue if there is none; those before it in the list were cancelled, and no other operation changes; the invariant (items added are items delivered plus items queued; takes wait only for an empty ring, adds only for a full one) is kept |
| BoundedQueue.BoundedBlockingQueue.TakeEx | src/SlimThreading/BoundedBlockingQueue.c:214-313 | a take gets the first item of the abstract queue if there is one, and the item of the first blocked add whose parker can be locked goes to the end of it; otherwise it polls, reports disposal or blocks at the end or, last in first out, at the start of the list |
| BoundedQueue.BoundedBlockingQueue.TryTake | src/SlimThreading/BoundedBlockingQueue.c:350-433 | a try gets the first item if and only if there is one, and changes nothing otherwise |
| BoundedQueue.BoundedBlockingQueue.TakePrologue | src/SlimThreading/BoundedBlockingQueue.c:442-548 | a take-any takes nothing if its parker was locked elsewhere |
| BoundedQueue.BoundedBlockingQueue.HandToTaker | src/SlimThreading/BoundedBlockingQueue.c:107-133 | the loop gives the item to the first take that can be locked, which leaves the list with all before it and is the next delivery, or leaves none in the list if no take can be locked |
| BoundedQueue.BoundedBlockingQueue.ReleaseAdder | src/SlimThreading/BoundedBlockingQueue.c:260-277 | the loop puts the item of the first add that can be locked at the end of the abstract queue, or changes it not at all and leaves none in the list if no add can be locked |
| BoundedQueue.BoundedBlockingQueue.FinishCancelled | src/SlimThreading/BoundedBlockingQueue.c:49-62 | a cancelled operation leaves the list, which keeps all others in their places, and has passed no item |
| BoundedQueue.BoundedBlockingQueue.FinishReleased | src/SlimThreading/BoundedBlockingQueue.c:167-181 | a released operation reports success if and only if its item has passed |
| BoundedQueue.BoundedBlockingQueue.Dispose | src/SlimThreading/BoundedBlockingQueue.c:613-709 | disposal hands the callback exactly the queued items, in order |
| Deadlines.DeadlinesAreSums | src/SlimThreading/TimerList.c:183-237 | the deadline of an entry is the base time plus the delays up to and including its own; no such sum wraps, and none reaches the sentinel if no timer was ever re-armed one tick late |
| Deadlines.SortedByDeadline | src/SlimThreading/TimerList.c:197-220 | the delta list is sorted by absolute deadline |
| Deadlines.SlideSplitsDues | src/SlimThreading/TimerList.c:151-173 | sliding the base time takes off only timers that are due, leaves none that is overdue, and changes no deadline |
| Deadlines.SlideKeepsPlaces | src/SlimThreading/TimerList.c:151-173 | after a slide every timer is in exactly one of the list, the fired and the purged ones, and none is lost |
| Deadlines.FiredOrPurged | src/SlimThreading/TimerList.c:155-168 | each timer taken off is fired once if its parker was won, and marked as purged otherwise |
| Deadlines.InsertKeepsDeadlines | src/SlimThreading/TimerList.c:203-220 | inserting by delays is inserting by deadline into the plain list of deadlines |
| Deadlines.InsertedAt | src/SlimThreading/TimerList.c:203-220 | the new timer stands behind all that are due no later and before all that are due later |
| Deadlines.UnlinkKeepsDeadlines | src/SlimThreading/TimerList.c:443-459 | unlinking removes one deadline and keeps the others |
| Deadlines.LimitInFront | src/SlimThreading/TimerList.c:389-394 | a limit timer without delay in front of the list changes no deadline |
| Deadlines.HiddenByLimit | src/SlimThreading/TimerList.c:203-229 | after a set the new timer is the first, or some timer is due before the planned end of the sleep if and only if one was before, or the new one is and the limit timer stands in front of it |
| Deadlines.SlideDropsLimit | src/SlimThreading/TimerList.c:151-173 | the limit timer is off the list as soon as the base time moves |
| Deadlines.Elapsed | src/SlimThreading/TimerList.c:152 | the 32-bit difference of two tick counts is the time between them if that is less than 2^32 |
| Deadlines.RearmedAt | src/SlimThreading/TimerList.c:327 | the next deadline is a period after the last one if the timer is re-armed by then, or one tick late while all delays in the list are zero, and 2^32 ticks later than that otherwise; the computed delay is the sentinel exactly one tick late |
| Deadlines.NoDriftIff | src/SlimThreading/TimerList.c:291-330 | after any number of re-armings the deadline is the first plus so many periods, plus 2^32 for each time it was not re-armed in time, so that it does not drift if and only if it always was |
| Deadlines.SleepEndsOnTime | src/SlimThreading/TimerList.c:419-421 | the sleep after firing ends at the planned time, or at once if that has passed |
| TimerList.List.AdjustBaseTime | src/SlimThreading/TimerList.c:139-174 | the loop keeps the invariant for the new base time and fires or purges exactly the timers that a slide takes off |
| TimerList.List.FindPlace | src/SlimThreading/TimerList.c:202-210 | the search ends with the place and the remaining delay that a plain insertion gives, where a delay that is the sentinel has become zero if and only if all others are zero |
| TimerList.List.Insert | src/SlimThreading/TimerList.c:197-220 | the timer and the one behind it get the right delays, and the head its sentinel |
| TimerList.List.SetRawTimerWorker | src/SlimThreading/TimerList.c:183-237 | setting a timer inserts its deadline into the list of deadlines, and wakes the timer thread if and only if it is the first and the thread's parker can be locked; a thread that is not woken sleeps past a deadline if and only if it did before, or the limit timer is in the list and the new timer is due before the planned end |
| TimerList.List.SetRawTimer | src/SlimThreading/TimerList.c:245-283 | a timer is due after its delay from now, and those that are due before the set are fired or purged as by the timer thread, to be handed out in its next round; the sentinel is refused as a delay; while the thread's parker can be locked, a set makes the thread sleep past a deadline if and only if the limit timer is in the list, the base time is the current tick and the delay is below the limit |
| TimerList.SetBehindLimit | src/SlimThreading/TimerList.c:389-394 | an example by calls: a round of the timer thread and a timer for 10 ticks in the same tick, after which the thread sleeps for 30 |
| TimerList.List.SetPeriodicRawTimer | src/SlimThreading/TimerList.c:291-329 | a periodic timer is due a period after its last deadline, 2^32 ticks later if that has passed, and at once if it is re-armed one tick late while all delays are zero |
| TimerList.List.UnlinkRawTimer | src/SlimThreading/TimerList.c:443-459 | a cancelled timer is off the list afterwards, and a purged one is left alone |
| TimerList.List.PlaceLimit | src/SlimThreading/TimerList.c:388-397 | the timer thread plans to sleep at most the limit and no longer than until the next of the deadlines that are in the list by then, and exactly so long if that is nearer; the limit timer is in the list if and only if it is not |
| TimerList.List.TimerThreadRound | src/SlimThreading/TimerList.c:362-403 | a round hands out the timers that are due and won, and those fired before, purges those that are due and lost, and keeps all other deadlines, none of which is overdue |
| NotificationEventSafety.SetLosesNobody | src/SlimThreading/NotificationEvent.c:115-205 | a waiter that was in the list before the last successful set, and is still blocked, is in the hands of a thread that will unpark it, even if the set was left to the holder of the lock bit |
| NotificationEventSafety.RestingWaitersAreListed | src/SlimThreading/NotificationEvent.c:249-310 | when no thread is in the middle of an operation, blocked threads are exactly those in the list, the event is not set, and they came after its last set |
| NotificationEventSafety.BlockIsInOnePlace | src/SlimThreading/NotificationEvent.c:118-205 | a linked block is once in exactly one of the event's list and the private lists |
| NotificationEventSafety.SetMeansEmpty | src/SlimThreading/NotificationEvent.c:378-408 | a set event whose lock bit is clear has an empty list, and a holder that has seen the set bit finds the state unchanged |
| NotificationEventSafety.WriteSetKeeps | src/SlimThreading/NotificationEvent.c:179-188 | the plain write of the set state overwrites nothing, and no block is lost |
| NotificationEventSafety.FastUnlinkDropsNobody | src/SlimThreading/NotificationEvent.c:230-241 | the swap of the head for an empty list, which does not look behind the head, never drops another waiter |
| NotificationEventSafety.SpinnersBlockIsUnparked | src/SlimThreading/NotificationEvent.c:201-213 | a thread that spins until its block is unlinked has its block on the list of a thread that unparks |
| NotificationEventSafety.DoKeeps | src/SlimThreading/NotificationEvent.c:41-435 | every step of waiting, unlinking, setting, resetting and cancelling keeps the invariant |
| NotificationEventCalls.StepReturns | src/SlimThreading/NotificationEvent.c:233-435 | what calls return: a wait succeeds at once if and only if the event is set, polls with failure otherwise or blocks in the list; a blocked wait succeeds only after a set that came since it was inserted, and fails only if it was cancelled and its block is taken off; a set leaves the event set and a reset leaves it reset, and both return what it was; nothing else changes the event or what a call returned |
| NotificationEventCalls.NoSuccessWithoutSet | src/SlimThreading/NotificationEvent.c:249-310 | in a run without a call of set from an event that is not set, no wait succeeds |
| NotificationEventCalls.EveryOperationCanEnd | src/SlimThreading/NotificationEvent.c:118-241 | from every reachable state, letting the threads run brings every operation to its end, but for blocked waits that nobody has released |
| NotificationEventCalls.SetEndsWait | src/SlimThreading/NotificationEvent.c:339-377 | after a set a wait that was blocked can return with success, if only the threads run |
| NotificationEventCalls.CancelEndsWait | src/SlimThreading/NotificationEvent.c:296-310 | after a timeout or an alert a wait that was blocked can return with failure, if only the threads run |
| Barrier.PhasesInStep | src/SlimThreading/Barrier.c:259-350 | nobody returns from a phase with success before all partners have arrived in it, partners are at most a phase apart, and the action runs exactly once for each phase, in order and after all have arrived |
| Barrier.ReusedBufferIsIdle | src/SlimThreading/Barrier.c:61-86 | while one thread finishes a phase, all partners are in it and nobody is on the buffer that is set up again |
| Barrier.NoPartnerFails | src/SlimThreading/Barrier.c:275-285 | no partner is told that the phase has all its partners already |
| Barrier.NoPartnerIsLeftBehind | src/SlimThreading/Barrier.c:305-350 | a partner still on the earlier phase finds its event set, or a thread about to set it |
| Barrier.WordCountsArrivals | src/SlimThreading/Barrier.c:18-26 | the packed word holds the number of partners and of those that have arrived and not timed out, in 32 bits |
| Barrier.UndoTakesBack | src/SlimThreading/Barrier.c:322-349 | a timed-out partner takes back exactly its own arrival, so that the count of its phase drops by one and nothing else changes, unless all partners have arrived in its phase, and then it waits for the event and no buffer changes |
| BarrierProgress.StepReturns | src/SlimThreading/Barrier.c:246-350 | a partner leaves a phase with success only with the event of that phase set, and otherwise only after a timeout, with nothing counted; one that has entered arrives in the current phase, and waits or finishes it |
| BarrierProgress.WaitEnds | src/SlimThreading/Barrier.c:305-344 | a waiting partner whose event is set returns with success, and one that times out goes on to take its arrival back |
| BarrierProgress.PhaseCanComplete | src/SlimThreading/Barrier.c:246-350 | from every reachable state the partners can complete the phase without a timeout, and all return from it with success |
| InitOnceLock.OneDuty | src/SlimThreading/InitOnceLock.c:37-99 | at most one thread has the duty to initialize, and one has it exactly while the chain of parkers ends in the busy value |
| InitOnceLock.ReleasedOnce | src/SlimThreading/StInternal.h:960-1015 | a thread waits exactly while its parker is in one place, the chain or the hands of one thread, and there once |
| InitOnceLock.CompletionIsFinal | src/SlimThreading/StInternal.h:960-980 | after completion nobody has the duty, each waiter is on a list to be released, and a thread whose last call told it to initialize made that call before |
| InitOnceLock.CallReturns | src/SlimThreading/InitOnceLock.c:37-120 | a call that returns without the duty says that the target is ready, and it is; one that returns with it says so, and its thread alone has the duty; no step changes what another call has returned |
| InitOnceLock.EveryCallCanEndIff | src/SlimThreading/InitOnceLock.c:37-99 | a run can be continued so that the target becomes ready and every call ends if and only if no thread has queued its parker over a free lock in it |
| InitOnceLock.FreeKeeps | src/SlimThreading/StInternal.h:990-998 | a failed initialization without waiters frees the lock, and nobody has the duty then |
| InitOnceLock.ReadyIsTrue | src/SlimThreading/InitOnceLock.c:54-57 | who is told that the target is ready finds it available |
| InitOnceLock.PopTakesLast | src/SlimThreading/StInternal.h:1000-1013 | a failed initialization takes the waiter that was queued last off the chain; it was waiting, all waiters go on waiting, and nobody else has the duty |
| InitOnceLock.PassGivesDuty | src/SlimThreading/StInternal.h:1009-1011 | whatever happened in between, that waiter is then released with the duty, it alone has it, and exactly the other waiters still wait |
| InitOnceLock.StrandedIff | src/SlimThreading/InitOnceLock.c:75-92 | some waiter is stranded after a run if and only if, at some step, a thread that had failed to take the free lock queued its parker over it |
| InitOnceLock.StrandedForever | src/SlimThreading/InitOnceLock.c:75-99 | a stranded waiter stays blocked in every continuation |
| InitOnceLock.StrandingRun | src/SlimThreading/InitOnceLock.c:83-89 | a run of two threads that strands one |
| Parker.OneWinner | src/SlimThreading/StInternal.h:68-132 | at most one locker or canceller wins, and one has won exactly when the lock count is zero |
| Parker.ReturnsWinnersStatus | src/SlimThreading/Parker.c:173-288 | the owner returns the status of the winner |
| Parker.NoLostWakeup | src/SlimThreading/StInternal.h:138-158 | an owner that cannot go on has an unlocked parker, or a winner that is still about to unpark it |
| Parker.SpotIsLeftClean | src/SlimThreading/ParkSpot.c:199-281 | once the owner has returned its park spot is not signalled and never will be |
| Parker.OwnerKeeps | src/SlimThreading/ParkSpot.c:202-281 | every step of the owner, through timeouts, alerts and unconditional waits, keeps the invariant |
| ParkerCalls.OwnStatusHasCause | src/SlimThreading/Parker.c:190-275 | an owner that nobody else has locked returns a timeout only if its wait timed out, an alert only if its alerter was set, and a failure only if it got no park spot |
| ParkerCalls.LockedOwnerReturns | src/SlimThreading/StInternal.h:138-158 | from every reachable state in which the parker is locked, the owner returns if it and the winner just go on |
| ParkerCalls.TimeoutReturns | src/SlimThreading/ParkSpot.c:268-276 | a bounded wait that times out with the parker open returns the timeout |
| ParkerCalls.OwnerGivesUp | src/SlimThreading/Parker.c:198-262 | an owner that sees its alerter set, before or after it has a park spot, or that gets no park spot, returns so at once if nobody has locked its parker |
| ParkerCalls.LockedOwnerWaits | src/SlimThreading/Parker.c:204-269 | if somebody has, it waits without a bound to be unparked, whatever alert or timeout there was |
| ParkerCalls.LastLockerWins | src/SlimThreading/StInternal.h:68-100 | a parker with a count that nobody cancels is won by a locker if and only if at least so many have tried |
| ParkerCalls.CancellerWins | src/SlimThreading/StInternal.h:106-132 | whoever cancels a parker that is not locked wins it, whatever its count |
| ParkerCalls.CallbackLocks | src/SlimThreading/StInternal.h:68-190 | a callback that interrupts the owner takes one lock like everybody else, or cancels, and wins with the last one |

## Left out

- Wait-all requests, and requests that condition variables put into the queues of the semaphore and the read/write lock.
- The prologue of wait-any on a semaphore or a read/write lock; a blocked request there is the wait-any request of a single wait.
- Lists are sequences of thread or timer identities, not linked records; the intrusive list operations of StBase.h appear as the updates they make.
- The parker is one field in the models of the synchronizers; its own protocol is the subject of `Parker`.
- LockedQueueTheorems.NoStrandedWaiter: makes no claim about a run of the read/write lock after a reader has left while the count was at its maximum. Such a run can strand a reader, and a later exit can serve it; `LockedQueueTheorems.ExitReadStrandsIff` and `LockedQueueLimits.ReaderBoundIff` are the exact statements about one step and about all runs.
- StreamQueue.StreamBlockingQueue.ReadEx: the reader's buffer is the sequence of bytes it has got, so that overlapping buffers of different callers are not modelled.
- TimerList.List.UnlinkRawTimer: requires that the timer is in the list or purged, which holds for a caller that has won its parker; a timer on the fired list keeps stale links.
- The order of callbacks within one batch of fired timers.
- InitOnceLock.FreeKeeps: a failed swap from busy to free in InitTargetFailed is a retry here; the code as written goes on to read through the busy value.
- Adding and removing barrier partners; the set of partners is fixed, and each is one thread.
- Barrier waits use the event as a flag; the event's own protocol is the subject of `NotificationEvent`.
- Wait-any and wait-all blocks on notification events.
- Strict fairness against threads that barge past the semaphore's queue; the code does not promise it.
- Registration of parkers with alerters; an alert is a canceller that may act at any time.
- Callback parkers, registered waits and takes, the timer and the alerter, which repeat these protocols.
- SpinLock, Lock, Future, CountDownEvent, Exchanger, RendezvousChannel, ConditionVariable, ReadUpgradeWriteLock, SynchronizationEvent, ResourceTable and the reentrant wrappers.
- Heap failure, spin counts, weak memory, COM apartments, user-mode scheduling and the Windows calls themselves; tick counts are a clock that never goes back and advances by less than 2^32 between two adjustments.

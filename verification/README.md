# A verified model of ntt

ntt is a multi-threaded event loop in C: serial task queues scheduled over a
pool of workers, timers per queue with lazy cancellation, one timer service for
all queues driven by generations, and a reference-counted protocol for
descriptor events. This project models these parts in Dafny 4.11 and proves
what they promise, for every input of the data structures and for every
interleaving of the protocols. `dafny verify dfyconfig.toml` checks all of it.

## How it is laid out

Protocols that several threads take part in are transition systems. A state
holds any number of threads, tasks, slots and handles; a step is one atomic
operation or one section under a lock; an execution is any sequence of steps
from the initial state. Each has an invariant kept by every step, and theorems
about every state of every execution.

| files | what they model |
|---|---|
| `EventProtocol`, `EventInvariant`, `EventBalance`, `EventSafety`, `EventTheorems`, `EventNotice`, `EventProgress` | one slot of the event slab over any number of tenancies: dispatchers, cancellers, stale handles, side tasks, cancellation reports (src/event.c) |
| `EventCancel` | what a cancellation still lets through: the exact condition for a call after it, and an execution with one |
| `EventWord` | the packed state word of an event, its compare-and-swap loops attempt by attempt, and that they refine the steps of `EventProtocol`; handles |
| `TimerProtocol`, `TimerInvariant`, `TimerContextSteps`, `TimerServiceSteps`, `TimerTheorems`, `TimerProgress`, `TimerLedger`, `TimerBatches` | how queues register deadlines and the service wakes them; the timerfd; the account of every timer armed (src/queue.c, src/timer_service.c, src/timer.c) |
| `QueueProtocol`, `QueueInvariant`, `QueueTheorems`, `QueueBodies`, `QueueProgress` | pushes, the combine, workers, references and wakeups of serial queues (src/queue.c, src/combine.c, src/loop.c) |
| `LoopProtocol`, `LoopWork`, `LoopInvariant`, `LoopTheorems`, `LoopPosts` | a loop as a whole: its workers, all its queues and all its events with the one count of work they share, the handles the events hold, and the tasks they post (src/loop.c, src/event.c) |
| `LoopStop` | the workers of a loop: references, rendezvous and stop tasks (src/loop.c, src/worker.c) |
| `LocalQueue` | the local queue of a worker and the signal that wakes it (src/worker.c) |

The data structures and single-threaded loops are classes and methods that
change fields and arrays in place.

| files | what they model |
|---|---|
| `BinaryHeap` | the sifts, the rebuild and the filter both heaps are made of, as functions on sequences and as methods on arrays |
| `TimerHeapModel`, `TimerHeapLemmas`, `TimerMap`, `TimerHeap` | the timer heap of a queue against an ordered map (src/timer_heap.c); a task is an id and a finite script of pushes, cancels and peeks it performs when it runs |
| `QueueHeap` | the heap of the timer service (src/queue_heap.c) |
| `SerialModel`, `SerialService`, `SerialTurns` | the drain loops with their limits, over tasks that push to any queue, and how many turns they take (src/queue.c, src/combine.c) |
| `IntrusiveList` | the circular list (src/list.h) |
| `SlabLayout`, `Slab` | index arithmetic on 32 bits, the free list and the generations (src/slab.h, src/slab.c) |
| `Tally`, `Tasks`, `Word32` | sums over the threads of a state, tasks with the pushes their bodies make, arithmetic on 32 bits |

## Where code and promise differ

- include/ntt/event.h:45-46 says that no handler runs once cancel has returned.
  `EventCancel.HandlerAfterCancel` is an execution in which one starts after
  that. The exact condition is `EventCancel.LateCallExactly`: a serialized side
  makes one call after CLOSED if and only if an agent that had taken it was on
  its way to a call at that moment; and `EventCancel.SilentExactlyIfNotBusy`:
  from the moment cancel has returned the side is silent if it is not BUSY
  then, and otherwise runs a handler at that moment or once more. From the
  first cancelled callback on no handler runs
  (`EventTheorems.NoHandlerOnceReported`).
- src/slab.h:36-43 documents 2^32 - 1 objects. The offset of an object within
  its block is a 32-bit product (src/slab.h:182). `SlabLayout.SeparateExactly`
  gives the exact condition for the objects of a block to be apart, and
  `SlabLayout.WrapsForOneCacheLine` the first block for which it fails with the
  smallest objects.
- `size * 4` at src/timer_heap.c:187 wraps at 2^30 entries.
  `TimerHeap.ShrinkIsSafe` gives the exact condition for a shrink to keep all
  entries, `TimerHeap.ShrinkLosesEntries` a call that loses one. The doubling at
  src/timer_heap.c:133-135 ends if and only if the count is at most 2^31
  (`TimerHeap.GrowthEndsExactly`). The class is verified below 2^30 entries.
- src/combine.h:90 says that the limited service returns 1 if it has to be
  called again. The code returns 1 when it has made all `loop_limit` turns,
  whether or not the last of them left something. `SerialTurns.ResultExactly`:
  with the number of turns needed, which exists for all tasks
  (`SerialTurns.TurnsToDrain`) and is the sum of the lengths over the limit,
  rounded up, for tasks that push nothing (`SerialTurns.PlainDrainsIn`), the
  header is right if and only if that number is not `loop_limit`.
  `SerialTurns.OneWithNothingLeft` is the smallest input for which it is wrong.

## Model

| member | source | states |
|---|---|---|
| `EventTheorems.ReferencesConserved` | src/event.c:97-115 | in every reachable state `refs` is the start reference, until the canceller that set CLOSED has dropped it, plus what dispatchers, cancellers, stale-handle users and posted or running side tasks hold; positive exactly while a tenant has not begun to report |
| `EventTheorems.ZeroStays` | src/event.c:366-386 | no step of any agent takes a reference from zero |
| `EventTheorems.ZeroIsLeftByOpening` | src/event.c:410-458 | a count of zero is left only by opening the slot for a new tenant |
| `EventTheorems.TenancyEndsOnce` | src/event.c:286-347 | if the slot is open again after its count reached zero, the generation has moved and the old tenancy is on record: every side reported once, writable before readable, the descriptor deleted once |
| `EventTheorems.EndingLasts` | src/event.c:317-386 | a tenancy that has begun to report goes on to the end, whatever else happens |
| `EventTheorems.TenanciesOnRecord` | src/event.c:286-347 | finished tenancies have distinct generations and each is complete |
| `EventTheorems.ReportedAsConfigured` | src/event.c:310-386 | the reports of a finished tenancy: writable then readable with two queues, the side of the queue with one, and with none the readable side if only reading was of interest and the writable side otherwise |
| `EventTheorems.HoldingsConserved` | src/event.c:286-308 | queue references and loop work outstanding are those of the present tenant plus what finishing agents have yet to give back, so each is given back once |
| `EventTheorems.HandlersExclude` | src/event.c:215-248 | for a serialized event, handlers of one side never overlap, whichever way they were called: by a dispatcher, by a posted task, or directly |
| `EventTheorems.BusyCountsServers` | src/event.c:153-210 | BUSY is set exactly while one agent has the side taken |
| `EventTheorems.ReadinessIsClaimed` | src/event.c:480-529 | a side that is READY, not BUSY and not CLOSED has a dispatcher between publishing and claiming it |
| `EventNotice.NotificationIsKept` | src/event.c:463-529 | a side the kernel has reported to a current handle and that no call has been started for since: unless the event is closed, an agent is on its way to publish or call it, or it is READY with somebody in its handler or about to claim it |
| `EventNotice.ReportIsPublished` | src/event.c:82-95 | a dispatcher of a serialized event with a current handle publishes the readable side if and only if reading is of interest and the kernel reported input, error or hangup, and the writable side likewise with output; it leaves at once only if neither holds |
| `EventNotice.ReportIsCalled` | src/event.c:480-501 | of an event that is not serialized exactly these sides are called |
| `EventNotice.PublishedBeforeClaimed` | src/event.c:503-526 | all sides of a report are published in one step before any is claimed, and the writable one is claimed first |
| `EventNotice.ReadableCalledFirst` | src/event.c:493-501 | an event that is not serialized is called on the readable side, then on the writable one |
| `EventNotice.ReportIsOwed` | src/event.c:490-529 | from the check of a current handle on, the reported side is owed a call and its dispatcher is on its way to publish or make it |
| `EventNotice.OwedUntilCalled` | src/event.c:215-248 | it stays owed until an agent enters the handler of that side |
| `EventNotice.NoticeHolds` | src/event.c:463-595 | in every reachable state what is owed is READY, or has an agent on its way, or the event is closed, and a cancel that was asked for has closed the event or is about to |
| `EventNotice.CancelIsAsked` | src/event.c:574-586 | a cancel goes on to set CLOSED exactly if its handle is current when it is checked |
| `EventNotice.AskedIsClosed` | src/event.c:574-592 | a cancel that found its handle current has set CLOSED or is about to |
| `EventTheorems.AtMostOneLateCall` | src/event.c:185-223 | after CLOSED each side of a serialized event makes at most one more call, counting the one on its way |
| `EventCancel.LateCallExactly` | src/event.c:153-223 | with the step that set CLOSED: the side has made a later call or has it coming if and only if an agent that had taken it was on its way to a call at that moment; a side not BUSY then makes none; by the time the reports start none is still coming |
| `EventCancel.LateCallsWereComing` | src/event.c:185-223 | between any two moments after CLOSED in one tenancy, the calls made are exactly those that were on their way and no longer are |
| `EventCancel.SilentExactlyIfNotBusy` | src/event.c:574-595 | from any moment after CLOSED, so from the return of cancel: not BUSY means no handler of the side ever again in this tenancy; BUSY means one is running or exactly one more call is made |
| `EventCancel.HandlerAfterCancel` | src/event.c:220-222 | an execution in which the only canceller has returned, no handler has run, and a posted side task then starts one |
| `EventTheorems.ClosedIsNotClaimed` | src/event.c:153-177 | after CLOSED no side is taken anew |
| `EventTheorems.NoHandlerOnceReported` | src/event.c:317-336 | once a cancelled callback has started no handler runs or can run, nobody holds a reference, and EPOLL_CTL_DEL has happened exactly once |
| `EventTheorems.StaleHandleIsHarmless` | src/event.c:388-408 | a user of an old generation moves no bit, calls nobody and leaves the start reference alone; if its reference is the last one, exactly one report starts |
| `EventTheorems.GenerationsGrow` | src/slab.c:96-110 | generations only grow, so a stale handle stays stale across reuse |
| `EventSafety.StepKeeps` | src/event.c:463-595 | every step of every kind of agent keeps the invariant of the protocol |
| `EventSafety.Reachable` | src/event.c:410-595 | the invariant holds in every state of every execution |
| `EventProgress.WorkShrinks` | src/event.c:480-529 | every step of an agent in flight uses up some of a finite amount of work |
| `EventProgress.CanStep` | src/event.c:97-386 | an agent that is not done can always take its next step |
| `EventProgress.DrainIsBounded` | src/event.c:215-223 | once arrivals cease, the agents in flight take at most the work there is, in any order |
| `EventProgress.EveryDrainSettles` | src/event.c:463-595 | where they stop, every report of the kernel about a side of interest has been followed by a call that started after it or by a complete cancellation, no cancel that was asked for has left the event open, and nothing is still held for a tenant that is gone |
| `EventWord.ClaimRefines` | src/event.c:153-177 | the claim on the packed word succeeds exactly when the claim of the protocol does and changes exactly those bits |
| `EventWord.LeaveRefines` | src/event.c:185-210 | the same for leaving a side that is taken |
| `EventWord.PublishRefines` | src/event.c:507-510 | the fetch that publishes sets READY of the sides reported and nothing else |
| `EventWord.CloseRefines` | src/event.c:583-586 | the fetch that cancels sets CLOSED and nothing else |
| `EventWord.Word.Exchange` | src/event.c:168-174 | the exchange fails for interference or spuriously, and reports what was there |
| `EventWord.Word.ClaimSide` | src/event.c:153-177 | however often others rewrite the word between attempts, the loop acts on one word that was there: it takes the side of that word or finds it not to be taken |
| `EventWord.Word.LeaveSide` | src/event.c:185-210 | the same for the loop that gives a side up or keeps it |
| `EventWord.Word.Publish` | src/event.c:59-72 | READY of the given sides is set; BUSY, CLOSED and the other side are as before |
| `EventWord.Word.Close` | src/event.c:583-592 | CLOSED is set and no bit of either side moves; of any number of cancellers one is told that it set the bit |
| `EventWord.HandleRoundTrip` | src/event.c:123-127 | index and generation can be read back from a handle, and a handle is determined by them |
| `TimerTheorems.TimerCovered` | src/queue.c:214-271 | in every interleaving, a queue outside arming, cancelling, draining and sync has for every armed timer a standing entry no later than it in the heap or in the hand of the service, or a wakeup some worker has taken on, or a queued drain task |
| `TimerTheorems.OneLiveEntry` | src/queue_heap.c:19-26 | at most one entry of a slot is live |
| `TimerTheorems.LiveEntryBelongs` | src/queue.c:253-270 | a live entry is the registration of the queue that has the slot now |
| `QueueTheorems.UpgradedQueueIsAlive` | src/timer_service.c:142-175 | a queue the timer service has upgraded, or is pushing to, is alive: the count that makes it so is `external_refs` |
| `TimerTheorems.HeldQueueIsAlive` | src/timer_service.c:142-175 | the service works on a slot with a tenant from the upgrade to the release, whatever else happens to generations and entries |
| `TimerTheorems.DyingQueueHasNoTimer` | src/queue.c:171-183 | the last reference goes with no timer armed and no registration standing |
| `TimerTheorems.NoLiveEntryWithoutQueues` | src/timer_service.c:222-233 | with all queues gone no entry of the service is live |
| `TimerTheorems.TimerfdArmed` | src/timer_service.c:44-96 | after every section of the lock `armed` is no later than any entry, and the kernel timer is pending no later than that, or has expired with a handler still due to take the lock |
| `TimerTheorems.NoTimerForgotten` | src/timer_service.c:106-181 | when nothing is in flight and the kernel timer is not due, no armed timer of any queue is due |
| `TimerProgress.EveryDueTimerFires` | src/timer_service.c:106-181 | from any reachable state, with the clock standing and no new arming, contexts, service and kernel come to rest within a bound known at the start, and at rest no armed timer of any queue is due; that they fired, and not before their time, is `TimerLedger` |
| `TimerLedger.NoTimerFiresEarly` | src/queue.c:188-200 | along every execution, whenever a deadline leaves the armed timers of a queue by a step that is no cancel, it is no later than the clock, no earlier one is armed, and that one timer is what has fired |
| `TimerLedger.TimersConserved` | src/timer.c:9-42 | in every reachable state the timers a tenant has asked for are those armed, those cancelled and those fired, and a tenant that is gone has none armed |
| `TimerLedger.TimersBetween` | src/timer.c:9-42 | between two moments of a tenancy: armed at the end, cancelled and fired in between make up armed at the start and asked for in between |
| `TimerLedger.EveryStepAccounts` | src/timer.c:9-42 | every step of every execution arms one timer asked for, cancels one, fires one that is due and first, starts a tenant without timers, or leaves the timers of the slot alone |
| `TimerLedger.AccountsGrow` | src/queue.c:188-200 | what was asked for, cancelled and fired is never taken back while the tenancy lasts |
| `TimerLedger.LedgerHolds` | src/queue.c:188-200 | the account balances, and a drain goes by a time that has come, in every state of every execution |
| `TimerLedger.DueTimersFireOnce` | src/timer_service.c:106-181 | once everything in flight has come to rest with the clock standing, what was armed for a time that has come has fired as often as it was armed, and what was armed for later is armed still |
| `TimerBatches.ConsumedWasLive` | src/timer_service.c:151-161 | along every execution, an entry whose queue was upgraded is consumed if it is live when the generation is read, and let go otherwise |
| `TimerBatches.ConsumedIsBatched` | src/timer_service.c:156-161 | what is consumed joins the batch and moves the generation of its queue by one, whatever that is by then |
| `TimerBatches.BatchIsTaken` | src/timer_service.c:106-167 | the service lets go of the lock with its batch and looks again exactly if the batch is full; otherwise the heap is empty or its earliest entry is live and not due |
| `TimerBatches.BatchIsWoken` | src/timer_service.c:169-181 | every queue of a batch gets one drain task, in order; then the worker looks again or is done |
| `TimerBatches.NewTenantNewGeneration` | src/slab.c:96-110 | generations only grow, and a slot never has a new tenant under a generation the old one had |
| `TimerProgress.WorkShrinks` | src/queue.c:188-271 | every step of a drain, a sync, the service or the kernel uses up some of a finite amount of work; a due entry pays for all that follows from it, because a drain leaves nothing due at its time |
| `TimerProgress.StuckIsQuiescent` | src/timer_service.c:106-181 | nobody waits for nothing: a reachable state in which no step in flight is possible has no worker, context, edge or lock under way |
| `TimerProgress.DrainIsBounded` | src/timer_service.c:106-181 | the steps in flight are no more than the work there is at the start |
| `TimerTheorems.NextKeeps` | src/timer_service.c:106-181 | every step of contexts, service, kernel and slab keeps the invariant, a bump by the service between the bump and the push of a queue included |
| `TimerTheorems.Reachable` | src/queue.c:214-271 | the invariant holds in every state of every execution |
| `TimerContextSteps.ReplaceKeeps` | src/queue.c:248-270 | replacing a registration by bumping before pushing leaves no timer uncovered |
| `TimerContextSteps.PushKeeps` | src/timer_service.c:75-96 | pushing an entry that has died since its bump is harmless |
| `TimerContextSteps.DeregisterKeeps` | src/queue.c:223-240 | dropping a registration by a bump alone is enough |
| `TimerServiceSteps.CheckKeeps` | src/timer_service.c:151-154 | the check of the generation under a reference, apart from the bump, keeps the invariant |
| `TimerServiceSteps.BumpKeeps` | src/timer_service.c:156-161 | the bump that consumes an entry leaves the queue a wakeup or a look at its generation to come |
| `TimerServiceSteps.LeaveKeeps` | src/timer_service.c:164-167 | the service arms the timerfd before it lets go of the lock |
| `QueueTheorems.RunTokenExists` | src/queue.c:57-69 | the list of a queue is non-empty exactly while a pusher is about to wake it, it is in the combine, or a worker has it |
| `QueueTheorems.RunTokenIsOne` | src/combine.c:42-68 | only one of these at a time: no two threads, no thread while the queue is linked, never linked twice |
| `QueueTheorems.BodiesExclude` | src/queue.c:121-143 | bodies of one queue never overlap |
| `QueueTheorems.AssertionsHold` | src/combine.c:42-45 | whoever may run or link a queue finds it non-empty, unlinked and referenced, as push, service and acquire assert |
| `QueueTheorems.TasksRunInOrder` | src/queue.c:82-143 | bodies start in the order of the pushes; the list is what has not been unlinked |
| `QueueTheorems.EachTaskOnce` | src/queue.c:43-69 | over any run with any limits the bodies started stay a prefix of the tasks pushed, and neither is rewritten while the tenancy lasts |
| `QueueTheorems.HistoryGrows` | src/queue.c:57-143 | a step extends the history of a tenant or starts a new tenant in a free slot |
| `QueueTheorems.ReferencesConserved` | src/queue.c:302-336 | `external_refs` is handles, service upgrades, those of either that a push is using, the self reference of timers and the references of the run |
| `QueueTheorems.LastReleaseFindsNothing` | src/queue.c:171-183 | a queue whose last reference has gone has no task, no link, no armed timer and no thread at work on it, and every task pushed to it has run |
| `QueueTheorems.SelfReferenceIsForTimers` | src/queue.c:214-271 | outside a body that has changed timers and not synced yet, the self reference is held exactly while a timer is armed |
| `QueueTheorems.NoResurrection` | src/queue.h:93-111 | a queue without references never gets one; only a new tenant of the slot does, after it was given back |
| `QueueTheorems.NoLostWakeup` | src/loop.c:65-160 | while the combine is non-empty the eventfd is positive, or an external pusher is about to write it, or a worker has not seen the combine empty since it woke |
| `QueueTheorems.OnlyFirstLinkSignals` | src/combine.c:42-54 | a thread comes to write the eventfd only if it is no worker and its link found the combine empty; the eventfd rises by one for such a write and falls by one for a read |
| `QueueTheorems.LinksKeepTheirOrder` | src/combine.c:42-68 | along every execution, after `n` queues were taken the queues linked behind them are linked first and in the same order |
| `QueueTheorems.TakenInTurn` | src/combine.c:42-68 | the queue at place `k` of the combine is the one the take after `k` others finds, and a worker starts on it |
| `QueueBodies.BodyMakesItsPushes` | src/queue.c:57-101 | along every execution, a body starts with all pushes of its task ahead, takes them off one by one by making them, ends with none left, and a push ends by putting its task at the end of its queue |
| `QueueBodies.ScriptIsMadeInOrder` | src/queue.c:57-101 | between two moments of a body, what was ahead is what was made and what is ahead still |
| `QueueBodies.StarterFindsTask` | src/queue.c:82-101 | a worker that starts on a queue finds a task in it |
| `QueueBodies.UpgradeExactlyIfAlive` | src/queue.h:93-111 | acquire_if_live takes a reference exactly if the queue is alive |
| `QueueBodies.AcquireFindsAlive` | src/queue.c:302-307 | acquire finds a queue that is alive and leaves one reference and one handle more |
| `QueueTheorems.StepMoves` | src/combine.c:42-68 | every step links a queue last, takes the first one for a worker that was looking, or leaves the combine alone |
| `QueueInvariant.PushKeeps` | src/queue.c:57-69 | the push that finds an empty list, and only that, creates the right to run |
| `QueueInvariant.LinkKeeps` | src/combine.c:42-54 | linking hands the right and its reference over; not signalling from a worker or into a non-empty combine loses no wakeup |
| `QueueInvariant.SleepKeeps` | src/loop.c:73-81 | a worker may sleep on having seen the combine empty |
| `QueueInvariant.NextTaskKeeps` | src/queue.c:43-55 | unlinking the head passes the right on or ends it, while the reference stays |
| `QueueInvariant.ScriptKeeps` | src/queue.c:57-69 | a body that pushes, to its own queue or through a handle to another, keeps the invariant with the head of its queue still linked |
| `QueueInvariant.SyncKeeps` | src/queue.c:233-246 | the self reference of timers comes and goes without ever being the last one |
| `QueueInvariant.NextKeeps` | src/queue.c:57-143 | every step keeps the invariant |
| `QueueInvariant.Reachable` | src/queue.c:145-169 | the invariant holds in every state of every execution |
| `QueueProgress.WorkShrinks` | src/combine.c:70-108 | every step the loop takes on its own uses up some of a finite amount of work |
| `QueueProgress.StuckIsDone` | src/loop.c:73-88 | with a worker, a reachable state in which nothing can happen has no task left and every task pushed has run |
| `QueueProgress.EveryTaskRuns` | src/combine.c:70-108 | left to itself from any reachable state, with bodies that push what their scripts say to any queue, the loop stops within a bound, and where it stops every task pushed to any queue has run, whatever the limits |
| `LoopTheorems.WorkIsLife` | src/loop.c:331-344 | in every reachable state of all workers, queues and events together, `work_cnt` is the initial hold plus the queue slots with a tenant plus the event slots with a tenant that counts as work plus what those given back have yet to take off |
| `LoopTheorems.ZeroMeansNothingLives` | src/loop.c:337-344 | at zero no queue and no event that counts has a tenant, no queue has a reference, and nobody is on the way out |
| `LoopTheorems.ZeroMeansNobodyWorks` | src/loop.c:65-89 | at zero no thread is in a push and no worker has a queue in hand |
| `LoopTheorems.LifeIsWork` | src/queue.c:312-336 | while a queue has a reference the count is positive |
| `LoopTheorems.EnteringHasWork` | src/loop.c:331-335 | the count is raised only from above zero, as entering asserts: a queue is created from a body, whose own queue counts, and an event that counts is opened on a queue that does |
| `LoopTheorems.ZeroOnce` | src/loop.c:337-344 | the count reaches zero once and never leaves it, because at zero there is no body left to create anything and no queue left to open an event on |
| `LoopTheorems.SlotsFilledAtZero` | src/loop.c:35-55 | at zero every worker has filled its slot and been counted at the rendezvous |
| `LoopTheorems.NothingRunsEarly` | src/loop.c:277-284 | until all workers have come no task has left any queue, and the hold or a task keeps the count above zero; so the first task cannot end the loop before the rendezvous |
| `LoopTheorems.OneStopTask` | src/worker.c:137-161 | a worker is sent one stop task, after both its own release and that of the loop, in either order, and none before the work is gone |
| `LoopTheorems.StoppedWorkerIsIdle` | src/worker.c:191-199 | a worker that has its stop task is in no push and has no queue in hand |
| `LoopTheorems.StopperFindsWorkers` | src/loop.c:346-359 | the slots are read while no stop task exists, and a worker that is about to be released has not left |
| `LoopTheorems.LoopOutlivesStopper` | src/loop.c:304-311 | when all workers have left and the loop is freed, the thread that stopped them is through and the work is gone |
| `LoopTheorems.EveryWorkerIsStopped` | src/worker.c:188-199 | once that thread is through, a worker that serves has its stop task |
| `LoopTheorems.EveryWorkerLeaves` | src/loop.c:337-360 | the loop ends: from any reachable state in which the work is gone, the workers and the thread that stops them take at most the steps left to them, and where they stop every worker has left |
| `LoopStop.CrewWorkShrinks` | src/worker.c:137-199 | every step of a worker or of the stopper uses up one of finitely many |
| `LoopStop.StuckCrewHasLeft` | src/loop.c:346-359 | once the work has gone, a crew that can do nothing more has left and its stopper is through |
| `LoopTheorems.HeldQueueIsAlive` | src/event.c:425-431 | a queue is alive while any event, or an agent finishing one, holds a handle of it |
| `LoopTheorems.TenantHoldsQueue` | src/event.c:286-308 | the queues of an event are alive from its opening until its slot was given back |
| `LoopTheorems.PostedQueueIsAlive` | src/event.c:250-265 | the queue a side task is posted to or runs in, and the queue a cancellation is reported to, is alive at that moment |
| `LoopPosts.CallbacksExclude` | include/ntt/event.h:29-33 | callbacks given the same queue never run at once: not two sides of one event, not sides of two events, not a handler and a cancelled callback |
| `LoopPosts.CallbackIsTheBody` | src/event.c:232-265 | a handler or cancelled callback that was posted runs in the body of its own task in the queue of its side, and no other thread runs a body of that queue, so it is serialized with the tasks and timers there |
| `LoopPosts.NextKeepsPosts` | src/event.c:317-347 | every step keeps posted agents at distinct places of their queues, each callback on top of its own |
| `LoopPosts.SpawnIsPost` | src/event.c:250-265 | whatever an event spawns is a task for a queue it has |
| `LoopInvariant.NextKeeps` | src/loop.c:241-360 | every step of the workers, the queues, every event slot and ntt_loop_run keeps the invariant of the whole loop |
| `LoopInvariant.TollKeeps` | src/loop.c:337-360 | the step that takes the count to zero finds all workers counted in and nobody stopping them already |
| `LoopInvariant.UnlinkingIsLate` | src/queue.c:43-55 | a task is unlinked only by a worker that serves, so after the rendezvous |
| `LoopWork.HoldsFollow` | src/event.c:286-308 | an event slot gives up a handle of a queue exactly when one of its agents releases that queue, over any number of tenancies with different queues |
| `LoopStop.CrewKeeps` | src/worker.c:137-199 | every step of the workers and of the thread that stops them keeps references, stop tasks and the rendezvous in step |
| `LocalQueue.OneWakeup` | src/worker.c:78-98 | the local queue has tasks exactly while one wakeup exists: with a pusher, as a pending signal, or with the worker |
| `LocalQueue.ServiceFindsTask` | src/worker.c:191-199 | the flag leads into the service only with a task to run |
| `LocalQueue.LocalTasksInOrder` | src/worker.c:224-237 | local tasks run once each in the order of the pushes |
| `LocalQueue.NoLocalTaskForgotten` | src/worker.c:191-199 | a worker that waits with no signal pending and no push under way has run every local task, although the flag is cleared after the service |
| `BinaryHeap.RootIsLeast` | src/timer_heap.c:343-354 | the root of a heap is before every entry |
| `BinaryHeap.SiftUpOrders` | src/timer_heap.c:71-89 | a heap with one entry out of place upward is a heap after the sift |
| `BinaryHeap.SiftDownOrders` | src/timer_heap.c:91-124 | the same downward, for the part of the array below a node |
| `BinaryHeap.PushIsHeap` | src/queue_heap.c:191-208 | a push keeps the order and adds exactly the entry |
| `BinaryHeap.PopRootIsHeap` | src/timer_heap.c:241-259 | a pop keeps the order and removes exactly the root |
| `BinaryHeap.RebuildIsHeap` | src/timer_heap.c:299-305 | sifting the inner nodes down from the last makes any array a heap of the same entries |
| `BinaryHeap.FilterContents` | src/timer_heap.c:285-296 | the filter keeps the entries wanted as often as they were there, and no other |
| `BinaryHeap.RebuildIsLinear` | src/timer_heap.c:299-305 | a rebuild promotes fewer children than there are entries |
| `BinaryHeap.SiftUpInPlace` | src/timer_heap.c:71-89 | the loop on the array computes the sift and touches nothing beyond the heap |
| `BinaryHeap.SiftDownInPlace` | src/timer_heap.c:91-124 | the same downward |
| `BinaryHeap.RebuildInPlace` | src/timer_heap.c:299-305 | the loop on the array computes the rebuild |
| `BinaryHeap.FilterInPlace` | src/timer_heap.c:285-296 | the loop that moves live entries to the front computes the filter, in order |
| `TimerHeapLemmas.PushSound` | src/timer_heap.c:356-387 | a push keeps slots, entries, free list, tombstones and order in step with the map, under a tag never issued before |
| `TimerHeapLemmas.BurySound` | src/timer_heap.c:389-417 | a cancel turns the one entry of the timer into a tombstone and its slot into a free one |
| `TimerHeapLemmas.DropTombstoneSound` | src/timer_heap.c:264-272 | a dead root is a tombstone that was counted, so the count is positive, and dropping it changes no timer |
| `TimerHeapLemmas.CompactSound` | src/timer_heap.c:280-308 | compaction removes exactly the dead entries and no timer |
| `TimerHeapLemmas.LiveIsArmed` | src/timer_heap.c:53-58 | an entry is live exactly for an armed timer, whose deadline, order and task it leads to |
| `TimerHeapLemmas.RootIsFirst` | src/timer_heap.c:343-354 | no armed timer is before the root |
| `TimerHeapLemmas.DeadStaysDead` | src/timer_heap.c:199-236 | a dead entry stays dead when its slot is reused or freed |
| `TimerHeapLemmas.CurrentIsArmed` | src/timer_heap.c:389-400 | a tag matches its slot exactly while its timer is armed |
| `TimerHeapLemmas.NextTagIsFresh` | src/timer_heap.c:199-222 | the tag of the next push has never been issued |
| `TimerMap.PlainServed` | src/timer_heap.c:419-454 | with tasks that touch no timer, service fires exactly the timers that were due, by deadline and on equal deadlines by arming, and leaves the rest |
| `TimerMap.PlainSorted` | src/timer_heap.c:419-454 | of two firings the first has the earlier deadline, or the same one and no later arming; and so has every firing against what is still armed |
| `TimerMap.FiredFirst` | src/timer_heap.c:38-46 | whatever the tasks arm and cancel, every timer that fires is due, and no timer armed at that moment has an earlier deadline, nor the same one and an earlier arming |
| `TimerMap.TiesFireInOrder` | src/timer_heap.h:77-79 | of two timers armed one after the other for one deadline, the second does not fire while the first is armed |
| `TimerMap.FiresOnce` | src/timer_heap.c:419-454 | a timer fires at most once, and not at all once a task has cancelled it, whatever the tasks arm meanwhile |
| `TimerMap.ExecCancels` | src/timer_heap.c:389-417 | a timer a task cancels is gone when the task is through |
| `TimerMap.GoneStaysGone` | src/timer_heap.c:199-222 | a tag that is no longer armed is never armed again |
| `TimerMap.PlainFireInOrder` | src/timer_heap.c:38-46 | plain timers fire strictly by deadline and arming |
| `TimerMap.LaterArmingLaterOrder` | src/timer_heap.c:356-387 | a timer armed while others are has a larger order than each of them |
| `TimerMap.ReplayKeepsOrders` | src/timer_heap.c:419-454 | orders stay distinct and below the next one through every log of firings and what their tasks do |
| `TimerHeap.TimerHeap.OrdersAreOwn` | src/timer_heap.c:356-387 | the armed timers of a heap have distinct orders, all below the next one |
| `TimerHeap.GrowCapacity` | src/timer_heap.c:129-138 | for a count of at most 2^31 the loop, on 32 bits, ends with the first capacity of the doubling sequence that is enough |
| `TimerHeap.GrowthEndsExactly` | src/timer_heap.c:133-135 | from any capacity the heap can have, some pass of the loop reaches the count if and only if it is at most 2^31 |
| `TimerHeap.DoublingIsLeast` | src/timer_heap.c:129-138 | that capacity is enough and less than twice what is needed |
| `TimerHeap.ShrinkIsSafe` | src/timer_heap.c:181-197 | a shrink keeps room for every entry below 2^30 entries, and from there on exactly under the condition given, of which a call can fail only the part on the number of entries |
| `TimerHeap.ShrinkLosesEntries` | src/timer_heap.c:187-196 | a heap of 2^30 + 2 entries that loses one to a pop is cut to 2^30 |
| `TimerHeap.TimerHeap.ResizesAreFarApart` | src/timer_heap.c:174-197 | over any run of the class, of two consecutive resizes in opposite directions the second comes only after a quarter of the new capacity in entries was added or removed |
| `TimerHeap.GrowthIsFar` | src/timer_heap.c:143-155 | a growth, which finds the heap full, is that far from a shrink before it |
| `TimerHeap.ShrinkIsFar` | src/timer_heap.c:181-197 | a shrink, which finds the heap a quarter full, is that far from a growth before it |
| `TimerHeap.TimerHeap.ReserveElem` | src/timer_heap.c:143-155 | room for one more entry, the entries kept, and the growth recorded if there was one |
| `TimerHeap.DestroyedOnce` | src/timer_heap.c:325-341 | the live entries are one for each armed timer, each leading to its task |
| `TimerHeap.TimerHeap.Push` | src/timer_heap.c:356-387 | the map gains the timer under a new tag and with a larger order than any timer armed, and is otherwise the same |
| `TimerHeap.TimerHeap.Cancel` | src/timer_heap.c:389-417 | the map loses the timer and is otherwise the same, compaction included; the task destroyed is that of the timer; tombstones are not left in the majority |
| `TimerHeap.TimerHeap.Peek` | src/timer_heap.c:343-354 | the earliest deadline armed, which is that of the first timer, or none exactly if none is armed |
| `TimerHeap.TimerHeap.TakeRoot` | src/timer_heap.c:431-446 | a dead root is dropped and a live one retires the first timer of the map before its task is run |
| `TimerHeap.TimerHeap.Svc` | src/timer_heap.c:419-454 | with tasks that push, cancel and peek while it runs, every firing is due and no timer armed at that moment has an earlier deadline, nor the same one and an earlier arming; nothing is due on return, and the count is that of the firings |
| `TimerHeap.TimerHeap.Compact` | src/timer_heap.c:280-308 | the map stays; with tombstones in the majority none is left and the entries looked at are counted, and otherwise nothing changes |
| `TimerHeap.TimerHeap.DropDeadRoot` | src/timer_heap.c:264-272 | afterwards the root is live or the heap is empty, and the map is the same |
| `TimerHeap.TimerHeap.AllocSlot` | src/timer_heap.c:199-222 | the slot taken is the head of the free list or the next fresh one, at an odd version |
| `TimerHeap.TimerHeap.FreeSlot` | src/timer_heap.c:224-236 | the slot is even again and heads the free list |
| `TimerHeap.TimerHeap.PopEntry` | src/timer_heap.c:241-259 | the array loses its root by the pop of the sequence, and its capacity is halved exactly if it is above 8 and at most a quarter full |
| `TimerHeap.TimerHeap.Shrink` | src/timer_heap.c:181-197 | the capacity is as computed on 32 bits, halved exactly if it is above 8 and at most a quarter full; the entries survive, and the shrink is recorded if there was one |
| `TimerHeap.TimerHeap.Deinit` | src/timer_heap.c:325-341 | the tasks of exactly the armed timers are destroyed, once each |
| `TimerHeap.TimerHeap.CompactionIsPaidFor` | src/timer_heap.c:275-308 | over any run all compactions together look at fewer than two entries a cancel |
| `TimerHeap.TimerHeap.SlotsArePeak` | src/timer_heap.c:199-222 | the slots in use are as many as timers were ever armed at once |
| `QueueHeap.QueueHeap.Push` | src/queue_heap.c:191-208 | the entry is added, the order kept |
| `QueueHeap.QueueHeap.DropDeadRoot` | src/queue_heap.c:118-130 | with generations that move between any two reads: only entries read dead go, whatever the tombstone hint says, the hint falls by their number, and the top left is one read live |
| `QueueHeap.QueueHeap.TakeExpired` | src/queue_heap.c:210-227 | with generations that move between any two reads: an entry read live and due, no later than any entry live throughout the call; or none, and then no entry live throughout is due; only entries read dead are lost |
| `QueueHeap.QueueHeap.Compact` | src/queue_heap.c:135-161 | with generations that move between any two reads: when it runs, what goes was read dead and what stays was read live, and nothing changes when it does not run |
| `QueueHeap.QueueHeap.Retire` | src/queue_heap.c:229-243 | the hint is raised and clipped to the size; with a majority of tombstones every entry is read, those left were read live and the hint is zero, and otherwise nothing goes |
| `QueueHeap.QueueHeap.HasLive` | src/queue_heap.c:171-183 | true exactly if some entry is live |
| `QueueHeap.KeptWereRead` | src/queue_heap.c:143-150 | a pass that reads the entries one by one keeps what it read live and loses only what it read dead |
| `QueueHeap.LiveIsKept` | src/queue_heap.c:19-26 | since generations only grow and an entry is made under one already reached, an entry live at the end of a call was live all along and is there as often as before |
| `SerialService.Loop.PushTask` | src/queue.c:57-69 | the task is last in its queue, which is linked last exactly if it was empty |
| `SerialService.Loop.ServeHead` | src/queue.c:97-101 | the body of the head runs, with its pushes, while the head is linked; then the head goes |
| `SerialService.Loop.Next` | src/queue.c:43-55 | the head is unlinked and recorded as run, the reference of the run stays |
| `SerialService.Loop.SvcWithLimit` | src/queue.c:82-119 | zero exactly when the limit was reached with tasks left, and then the reference is kept; otherwise the number of bodies run, the queue empty and released |
| `SerialService.Loop.Svc` | src/queue.c:121-143 | the queue is served out, tasks pushed meanwhile included, and released |
| `SerialService.Loop.TryTake` | src/combine.c:56-68 | the queue linked first, or none exactly if no queue has tasks |
| `SerialService.Loop.CombineSvc` | src/combine.c:70-82 | every task runs, and every task those push, once each and in the order of its queue; the queues linked at the start have their turns in that order; nothing stays linked or referenced |
| `SerialService.Loop.TakeTurn` | src/combine.c:95-104 | one turn: only the queue linked first runs bodies, up to the limit; the others move up in their order, and it is last in the combine if tasks are left in it and out of it otherwise |
| `SerialService.Loop.CombineSvcWithLimits` | src/combine.c:84-108 | the first `loop_limit` turns are made, those of the queues linked at the start first and in their order; 1 if and only if something was left before the last of them; at most `queue_limit` bodies a turn; nothing is lost or run twice |
| `SerialTurns.EveryQueueHasItsTurn` | src/combine.c:84-108 | whatever the tasks push, the queue at place `k` of the combine is linked first after `k` turns, so turn `k + 1` is its own |
| `SerialTurns.TurnGoesOn` | src/combine.c:95-104 | a turn moves every other linked queue up by one place and puts the queue served last if tasks are left in it |
| `SerialTurns.TurnsToDrain` | src/combine.c:84-108 | whatever the tasks push there is a number of turns before which something is left and after which nothing is, and it is at most the number of bodies |
| `SerialTurns.ResultExactly` | src/combine.h:84-92 | the result is 1 if and only if at least `loop_limit` turns are needed, something is left if and only if more are, so the documented meaning holds if and only if the number needed is not `loop_limit` |
| `SerialTurns.PlainDrainsIn` | src/combine.c:84-108 | for tasks that push nothing the turns needed are the sum over the queues of length over limit, rounded up |
| `SerialTurns.RoundsRoundUp` | src/queue.c:102-108 | the turns of one list are its length over the limit, rounded up |
| `SerialTurns.OneWithNothingLeft` | src/combine.c:107-107 | one queue, one task, one turn: the result is 1 and nothing is left |
| `SerialModel.PopOrdered` | src/queue.c:43-55 | tasks leave a queue in the order they came |
| `SerialModel.TurnKeeps` | src/queue.c:82-119 | a turn keeps every other queue linked exactly while it has tasks, and serves at least one body |
| `IntrusiveList.List.PushBack` | src/list.h:41-58 | the node becomes the last one of the ring, and the result says whether the list was empty |
| `IntrusiveList.List.Front` | src/list.h:63-66 | the first node |
| `IntrusiveList.List.Next` | src/list.h:75-86 | the first node goes, unlinked; the new first node or null is returned |
| `IntrusiveList.List.Empty` | src/list.h:31-34 | decided by the head alone |
| `IntrusiveList.List.LinkedNode` | src/node.h:64-67 | a node in the list never looks unlinked |
| `SlabLayout.BlockOfInverts` | src/slab.h:151-164 | every index below the capacity lies in one block of the table, and it is the one computed |
| `SlabLayout.BlocksTile` | src/slab.h:156-164 | the blocks tile the indices from zero to the capacity, the last one 63 long |
| `SlabLayout.PastTheTableWraps` | src/slab.h:156-164 | the start of the block past the table wraps to that of the last block, and the doubled length of the last block to zero |
| `SlabLayout.NextBlockIsDue` | src/slab.c:70-81 | the test for a new block is right for every size, that wrap included, and the table is never left |
| `SlabLayout.StrideRounds` | src/slab.c:31-31 | the stride of an object of at most 2^32 - 64 bytes is a multiple of 64, at least its size and less than 64 above it |
| `SlabLayout.SeparateExactly` | src/slab.h:172-183 | the bytes of the objects of a block, of any size, are disjoint and in bounds if and only if the last offset times the stride is below 2^32 |
| `SlabLayout.NeighboursApart` | src/slab.h:172-183 | the bytes of two objects, from their start on as many as their size, are disjoint and in bounds if their offsets times the stride are below 2^32, whatever the block and the size |
| `SlabLayout.FirstWrapCollides` | src/slab.h:182-182 | the first offset for which the product wraps lands on bytes of the first object |
| `SlabLayout.WrapsForOneCacheLine` | src/slab.h:182-182 | with objects of at most one cache line block 20 is sound and block 21 is not |
| `SlabLayout.PlacesAreDistinct` | src/slab.h:151-183 | distinct indices differ in block or in offset, and the offset lies in the block |
| `Slab.Slab.Take` | src/slab.c:52-94 | a free slot if there is one and otherwise a fresh one of generation one; the pair of index and generation was given to nobody before; only running out of indices fails |
| `Slab.Slab.AddBlock` | src/slab.c:70-81 | the block of the fresh slot is there afterwards, with its size, and the write stays in the table |
| `Slab.Slab.Give` | src/slab.c:96-110 | the slot is free again, one generation on, and no other slot changes |
| `Slab.Slab.Retire` | src/slab.h:203-210 | the generation of one live slot moves by one |
| `Slab.ChainIsAcyclic` | src/slab.c:56-60 | the free list visits no slot twice |
| `Slab.ChainIsUnique` | src/slab.c:56-60 | the links determine the free list |

## Left out

- Weak memory orderings: atomics are sequentially consistent steps.
- epoll, eventfd, timerfd, signals and threads as system calls: kept as counters, pending and expired flags; a level-triggered eventfd that is positive wakes a sleeping worker, and the timerfd expires at the time it is set to.
- 32-bit wrap of generations, slot versions and sequence numbers, and saturation of the eventfd counter: these numbers are unbounded.
- Deadlines at or above 2^64: a deadline is at most UINT64_MAX, which is never armed.
- src/reader.c, src/signal.c, src/log.c, src/die.c and src/malloc.c: plumbing; allocation always succeeds.
- Task payloads (src/task.c, src/task.h): a task is an id with the operations it performs; destroying a task may overlap the next burst of its queue and is not part of queue exclusion.
- ntt_loop_destroy and the closing of descriptors.
- Barriers (src/loop.c:362-399): a counter per barrier, an easy addition to `LocalQueue`.
- ntt_queue_push_task_without_wakeup and queues built by hand without a loop.
- Misuse that the source asserts against: cancelling a timer twice, a handle used before registration completes, timers touched outside the context of their queue.
- TimerHeap.TimerHeap.Svc: for fewer than 2^30 entries, those its tasks will still add included, the bound under which src/timer_heap.c:187 does not wrap; what happens beyond is `TimerHeap.ShrinkIsSafe`.
- TimerHeap.GrowCapacity: for counts of at most 2^31; beyond, the loop of the source does not end (`TimerHeap.GrowthEndsExactly`).
- TimerTheorems.TimerCovered: the drain task it speaks of is a count; that a queued task is run is `QueueProgress.EveryTaskRuns`.
- TimerTheorems.NoTimerForgotten: needs a clock past zero, because the kernel timer is never set earlier than 1.
- TimerTheorems.HeldQueueIsAlive: the step by which a queue dies is guarded there by nobody holding it; the count behind the guard is `QueueTheorems.UpgradedQueueIsAlive`.
- LoopTheorems.ZeroOnce: for queues created inside ntt_loop_run or from a body of a queue. A task of a worker's local queue could create one too, but pushing such a task (src/loop.h:67, src/worker.h:61) is not part of the public interface, and the source asserts that the count is positive.
- LoopTheorems.EnteringHasWork: under the same condition.
- LoopTheorems.EveryWorkerLeaves: that a stop task, once pushed, is run by its worker is `LocalQueue.NoLocalTaskForgotten`.
- QueueProgress.EveryTaskRuns: a body whose script pushes to a queue of which no handle is held leaves that push out.
- TimerProgress.EveryDueTimerFires: the clock stands and no context arms or cancels while the steps in flight run out.
- QueueHeap.QueueHeap.HasLive: with generations that stand still, as when the last worker tears the service down.
- SlabLayout.StrideRounds: for objects of at most 2^32 - 64 bytes; the stride of a larger one does not fit 32 bits.
- Slab.Slab.Give: the storage of distinct slots is taken to be distinct, which holds exactly under the condition of `SlabLayout.SeparateExactly`.
- Slab.Slab.Take: one call at a time, as under the lock of the slab; the bump in ntt_slab_give comes before the lock, and a slot in between is neither live nor free.

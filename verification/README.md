# The coroutine runtime under CoLib, modelled and proved

CoLib runs coroutines on a fixed set of threads. Each thread has a `Core` with an epoll
instance, a queue of functions and a timer list; all cores share one ready queue of
coroutine handles. This project models the parts whose promises hold only over whole runs
and proves those promises.

How the parts are modelled:

* **`MpmcQueue.h`** twice. `MpmcQueue` is the queue on the heap, a class over linked nodes
  that is proved against `seq<T>`. `MpmcSteps` is the same code as a machine with one step
  per atomic operation and any number of threads; `MpmcLinearizable` proves that it is a
  linearizable FIFO, `MpmcProgress` that its calls return, and `MpmcRace` and `MpmcLostNodes`
  show what one race costs.
* **The hand-off mutex** (`HandoffMutex`): lock, try-lock and owner unlock, one step per
  atomic operation on the counter, the owner id and the queue of waiters.
* **The descriptor table** (`IrqTable`, `Loads`, `IrqUpdates`): the array of cores kept
  sorted by load, as a class with the source's loops and swaps; what it does to the loads,
  over whole runs; and concurrent updates that hold the lock across a suspension.
* **`TimeWQ`, `FileWQ`, `FileReadiness`**: the sleeper list with its one-shot timer, the
  dispatch of event masks, and a reader under edge triggering.
* **`EventLoop`, `ThreadCore`**: the loops with `queueInLoop` and `wakeUp`, and the start and
  stop handshake of a thread.
* **`Lazy`, `LazyRuntime`**: coroutines that await each other through continuation pointers,
  proved to compute what direct recursive evaluation does; and the same on the heap, where
  frames are objects, handles are references followed without a check, and a destroyed frame
  is proved never to be touched again.
* **`Handles`**: where the handle of each task is, over all the queues together, with the
  instants at which a handle has been handed on and its old entry is not yet gone; and
  `Suspensions`: by which wake-up, and no other, each kind of suspension ends.

Time is an integer number of nanoseconds. An event mask is the set of its bits. A run is a
sequence of states and the turns between them; the threads take turns in any order.

## Three places where the code does not meet its promise

* Line 52 of `CoLib/utils/MpmcQueue.h` compares the spare tail and line 55 stores a new one.
  They are separate, so an exchange at line 85 can land in between and be overwritten. What
  the store overwrites is lost at that instant, and a store loses a node if and only if it is
  not clean, that is, `sTail_` is not the node that line 52 saw
  (`MpmcLostNodes.StoreLosesIffDirty`). The queue stays a FIFO as long as the dequeuer writes
  its link of line 86 before the node that it goes into, which an enqueuer has taken, is
  cleared at line 62; such runs are called timely. They are exactly the runs that keep the
  invariant (`MpmcLinearizable.InvariantIffTimely`), linearizability is proved for all of
  them, and every run with clean stores is one. A link that comes later goes behind the last
  node of the queue (`MpmcLinearizable.LateLinkFollowsTail`), and may lead to a lost node again.
  `MpmcRace` has a run of two threads that puts two values and takes three, and one with a
  store that is not clean which ends well but for the lost node.
* `TimeWQ::addWait` re-arms the timer for a sleeper that becomes the first. If its deadline is
  already past, the timer goes off 100us after the call and not after the deadline:
  `TimeWQ.LateSleeper` is a run in which a sleeper is woken 1.1ms late. An ideal timer that has
  woken everyone was within 100us of every deadline if and only if each deadline, when added,
  was not past or some sleeper was due no later (`TimeWQ.AllOnTimeIffPrompt`).
* `CoKernel::wakeUpReady` enqueues a handle and wakes no core. A thread without a loop that
  makes a coroutine ready while every loop is in `epoll_wait` and none is signalled
  (`EventLoop.ReadyFromOutside`), and a loop that stops as the last one that was coming to the
  ready queue (`EventLoop.ReadyLeftByStop`), leave a ready coroutine to the timeout of 1000ms.
  `EventLoop.AttendedIff` gives the exact condition for each step and
  `EventLoop.RunAttendedIff` that for whole runs.

## Model

| member | source | states |
|---|---|---|
| MpmcSteps.StepKeeps | CoLib/utils/MpmcQueue.h:43-88 | every timely atomic step of any thread, an unclean store included, keeps the used list, the spare list and the threads' private nodes disjoint, and neighbours linked or about to be linked by some thread |
| MpmcSteps.PushUsedKeeps | CoLib/utils/MpmcQueue.h:63 | the exchange on `uTail_` turns a private node into the last used node, with the link owed by this thread |
| MpmcSteps.LinkKeeps | CoLib/utils/MpmcQueue.h:64-86 | the store that pays an owed link, after either exchange, keeps both lists whole |
| MpmcSteps.StoreKeeps | CoLib/utils/MpmcQueue.h:50-59 | replacing the spare tail, whatever it is by now, keeps the lists in order: the spare list starts anew and the node taken is the thread's own |
| MpmcSteps.FoundSpareKeeps | CoLib/utils/MpmcQueue.h:50 | a successor found at line 50 is the second spare node, and the first becomes the thread's own |
| MpmcSteps.StepOwed | CoLib/utils/MpmcQueue.h:59-86 | a timely step keeps every link of line 86 ahead of the clearing of the node that it goes into |
| MpmcSteps.KeepsLocks | CoLib/utils/MpmcQueue.h:47-83 | each spin lock has at most one thread in its section and is taken exactly while one is, so that every way out, line 78 included, gives it up |
| MpmcLinearizable.StepRefines | CoLib/utils/MpmcQueue.h:43-88 | each timely step is a step of an atomic FIFO with the same call and result |
| MpmcLinearizable.Linearizable | CoLib/utils/MpmcQueue.h:43-88 | in every timely interleaving of any number of threads the queue is a linearizable FIFO, and `false` is returned only for an instant at which it was empty |
| MpmcLinearizable.EmptyIffHeadIsTail | CoLib/utils/MpmcQueue.h:74-80 | the test of line 76 is true if and only if the queue is empty |
| MpmcLinearizable.GotIsPrefixOfPut | CoLib/utils/MpmcQueue.h:63-83 | values leave exactly once, in the order of the `uTail_` exchanges; what was put is what was got followed by what is queued |
| MpmcLinearizable.NodesApart | CoLib/utils/MpmcQueue.h:43-88 | in every timely run each node is at every instant in at most one list or held by at most one thread |
| MpmcLinearizable.SpinsWaitForALink | CoLib/utils/MpmcQueue.h:50-80 | a spin loop that goes round, having found no successor, is waiting for a link that another thread is about to write |
| MpmcLinearizable.ClearKeepsIffTimely | CoLib/utils/MpmcQueue.h:62 | clearing a node keeps the invariant, for some lists, if and only if no thread still owes a link of line 86 into it |
| MpmcLinearizable.InvariantIffTimely | CoLib/utils/MpmcQueue.h:43-88 | a run keeps the invariant throughout, for the lists of the history or for any others, if and only if it is timely |
| MpmcLinearizable.LateLinkFollowsTail | CoLib/utils/MpmcQueue.h:62-86 | after lines 62 and 63 of one thread and line 86 of another, the last node of the queue has a successor if and only if the link went into the node cleared |
| MpmcLinearizable.EmptyQueueYieldsValue | CoLib/utils/MpmcQueue.h:71-82 | an empty queue whose last node has a successor gives a dequeue a value that was not put |
| MpmcProgress.LocksExact | CoLib/utils/MpmcQueue.h:47-83 | at every instant of every run, timely or not, `sLk_` and `uLk_` are taken if and only if a thread is in their section |
| MpmcProgress.LockWaitsForAnother | CoLib/utils/MpmcQueue.h:48-72 | a thread that a turn leaves at line 48 or 72 is kept there by another one in that section |
| MpmcProgress.CallReturns | CoLib/utils/MpmcQueue.h:43-88 | in every run a call returns within a fixed number of its own turns, eleven or nine at most, and two more for each that finds a lock taken or no successor |
| MpmcProgress.NoDeadlock | CoLib/utils/MpmcQueue.h:43-88 | at every instant of a timely run at which some thread is in a call, some thread in a call can go on by itself |
| MpmcProgress.CleanUnlessExchange | CoLib/utils/MpmcQueue.h:50-55 | a node is allocated only where line 52 has found one spare node left, and the store is then clean unless an exchange of line 85 has come in between |
| MpmcProgress.ValuesMoveOut | CoLib/utils/MpmcQueue.h:81-82 | at every instant the dummy holds no value, or one that a dequeuer is about to move out |
| MpmcLostNodes.CleanRunIsTimely | CoLib/utils/MpmcQueue.h:52-62 | a run whose stores are all clean is timely |
| MpmcLostNodes.NodesPartitioned | CoLib/utils/MpmcQueue.h:43-88 | in a run with clean stores each node is at every instant in exactly one list or held by exactly one thread |
| MpmcLostNodes.DirtyStoreInconsistent | CoLib/utils/MpmcQueue.h:52-59 | after a store that is not clean, no choice of lists and histories accounts for every node |
| MpmcLostNodes.WholeIffClean | CoLib/utils/MpmcQueue.h:43-88 | a run accounts for every node throughout, for the lists of the history or for any others, if and only if its stores are all clean |
| MpmcLostNodes.NothingLost | CoLib/utils/MpmcQueue.h:43-88 | in a run with clean stores every node is reached from a head, through links written or about to be, or held by a thread |
| MpmcLostNodes.DirtyStoreLoses | CoLib/utils/MpmcQueue.h:55 | the tail that an unclean store overwrites could be reached before it and at that instant cannot, nor is it held |
| MpmcLostNodes.StoreLosesIffDirty | CoLib/utils/MpmcQueue.h:52-55 | a store makes some node unreachable if and only if it is not clean; stated without history variables |
| MpmcRace.DirtyStoreBreaksFifo | CoLib/utils/MpmcQueue.h:52-86 | there is a run, not timely, in which 10 and 20 are put and 10, 20 and 0 are got |
| MpmcRace.DirtyStoreMayBeTimely | CoLib/utils/MpmcQueue.h:52-86 | there is a timely run with an unclean store; 10 is put and got, 20 is put and queued, and a node is lost |
| MpmcRace.LateLinkFindsLostNode | CoLib/utils/MpmcQueue.h:86 | in the first of these runs the late link makes the lost node reachable again |
| MpmcQueue.MpmcQueue.constructor | CoLib/utils/MpmcQueue.h:21-25 | an empty queue with a dummy and one spare node |
| MpmcQueue.MpmcQueue.TakeSpare | CoLib/utils/MpmcQueue.h:45-60 | the first spare node is taken out, another being allocated only if it was the last |
| MpmcQueue.MpmcQueue.AppendUsed | CoLib/utils/MpmcQueue.h:61-64 | a free node with the value becomes the last of the used list |
| MpmcQueue.MpmcQueue.DetachDummy | CoLib/utils/MpmcQueue.h:69-83 | the oldest value is moved out and its node becomes the dummy, or nothing changes when empty |
| MpmcQueue.MpmcQueue.AppendSpare | CoLib/utils/MpmcQueue.h:84-86 | the old dummy becomes the last of the spare list |
| MpmcQueue.MpmcQueue.Enqueue | CoLib/utils/MpmcQueue.h:43-65 | the value is appended; nodes are reused and one is allocated only for a new largest length, so spares stay 1 + (peak - length) |
| MpmcQueue.MpmcQueue.Dequeue | CoLib/utils/MpmcQueue.h:67-88 | the first value is taken, or none when empty; no node is lost or made |
| MpmcQueue.MpmcQueue.Destroy | CoLib/utils/MpmcQueue.h:26-39 | each node of both lists is freed once, 2 + peak in all |
| MpmcQueue.PeakIsLargest | CoLib/utils/MpmcQueue.h:43-88 | the peak is reached by some prefix of the operations and exceeded by none |
| MpmcQueue.Lifetime | CoLib/utils/MpmcQueue.h:21-88 | through any sequence of operations the results are those of a list, and the nodes freed are 2 plus the largest length ever reached |
| HandoffMutex.StepKeeps | CoLib/CoKernel/CoKernel.h:262-350 | every step of any task keeps the mutex invariant, through all the intermediate states of a hand-off |
| HandoffMutex.MutualExclusion | CoLib/CoKernel/CoKernel.h:262-350 | at most one task is in the critical section, and the owner id is its own |
| HandoffMutex.OwnerIsHolderOrGranted | CoLib/CoKernel/CoKernel.h:329-343 | a nonzero owner id is that of the holder, of the waiter that has been made ready, or of the one that an unlocker is making ready now |
| HandoffMutex.CounterExact | CoLib/CoKernel/CoKernel.h:262-343 | `waiter_` is the token plus the committed waiters plus the queued ones, and never wraps |
| HandoffMutex.NoWaiterLost | CoLib/CoKernel/CoKernel.h:264-343 | `waiter_` is positive if and only if some task acquires, holds, releases or hands off; it is positive while any task waits |
| HandoffMutex.HandoffsAreFifo | CoLib/CoKernel/CoKernel.h:270-341 | the waiters that have got the lock are the first that queued, in that order, and at most one that has been dequeued has yet to get it |
| HandoffMutex.NoOvertaking | CoLib/CoKernel/CoKernel.h:264-303 | while a task is committed, suspended or granted, no lock or try-lock enters |
| HandoffMutex.TidsNeverChange | CoLib/CoKernel/CoKernel.h:329-346 | while only owners unlock, the compare-exchange never fails, so no task's id is overwritten |
| HandoffMutex.SpinEnds | CoLib/CoKernel/CoKernel.h:336-341 | the spin at line 339 always has a waiter that is queued or committed; in any schedule the spinning task has left with the oldest waiter, or each of its turns has found the queue empty, which it is not once a committed waiter has had a turn |
| HandoffMutex.HandOffCompletes | CoLib/CoKernel/CoKernel.h:333-341 | in any schedule an unlocker past line 333 makes the oldest waiter ready by its fourth turn, and the first turn of that waiter gives it the lock, before anybody else has it |
| HandoffMutex.EntersIffFree | CoLib/CoKernel/CoKernel.h:262-310 | a lock or try-lock enters if and only if no task has the lock or moves it; otherwise lock commits to wait and try-lock changes nothing |
| HandoffMutex.TurnsGoOn | CoLib/CoKernel/CoKernel.h:262-349 | each turn of a task that is in a call, not suspended and not spinning at an empty queue, brings the call nearer to its end |
| Loads.RaiseBySwap | CoLib/CoKernel/CoKernel.cpp:96-111 | one increment and one swap keep the loads sorted |
| Loads.LowerBySwap | CoLib/CoKernel/CoKernel.cpp:142-156 | one decrement and one swap keep the loads sorted |
| Loads.SharesBounded | CoLib/CoKernel/CoKernel.cpp:84-156 | over every run the loads stay sorted, and n times one less than any load is below the peak |
| Loads.LoadAtMostShare | CoLib/CoKernel/CoKernel.cpp:84-156 | no core ever has more than ceil(P / n) descriptors, P being the most ever registered at once |
| Loads.RegistrationsStayEven | CoLib/CoKernel/CoKernel.cpp:84-111 | with registrations only, the loads differ by at most one |
| Loads.TotalIsNet | CoLib/CoKernel/CoKernel.cpp:84-156 | the total load is registrations less removals |
| IrqTable.CoKernel.constructor | CoLib/CoKernel/CoKernel.cpp:6-24 | the cores in creation order, each at its index, without load |
| IrqTable.CoKernel.FirstHeavier | CoLib/CoKernel/CoKernel.cpp:96-102 | the scan ends just past the run of cores as light as the first |
| IrqTable.CoKernel.LastLighter | CoLib/CoKernel/CoKernel.cpp:142-148 | the scan ends just before the run of equals, at -1 for position 0 in spite of the unsigned `pos - 1` |
| IrqTable.CoKernel.ChargeFirst | CoLib/CoKernel/CoKernel.cpp:96-111 | the first core alone takes one more; the table stays a sorted permutation with exact back-indices |
| IrqTable.CoKernel.Discharge | CoLib/CoKernel/CoKernel.cpp:142-156 | the given core alone gives up one; the table stays a sorted permutation with exact back-indices |
| IrqTable.SamePosition | CoLib/CoKernel/CoKernel.cpp:150 | the mixed signed and unsigned comparison tells `i` and `pos - 1` apart exactly, also at position 0 |
| IrqTable.CoKernel.UpdateIRQ | CoLib/CoKernel/CoKernel.cpp:74-125 | a new descriptor goes to a least loaded core, which is charged for it; a known one only has its events changed; a failed registration changes nothing |
| IrqTable.CoKernel.RemoveIRQ | CoLib/CoKernel/CoKernel.cpp:127-161 | a known descriptor is dropped and its core's load goes down, whatever epoll_ctl returns; an unknown one changes nothing |
| IrqTable.CoKernel.LoadsSumToFiles | CoLib/CoKernel/CoKernel.cpp:84-156 | the loads add up to the size of the map |
| IrqTable.CoKernel.ShareHolds | CoLib/CoKernel/CoKernel.cpp:84-156 | each core owns at most its share of the most descriptors ever registered |
| IrqUpdates.StepKeeps | CoLib/CoKernel/CoKernel.cpp:79-158 | every step of any interleaved update or removal keeps the table invariant, and no index or decrement goes out of range |
| IrqUpdates.ChosenIsCharged | CoLib/CoKernel/CoKernel.cpp:84-103 | the core chosen before the suspension is still the first when it is charged after it, and has the descriptor |
| IrqUpdates.AtRestWhenFree | CoLib/CoKernel/CoKernel.cpp:79-158 | whenever the lock is free, the table is sorted and exact, and each descriptor is in the epoll of the core that the map names |
| IrqUpdates.EpollMatchesMap | CoLib/CoKernel/CoKernel.cpp:79-158 | while every deletion succeeds, a core's epoll has a descriptor, whenever the lock is free, if and only if the map names that core for it |
| IrqUpdates.UpdateRegisters | CoLib/CoKernel/CoKernel.cpp:79-123 | whatever the others do, an update of an unknown descriptor calls epoll_ctl once it has the lock, on the core that is then the first; on success the map and the kernel have the pair and that core alone has one more, on failure nothing has changed, and nor has it for a known one |
| IrqUpdates.RemovalUnregisters | CoLib/CoKernel/CoKernel.cpp:132-158 | whatever the others do, a removal of a known descriptor takes it from the map and its core has one less, and the kernel drops the pair if epoll_ctl succeeds; for an unknown one nothing has changed |
| IrqUpdates.TurnsGoOn | CoLib/CoKernel/CoKernel.cpp:79-158 | each turn of a call brings it nearer to its end, or finds that another task has the lock |
| TimeWQ.Deadline | CoLib/CoKernel/TimeWQ.cpp:55-73 | the timer goes off at least 100us ahead, and otherwise less than 1us before the deadline and never after it |
| TimeWQ.TimeWQ.ResetTimerfd | CoLib/CoKernel/TimeWQ.cpp:55-73 | seconds and nanoseconds split the truncated delay without loss |
| TimeWQ.TimeWQ.AddWait | CoLib/CoKernel/TimeWQ.cpp:75-91 | the sleeper goes behind all with no later deadline; the timer is re-armed if and only if it becomes the first |
| TimeWQ.InsertSorted | CoLib/CoKernel/TimeWQ.cpp:75-91 | insertion keeps the (deadline, insertion) order and every sleeper |
| TimeWQ.TimeWQ.Wakeup | CoLib/CoKernel/TimeWQ.cpp:28-42 | exactly the due prefix is woken, in order, and the timer is armed for the first sleeper left |
| TimeWQ.TimeWQ.Close | CoLib/CoKernel/TimeWQ.cpp:12-19 | every sleeper left is woken once, in order |
| TimeWQ.DueExact | CoLib/CoKernel/TimeWQ.cpp:32-41 | in a sorted list the due sleepers are exactly a prefix |
| TimeWQ.StablePriorityQueue | CoLib/CoKernel/TimeWQ.cpp:28-91 | over every run with a monotone clock, however late or early the wake-ups, the list is sorted, added is woken plus pending, no one is woken early, and a non-empty list has its timer set |
| TimeWQ.WakeupTakesTheDue | CoLib/CoKernel/TimeWQ.cpp:28-42 | a wake-up at any instant wakes the due sleepers and no other, in (deadline, insertion) order |
| TimeWQ.Perform | CoLib/CoKernel/TimeWQ.cpp:28-91 | the list does at each event what the run does, and wakes the handles that the run wakes |
| TimeWQ.RunIsPlayed | CoLib/CoKernel/TimeWQ.cpp:28-91 | a run is the one that its events determine, which is the one the list follows in Lifetime |
| TimeWQ.Lifetime | CoLib/CoKernel/TimeWQ.cpp:7-91 | from construction to destruction through any events, the handles woken, and those that the destructor wakes, are those of the run, in order |
| TimeWQ.AddKeepsArmedIffPrompt | CoLib/CoKernel/TimeWQ.cpp:64-91 | adding keeps the timer bound if and only if the deadline is not past or some sleeper is due no later |
| TimeWQ.SleepersOnTime | CoLib/CoKernel/TimeWQ.cpp:28-91 | under an ideal timer, with prompt deadlines, no sleeper is woken early or more than 100us late |
| TimeWQ.LateUnlessPrompt | CoLib/CoKernel/TimeWQ.cpp:64-91 | under an ideal timer a sleeper that is not added promptly is never woken within 100us after its deadline |
| TimeWQ.AllOnTimeIffPrompt | CoLib/CoKernel/TimeWQ.cpp:28-91 | an ideal timer that has woken everyone woke everyone on time if and only if all were added promptly |
| TimeWQ.LateSleeper | CoLib/CoKernel/TimeWQ.cpp:64-91 | a run in which an ideal timer wakes a sleeper 1.1ms after its deadline |
| FileWQ.FileWQ.Wakeup | CoLib/CoKernel/FileWQ.cpp:27-51 | the loop with erasure does what the greedy dispatch does to waiters, deliveries and pending mask |
| FileWQ.MaskSplit | CoLib/CoKernel/FileWQ.cpp:27-51 | the delivered masks and the final mask make up the initial one without overlap |
| FileWQ.MasksFit | CoLib/CoKernel/FileWQ.cpp:33-39 | each delivered mask is non-empty, was asked for and was pending |
| FileWQ.MasksDisjoint | CoLib/CoKernel/FileWQ.cpp:33-39 | no event is delivered to two waiters |
| FileWQ.NoMatchLeft | CoLib/CoKernel/FileWQ.cpp:27-51 | no remaining waiter matches the final mask |
| FileWQ.WaitersKept | CoLib/CoKernel/FileWQ.cpp:27-51 | woken and remaining waiters are the original list, each in order |
| FileWQ.LastWaits | CoLib/CoKernel/CoKernel.h:210-217 | a waiter added behind the others that asks for nothing pending is not woken and changes nothing for them |
| FileWQ.AwaitQueued | CoLib/CoKernel/CoKernel.h:212-226 | a queued attempt that blocks leaves its waiter last in the list and not woken, and wakes the others that match; one that does not makes its own handle ready |
| FileWQ.HandleReport | CoLib/CoKernel/FDICU.cpp:37-39 | after one report each waiter of the queue has been woken once or still waits, none of those asked for what is still pending, and that is what was pending and reported less what was delivered |
| FileWQ.WaitIRQ | CoLib/CoKernel/FDICU.cpp:35-40 | over all reports, on every queue, the waiters at first are those woken plus those left, as multisets, every event is delivered or still pending, none of those left matches, and the handles made ready are those of the deliveries in order |
| FileWQ.ReportsKeepWaiters | CoLib/CoKernel/FDICU.cpp:35-40 | over any reports no waiter is lost or woken twice, and a reported queue keeps no waiter that matches its mask |
| FileWQ.ReportsKeepMask | CoLib/CoKernel/FDICU.cpp:35-40 | over any reports each event that was pending or reported is delivered or still pending, and only to waiters that asked for it |
| FileWQ.CallsOfQueue | CoLib/CoKernel/FDICU.cpp:35-40 | the deliveries of all queues, restricted to one, are those that its own reports cause, in order |
| FileReadiness.StepKeeps | CoLib/CoKernel/CoKernel.h:187-229 | every step of the reader, the core and the data keeps the readiness invariant |
| FileReadiness.ReadinessNotLost | CoLib/CoKernel/CoKernel.h:196-226 | a registered reader has a descriptor without data, an edge still to be reported, or a report on its way to it |
| FileReadiness.ReadyReaderIsWoken | CoLib/CoKernel/FDICU.cpp:28-42 | in every run a registered reader whose descriptor has data is woken with data within four turns of the core, three if it is free, whatever arrives between them |
| FileReadiness.AttemptIsAnswered | CoLib/CoKernel/CoKernel.h:196-226 | in every run an attempt that found data makes its reader ready, and one that found none leaves it in the wait list with nothing pending for it, two turns of the core later |
| FileReadiness.WokenByReport | CoLib/CoKernel/CoKernel.h:196-226 | a waiting reader is woken only by the dispatch of a report, never by what was pending before its attempt |
| FileReadiness.CoreGoesOn | CoLib/CoKernel/FDICU.cpp:28-42 | the core can go on unless it is free, no reader has called it and no edge is to be reported |
| EventLoop.StepKeeps | CoLib/CoKernel/Core.cpp:58-77 | every step of any loop, and of any thread that queues, wakes or makes ready, keeps every blocked loop told of its functions |
| EventLoop.NeverSleepsPastWork | CoLib/CoKernel/Core.h:33-40 | a loop that blocks with a queued function has its eventfd signalled, or a producer is about to signal it |
| EventLoop.AttendedIff | CoLib/CoKernel/CoKernel.cpp:163-178 | a step leaves no ready coroutine to a timeout if and only if a handle is made ready by an unstopped loop's thread or while some loop is running or told to wake, and the last such loop stops only with nothing ready |
| EventLoop.ReadyIsAttended | CoLib/CoKernel/Core.cpp:63-76 | in runs of such steps, while a coroutine is ready some loop is running, or blocked and told to wake |
| EventLoop.RunAttendedIff | CoLib/CoKernel/Core.cpp:58-77 | a run has that at every instant if and only if all its steps are such |
| EventLoop.ReadyFromOutside | CoLib/CoRo/Task.h:12-15 | a run in which a thread without a loop leaves a ready coroutine to the timeout of the only loop |
| EventLoop.ReadyLeftByStop | CoLib/CoKernel/Core.cpp:58-77 | a run in which the last awake loop stops and leaves a ready coroutine to the timeout of the other |
| EventLoop.WokenLoopDrains | CoLib/CoKernel/Core.cpp:58-77 | in every run a signalled loop that is not told to quit takes a queued function by its fourth turn, whatever the others do between its turns |
| EventLoop.LoopServesReady | CoLib/CoKernel/Core.cpp:58-76 | in every run a loop that has not stopped and is not told to quit comes to the ready queue, and takes a coroutine if there is one, within a number of its own turns that grows by two for each function queued on its core meanwhile |
| EventLoop.QueuedIsTakenOrThere | CoLib/CoKernel/Core.cpp:63-69 | in every run as many functions have been queued on a core as its loop has taken and are left, and the loop is in a function only by having taken it |
| EventLoop.ReadyIsResumedOrThere | CoLib/CoKernel/CoKernel.cpp:163-178 | in every run as many coroutines have been made ready as the loops have resumed and are still ready |
| EventLoop.EachWriteEndsOneWait | CoLib/CoKernel/Core.cpp:76 | no write to an eventfd ends more than one wait of its loop |
| EventLoop.NoWakeFromOwnLoop | CoLib/CoKernel/Core.h:33-40 | a function that a loop's own thread queues on its core costs no write to the eventfd |
| EventLoop.LoopGoesOn | CoLib/CoKernel/Core.cpp:58-77 | a loop is held up only in epoll_wait, and only while its eventfd is not signalled and nothing else ends the wait |
| ThreadCore.StepKeeps | CoLib/CoKernel/ThreadCore.cpp:2-55 | every step of the owner, the thread and the others keeps the handshake invariant |
| ThreadCore.RunReturnsAfterReset | CoLib/CoKernel/ThreadCore.cpp:38-54 | run() returns, however often it is called, only when the loop is past its reset of `quit_` |
| ThreadCore.QuitNotOverwritten | CoLib/CoKernel/ThreadCore.cpp:9-25 | from the destructor's quit on, `quit_` stays set |
| ThreadCore.RunProgresses | CoLib/CoKernel/ThreadCore.cpp:49-55 | while run() waits, the thread can go on without any event, and each of its steps brings run() nearer to its return |
| ThreadCore.JoinProgresses | CoLib/CoKernel/ThreadCore.cpp:17-24 | while the join waits, the thread can go on without a timeout and each of its steps brings it nearer to its end |
| ThreadCore.JoinCompletes | CoLib/CoKernel/ThreadCore.cpp:9-25 | the join completes within a number of thread turns that is known when it begins, whatever the others do |
| ThreadCore.QuitEndsLoop | CoLib/CoKernel/Core.cpp:54-78 | once `quit_` is set after the reset it stays set, and the thread ends within a number of its turns that is known then |
| ThreadCore.UserQuitEndsLoop | CoLib/CoKernel/Core.cpp:80-87 | a quit() called in the loop's own thread is in force at once and ends the loop within that bound |
| ThreadCore.StartProgresses | CoLib/CoKernel/ThreadCore.cpp:2-7 | while the constructor waits, the thread can go on without any event, and each of its steps brings the core nearer |
| ThreadCore.OwnerGoesOn | CoLib/CoKernel/ThreadCore.cpp:2-55 | each turn of the owner that is not a wait brings its call nearer to its end, through quit and wake-up to the join |
| ThreadCore.FunctionsRunInOrder | CoLib/CoKernel/Core.cpp:63-69 | the functions queued are those that the loop has run and those left, in order, the one of line 38 of ThreadCore.cpp among them |
| ThreadCore.ReadyIsResumedOrThere | CoLib/CoKernel/Core.cpp:70-75 | as many coroutines have been made ready as resumed and left |
| ThreadCore.NeverSleepsPastWork | CoLib/CoKernel/Core.cpp:58-77 | the loop does not wait with a function queued unless its eventfd is signalled |
| ThreadCore.EachWriteEndsOneWait | CoLib/CoKernel/Core.cpp:76 | no write to the eventfd ends more than one wait |
| Lazy.Simulates | CoLib/CoRo/Lazy.h:14-229 | a frame at any depth reaches its final suspension with the value or exception, and the effects, of direct evaluation, and every frame made under it has been destroyed once |
| Lazy.AwaitStarts | CoLib/CoRo/Lazy.h:146-161 | an await makes the caller the child's continuation, passes on its control block and runs the child |
| Lazy.AwaitEnds | CoLib/CoRo/Lazy.h:127-181 | after the child the caller goes on with its value, or with its exception in the handler or onwards, and the child is destroyed once either way |
| Lazy.UnusedSteps | CoLib/CoRo/Lazy.h:201-208 | a Lazy that is never awaited is destroyed unstarted |
| Lazy.TaskRuns | CoLib/CoRo/Task.h:5-29 | a task runs to its end with the effects of direct evaluation; no frame is left and each has been destroyed exactly once |
| Lazy.NoDanglingHandle | CoLib/CoRo/Lazy.h:14-229 | at no instant is a destroyed frame or an empty result used, or a frame destroyed twice |
| Lazy.SameControlBlock | CoLib/CoRo/Lazy.h:144-161 | whichever frame of a task runs or suspends, the control block it shows is the task's own |
| LazyRuntime.Runtime.OperandsLive | CoLib/CoRo/Lazy.h:144-181 | every handle that the next step follows refers to a frame that is not destroyed, and every result it reads is there |
| LazyRuntime.Runtime.StepOnce | CoLib/CoRo/Lazy.h:14-229 | one step on the heap is one step of the machine, changes only frames that are not destroyed, and leaves the destroyed ones as they were; the references it follows are not checked |
| LazyRuntime.RunTask | CoLib/CoRo/Task.h:5-29 | on the heap a task ends with the effects of direct evaluation; every frame has been destroyed exactly once and is as it was then |
| Handles.StepKeeps | CoLib/CoKernel/CoKernel.cpp:163-178 | every step that takes, publishes or drops a handle keeps each live one in one place and each thread at one thing |
| Handles.InExactlyOnePlace | CoLib/CoKernel/CoKernel.h:89-349 | a task is live if and only if exactly one entry that is not stale holds its handle: in the ready queue, a wait list, a mutex queue, a queued or running function, an unlocker's hand or on a core |
| Handles.StaleNeverUsed | CoLib/CoKernel/TimeWQ.cpp:39-40 | between publishing a handle and erasing or returning, its old entry is never woken or resumed again, and dropping it leaves every other entry as it is |
| Handles.ResumedEarly | CoLib/CoKernel/CoKernel.h:89-95 | a run in which a coroutine runs on one core while another is still in the await_suspend that published it |
| Handles.NeverOnTwoCores | CoLib/CoKernel/CoKernel.cpp:168-178 | no two cores run the same coroutine, and a core runs one thing at a time |
| Handles.ResumptionsMatchWakeUps | CoLib/CoKernel/CoKernel.cpp:163-178 | over every run a task is resumed once for each time it was made ready, so never twice for one wake-up |
| Suspensions.QueuesAreFifo | CoLib/CoKernel/CoKernel.h:89-349 | over every run the ready queue, each function queue and each mutex queue are first in, first out and lose nothing: what was put in is what was taken out, in order, followed by what is there |
| Suspensions.SuspendedUntilWoken | CoLib/CoKernel/CoKernel.h:89-349 | a task that suspends is where that suspension puts it until the wake-up that belongs to it, and no other, makes it ready: a sleeper until its core's timer wakes it, a reader until its descriptor does, a lock waiter until an unlocker of that mutex has taken it and wakes it, a caller until the function that it queued has run |
| Suspensions.CoreGoesOn | CoLib/CoKernel/CoKernel.cpp:163-178 | no thread gets stuck on a missing handle: the next step of each can be taken, in its loop whenever there is something to take |

## Left out

- System calls (`epoll_ctl`, `epoll_wait`, `eventfd`, `timerfd`, socket reads): they are a readiness flag, an edge flag and an armed deadline, and their results and the clock readings are parameters. A failing `epoll_wait` is an empty list of reports.
- Weak memory ordering: every atomic operation is sequentially consistent, and `SpinLock` is an atomic lock.
- MpmcQueue.MpmcQueue.Enqueue: the heap class is used by one thread at a time, so its spin loops are left at once; the interleavings are those of `MpmcSteps`, on values.
- MpmcLinearizable.Linearizable: covers timely runs, which are exactly those that keep the invariant; a run that is not timely can still give the results of a FIFO, if no dequeuer follows the late link before another link overwrites it.
- MpmcProgress.NoDeadlock: covers timely runs, in which the lists say for whose link a spin waits. The other lemmas of that module but `ValuesMoveOut` hold in every run.
- HandoffMutex.MutualExclusion: only owners unlock and nobody relocks; `AMutex::try_to_lock`, which discards its result, is not modelled, while `TryLockAwaiter` is. The queue of waiters is one atomic sequence.
- HandoffMutex.SpinEnds: no turn of a given task is promised, here or in the other lemmas about progress; they say what follows once it has had one.
- IrqTable.CoKernel.UpdateIRQ: the lock and the suspension are in `IrqUpdates`; `irqn` and the descriptor counts are unbounded.
- IrqTable.CoKernel.constructor: starts from `pos` equal to `index`, which is what the initialiser means; `Core` declares `pos` before `index`, so it is read early. The threads of the cores are in `ThreadCore`.
- TimeWQ.SleepersOnTime: the timer is ideal and handlers take no time; `Ideal` asks for that, here and in the other two lemmas about lateness only.
- FileWQ.FileWQ.Wakeup: the tests for absent callbacks, the callback that reads an eventfd, and the destructor of `FileWQ`, which wakes everyone, are left out; masks are sets of bits.
- FileReadiness.ReadinessNotLost: one reader per descriptor; several readers of one descriptor and waiters on one being closed are promised nothing by the code.
- EventLoop.NeverSleepsPastWork: `quit` is a choice in each turn of a loop, and so are the timeout and other events that end a wait; the wait in the destructor of `Core` is left out.
- EventLoop.ReadyIsAttended: holds under the condition of `AttendedIff`, because the code does not wake a loop for a ready coroutine.
- ThreadCore.JoinCompletes: the work that others add after the join begins is bounded by a number fixed in advance, and each function and coroutine returns; `ThreadCore::wait` is left out.
- Lazy.Simulates: a coroutine body is a finite tree of calls, effects, branches and handlers, without loops; `Lazy` move assignment and `isReady` are left out. `LazyRuntime` has the same bodies.
- Handles.InExactlyOnePlace: a dequeue is one step, as `MpmcLinearizable` proves of the queue; any core or mutex may be named by any step; which waiter an event wakes is in `FileWQ`, `TimeWQ` and `HandoffMutex`; destroying a wait queue with waiters is left out.
- HandoffMutex, EventLoop, ThreadCore, IrqUpdates, FileReadiness and Handles are machines over values, because their subject is the interleaving of threads; memory layout and aliasing are not captured there.
- `ASocket` and the `std::function` machinery only wrap what is modelled; the older files in the root directory, everything in `outf/` and the example programs are not built into the runtime, which promises nothing about them.

# Kernel objects of the Telink BLE SDK, modelled and proved

The SDK carries a modified FreeRTOS V10.4.2 kernel. This project models the part of that kernel whose
guarantees no single function shows: a priority scheduler on a tick count that wraps, blocking queues with a
lock window against interrupts, mutexes with priority inheritance, software timers, event groups, and stream
and message buffers. It also models two modules of Telink's own: the key matrix pipeline of the keyboard, and
the linked priority queue of the common library.

Time is an unbounded count of processed ticks; the kernel sees it modulo 2^32. A protocol is a state machine
whose steps are critical sections, interrupt bodies, calls made with the scheduler suspended, or stretches of the
timer service task between two looks at what it shares with others; its theorems are about every run from the
initial state. Where a class (or a method on an array) works in place, as the source does, its loops and pointer
writes are proved to do exactly what the corresponding step function does, so that the theorems about steps are
theorems about it. Not everything has such a class: `Kernel` has the tick, the resumption of the scheduler, the
switch and the delay, but not signal, suspend, resume, priority change, deletion or creation; `EventGroup` has only
the setting of bits; `Queue` has the copies, the interrupt functions and the unlocking, but not the sections of a
send or receive by a task; mutexes are modelled on values alone.

| file | part of the system |
|---|---|
| Clock.dfy | tick arithmetic, timeouts, periodic delays |
| Lists.dfy, IntrusiveList.dfy | the value of a kernel list and its round robin; the linked ring |
| QueueProtocol.dfy, Queue.dfy | the blocking protocol; the queue object and its ring of slots |
| QueueEffects.dfy | what each event does to the messages and waiters, and what becomes of a call |
| Scheduler.dfy, Kernel.dfy | where every task is and when it wakes; the same in place |
| Turns.dfy, Effects.dfy | round robin over whole runs; what each event does to every task, without the lists |
| Mutex.dfy, MutexEffects.dfy | ownership, nesting, priority inheritance; what each event does to every mutex and task |
| Timers.dfy | the timer service task |
| EventGroups.dfy | waiting for bits |
| StreamBuffer.dfy, StreamProtocol.dfy | bytes and messages; one writer and one reader without a lock |
| TlQueue.dfy | the linked priority queue |
| Keyboard.dfy | ghost keys, debouncing, the ring of changed matrices |
| Sequences.dfy, Modular.dfy, Wrappers.dfy | insertion and removal; positions in a ring; optional values |

The configuration is generic task selection, preemption, `INCLUDE_vTaskSuspend` 1, mutexes on, queue sets off,
32-bit ticks and no tickless idle. Assertions of the source (`configASSERT`) are conditions under which a step
is enabled, or preconditions.

Nine things that the code does not do, or does only under a condition, are stated as such:

- `xTaskResumeAll` with a raised `reg_irq_threshold` hands each pended tick back to `xTaskIncrementTick`, which
  pends it again, and then clears the count: the ticks are lost (`Scheduler.ResumeLosesTicks` says exactly when,
  `Scheduler.ResumeCanLoseTicks` shows a run). "Not suspended implies no pended ticks" is not an invariant of this
  kernel (`Scheduler.TickCanPendUnsuspended` shows a run, `Scheduler.PendsUnsuspendedIff` says which steps break it),
  and none is used.
- `xTaskAbortDelay` sets a flag that only a look at the time or the next block clears. If the aborted call succeeds
  after all, the flag makes the next call of that task fail at once (`QueueProtocol.AbortCanHitNextCall` shows a run).
  `QueueProtocol.FirstLookIsExcusedIff` and `QueueProtocol.CleanCallIsNeverExcused` say exactly which calls are hit.
- `vTaskPrioritySet` gives the item of a waiting task a new value and leaves it where it is: a wake-up can then take a
  less urgent task (`QueueProtocol.WakeCanSkipTheUrgent`; `QueueProtocol.OrderLastsIff` says exactly when the lists
  stay in order).
- `vTaskPrioritySet` can leave a task below its own new base (`Mutex.RaisingCanSinkBelowBase`, `Mutex.FloorLastsIff`),
  and a holder below the task that waits for it (`Mutex.LoweringCanBreakDonation`, `Mutex.SoundLastsIff`).
- A donation does not always reach through a chain of mutexes (`Mutex.ChainsAreNotServed`); `Mutex.DonationsKeptIff` and
  `Mutex.DonationsLastIff` say exactly when it does.
- `xTaskCheckForTimeOut`, `xTaskDelayUntil` and `prvInsertTimerInActiveList` can be wrong after an absence of a
  whole wrap; the `...IsRightIff` lemmas say exactly when.
- Removing the ready item at `pxIndex` can cost the item before it a turn (`Lists.RemovalDelaysIff`).
- `queue_insert` can break the priority order (`TlQueue.InsertCanBreakOrder`, `TlQueue.InsertKeepsOrderIff`).
- The comment in `kb_rmv_ghost_key` speaks of three or four keys; the code removes a shared column also from
  rows that hold nothing else, as soon as some row that has it holds another key too
  (`Keyboard.ThirdRowTakesItAway`, `Keyboard.SharedColumnIff`).

## Model

| member | source | states |
|---|---|---|
| `Lists.InsertSortedIsStable` | tl_ble_sdk/3rd-party/freertos-V5/list.c:135-180 | a sorted insert keeps the order and lands behind every item of the same value |
| `Lists.RemoveUndoesInsert` | tl_ble_sdk/3rd-party/freertos-V5/list.c:183-209 | removing an item restores the list as it was before the item went in, wherever it went in |
| `Lists.RevalueKeepsOrderIff` | tl_ble_sdk/3rd-party/freertos-V5/tasks.c:1645-1654 | setting the value of a listed item where it is leaves a sorted list sorted iff the new value lies between those of its neighbours |
| `Lists.RemoveKeepsMembers` | tl_ble_sdk/3rd-party/freertos-V5/list.c:183-209 | a removal takes out that item and no other, and keeps the order |
| `Lists.AdvanceBringsCloser` | tl_ble_sdk/3rd-party/freertos-V5/tasks.c:134-149 | each selection brings every waiting member exactly one turn closer |
| `Lists.InsertEndDelaysNobodyWaiting` | tl_ble_sdk/3rd-party/freertos-V5/list.c:96-111 | an item added behind the index leaves every waiting member's turn where it was, and puts off by one only a member that the index is on |
| `Lists.RemoveDelaysNobody` | tl_ble_sdk/3rd-party/freertos-V5/list.c:187-206 | a removal never pushes a waiting member later |
| `Lists.RemovalAtIndexCanDelay` | tl_ble_sdk/3rd-party/freertos-V5/list.c:196-199 | a list on which removing the item at the index and adding another does push a waiting member later |
| `Lists.RemovalDelaysIff` | tl_ble_sdk/3rd-party/freertos-V5/list.c:196-199 | a removal followed by an insertion pushes a waiting member later iff the removed item was at the index and the member is the one just before it |
| `Lists.RoundRobin` | tl_ble_sdk/3rd-party/freertos-V5/tasks.c:134-149 | whatever is inserted and removed meanwhile, also at the index, a member of a list of n items is selected within n switches and one more for every item added while the index was on it |
| `Lists.RoundRobinUndisturbed` | tl_ble_sdk/3rd-party/freertos-V5/tasks.c:134-149 | if the item at the index is not removed, a waiting member of a list of n items is selected within n switches |
| `Lists.InsertedIsLast` | tl_ble_sdk/3rd-party/freertos-V5/list.c:96-111 | an item added at the end has its turn after everybody's but that of the item at the index, which has just had it |
| `Lists.EndAllGoesBehind` | tl_ble_sdk/3rd-party/freertos-V5/list.c:96-111 | items added one after the other have their turns behind everybody's but that of the item at the index, in the order in which they were added |
| `Turns.ReadyGetsToRun` | tl_ble_sdk/3rd-party/freertos-V5/tasks.c:134-149 | in every run, a task that stays ready with nobody ready above it, one of n on its ready list, is running by the time n unsuspended context switches have been made, and one more for every task put on that list while its index was on the task; creations, signals, resumptions, ticks and the moves of others happen meanwhile |
| `Turns.StepTurn` | tl_ble_sdk/3rd-party/freertos-V5/tasks.c:218-222 | no step but a switch brings a ready task's turn closer, and none puts it off but by those put on its list while the index is on it |
| `Turns.DrainIsInOrder` | tl_ble_sdk/3rd-party/freertos-V5/tasks.c:2228-2262 | the pending-ready loop puts the tasks at the ends of their ready lists in the order in which they were readied |
| `IntrusiveList.KernelList.constructor` | tl_ble_sdk/3rd-party/freertos-V5/list.c:48-70 | an empty ring of the marker alone |
| `IntrusiveList.KernelList.FindPlace` | tl_ble_sdk/3rd-party/freertos-V5/list.c:135-180 | the search loop stops, also for portMAX_DELAY, at the node after which the item belongs |
| `IntrusiveList.KernelList.InsertEnd` | tl_ble_sdk/3rd-party/freertos-V5/list.c:85-112 | the pointer writes do to the linked ring what InsertEnd does to its value; ring, container and count stay right |
| `IntrusiveList.KernelList.Insert` | tl_ble_sdk/3rd-party/freertos-V5/list.c:115-180 | the search and the pointer writes do what the sorted insert does to the value |
| `IntrusiveList.Remove` | tl_ble_sdk/3rd-party/freertos-V5/list.c:183-209 | the item is unlinked from the list named by its container, the index steps back if it was on it, and the count is returned |
| `Clock.CheckIsNeverEarly` | tl_ble_sdk/3rd-party/freertos-V5/tasks.c:3314-3376 | however long the caller was away, a timeout is never reported early unless the delay was aborted, and the deadline is never brought forward |
| `Clock.CheckIsExact` | tl_ble_sdk/3rd-party/freertos-V5/tasks.c:3314-3376 | away for less than one wrap, the check is exact and entry time plus remaining ticks is constant |
| `Clock.CheckCanBeLate` | tl_ble_sdk/3rd-party/freertos-V5/tasks.c:3350-3371 | an absence of two wraps after which an expired wait is missed |
| `Clock.CheckIsRightIff` | tl_ble_sdk/3rd-party/freertos-V5/tasks.c:3350-3371 | for every absence, exactly when the check is right |
| `Clock.DeadlineIsFixed` | tl_ble_sdk/3rd-party/freertos-V5/tasks.c:3306-3376 | through any number of spurious wake-ups the wait is reported over iff a check falls at or after the one deadline |
| `Clock.DelayUntilIsExact` | tl_ble_sdk/3rd-party/freertos-V5/tasks.c:1249-1310 | blocks iff the next target is ahead, and then for exactly the time left, across a wrap |
| `Clock.DelayUntilCanOversleep` | tl_ble_sdk/3rd-party/freertos-V5/tasks.c:1275-1300 | a call a whole wrap late that blocks although its target has passed |
| `Clock.DelayUntilIsRightIff` | tl_ble_sdk/3rd-party/freertos-V5/tasks.c:1275-1300 | for every lateness, exactly when the decision to block is right |
| `Clock.TargetsDoNotDrift` | tl_ble_sdk/3rd-party/freertos-V5/tasks.c:1249-1329 | the k-th target is start + k * increment whatever the call times |
| `QueueProtocol.StepKeepsInv` | tl_ble_sdk/3rd-party/freertos-V5/queue.c:768-977 | every critical section of send, receive and peek, every interrupt, every cut wait, every change of priority and every tick keeps the invariant behind the wake-up theorems |
| `QueueProtocol.NoLostWakeUp` | tl_ble_sdk/3rd-party/freertos-V5/queue.c:768-977 | in every interleaving, also with items revalued during a wait, if a side is unlocked and somebody is listed on it, messages (free slots) are at most the woken tasks that have not tested the queue since |
| `QueueProtocol.NobodySleepsOnWork` | tl_ble_sdk/3rd-party/freertos-V5/queue.c:1315-1455 | once every woken task has tested the queue, receivers wait only on an empty and senders only on a full queue |
| `QueueProtocol.WakesMostUrgent` | tl_ble_sdk/3rd-party/freertos-V5/tasks.c:3177-3197 | in every run in which each change of priority fits in, whoever a step takes off a waiting list, other than by cutting that wait short, is exceeded in urgency by nobody who stays on it |
| `QueueProtocol.StepKeepsOrderIff` | tl_ble_sdk/3rd-party/freertos-V5/tasks.c:1645-1654 | a step leaves the waiting lists in order of urgency iff it is not a change of priority that puts an item out of place between its neighbours |
| `QueueProtocol.OrderLastsIff` | tl_ble_sdk/3rd-party/freertos-V5/tasks.c:1645-1654 | over whole runs the lists are in order all the way iff every change of priority during a wait fits in |
| `QueueProtocol.WakeCanSkipTheUrgent` | tl_ble_sdk/3rd-party/freertos-V5/tasks.c:1645-1654 | a run in which the priority of a waiting receiver is raised and the next send wakes a less urgent one |
| `QueueProtocol.NoEarlyTimeout` | tl_ble_sdk/3rd-party/freertos-V5/queue.c:900-975 | in every run a call reports full or empty only with no wait, at or after its deadline, or after its check found the abort flag; the last only for tasks that some xTaskAbortDelay hit; an endless wait never times out |
| `QueueProtocol.Blocks` | tl_ble_sdk/3rd-party/freertos-V5/queue.c:932-975 | a send, receive or peek that the queue cannot serve and that may wait, left alone for eight sections, is blocked on the list of its side in its place, with the queue unlocked |
| `QueueEffects.LooksAreExact` | tl_ble_sdk/3rd-party/freertos-V5/tasks.c:3306-3376 | in every run, from the instant of the first test on, a call that is not aborted and looks at the time once in a wrap gives up at a look iff the time asked for has passed since |
| `QueueEffects.CallEndsAsAsked` | tl_ble_sdk/3rd-party/freertos-V5/queue.c:768-977 | in every interleaving, a call ends by a section of its own: it has done what was asked for and nothing else, or moved no message and reports a failure that is due by the wait that was asked for |
| `QueueEffects.NoWaitNoBlock` | tl_ble_sdk/3rd-party/freertos-V5/queue.c:900-912 | a call that may not wait returns from its first section |
| `QueueEffects.GivingUpEnds` | tl_ble_sdk/3rd-party/freertos-V5/queue.c:966-975 | a send whose time is up fails; a receive or peek looks once more, fails on an empty queue and tries again otherwise |
| `QueueEffects.TestHasEffect` | tl_ble_sdk/3rd-party/freertos-V5/queue.c:1345-1420 | a test succeeds iff the queue has what the call needs, moves exactly that message (a peek none), and returns; otherwise it fails if it may not wait and goes on if it may |
| `QueueEffects.InterruptHasEffect` | tl_ble_sdk/3rd-party/freertos-V5/queue.c:980-1144 | an interrupt puts its item in at the back, at the front or over the only one, or takes the first, iff there is room or an item; locked or not |
| `QueueEffects.InterruptWakes` | tl_ble_sdk/3rd-party/freertos-V5/queue.c:1024-1140 | it wakes one task of the other side, or, if the queue is locked, counts one more |
| `QueueEffects.TestWakes` | tl_ble_sdk/3rd-party/freertos-V5/queue.c:1365-1380 | a call that succeeds wakes exactly one task: a send or peek a receiver, a receive a sender |
| `QueueEffects.UnlockWakes` | tl_ble_sdk/3rd-party/freertos-V5/queue.c:2227-2344 | unlocking wakes on each side exactly as many as were counted, or all there are, and ends the count |
| `QueueEffects.OthersWakeNobody` | tl_ble_sdk/3rd-party/freertos-V5/queue.c:932-975 | no other section wakes anybody; a wait cut short ends for that task alone |
| `QueueEffects.OthersMoveNothing` | tl_ble_sdk/3rd-party/freertos-V5/queue.c:932-975 | no other section and no other event moves a message |
| `QueueProtocol.FlagIsKept` | tl_ble_sdk/3rd-party/freertos-V5/tasks.c:5281-5288 | in every interleaving ucDelayAborted stays as it is until the task is aborted, looks at the time or puts itself on a waiting list, so it outlives a call that returns first |
| `QueueProtocol.FirstLookIsExcusedIff` | tl_ble_sdk/3rd-party/freertos-V5/tasks.c:3328-3337 | in every interleaving in which nobody aborts the call, its first look at the time gives it up as aborted iff the task had the flag when it made the call |
| `QueueProtocol.CleanCallIsNeverExcused` | tl_ble_sdk/3rd-party/freertos-V5/tasks.c:3328-3337 | in every interleaving a task without the flag that nobody aborts never fails as aborted |
| `QueueProtocol.AbortHitsNextCall` | tl_ble_sdk/3rd-party/freertos-V5/tasks.c:3328-3337 | in any state in which a task has the flag, its next receive on an empty queue, left alone, fails at once, even with an endless wait |
| `QueueProtocol.AbortCanHitNextCall` | tl_ble_sdk/3rd-party/freertos-V5/tasks.c:2659-2732 | a run from the initial state in which the aborted receive succeeds and the next one, with an endless wait, fails in the instant in which it is made |
| `QueueProtocol.FifoDelivery` | tl_ble_sdk/3rd-party/freertos-V5/queue.c:768-977 | in every run of sends to the back, items received followed by items held are the items sent, in order |
| `QueueEffects.FifoFromHere` | tl_ble_sdk/3rd-party/freertos-V5/queue.c:2151-2224 | from any state on, while everyone sends to the back, what was queued is received first and in order, and then what is sent |
| `QueueEffects.FrontIsNext` | tl_ble_sdk/3rd-party/freertos-V5/queue.c:2165-2198 | in every run an item sent to the front is the next one received, and after it come the items that were there before, whatever is sent to the back meanwhile |
| `QueueProtocol.SendFromIsrKeepsInv` | tl_ble_sdk/3rd-party/freertos-V5/queue.c:980-1144 | the interrupt send, which only counts while the queue is locked, keeps the invariant |
| `QueueProtocol.ReceiveFromIsrKeepsInv` | tl_ble_sdk/3rd-party/freertos-V5/queue.c:1828-1920 | the interrupt receive likewise |
| `QueueProtocol.UnlockTxKeepsInv` | tl_ble_sdk/3rd-party/freertos-V5/queue.c:2227-2313 | the first half of prvUnlockQueue wakes enough receivers for what was sent while locked |
| `QueueProtocol.UnlockRxKeepsInv` | tl_ble_sdk/3rd-party/freertos-V5/queue.c:2315-2344 | the second half wakes enough senders for what was received while locked |
| `QueueProtocol.PlaceKeepsInv` | tl_ble_sdk/3rd-party/freertos-V5/queue.c:932-965 | a task places itself only if the queue gives it nothing, so placing keeps the invariant |
| `Queue.SlotIsModular` | tl_ble_sdk/3rd-party/freertos-V5/queue.c:273-276 | item i lies at slot (read + 1 + i) mod length |
| `Queue.PutBackRefines` | tl_ble_sdk/3rd-party/freertos-V5/queue.c:2151-2164 | writing at the write slot appends to the contents |
| `Queue.PutFrontRefines` | tl_ble_sdk/3rd-party/freertos-V5/queue.c:2165-2198 | writing at the read slot and stepping it back puts the item in front |
| `Queue.TakeRefines` | tl_ble_sdk/3rd-party/freertos-V5/queue.c:2206-2224 | stepping the read slot on and reading takes the first item |
| `Queue.Queue.constructor` | tl_ble_sdk/3rd-party/freertos-V5/queue.c:264-310 | an unlocked queue without contents or waiters |
| `Queue.Queue.CopyDataToQueue` | tl_ble_sdk/3rd-party/freertos-V5/queue.c:2123-2203 | a send to the back puts the item behind the contents, one to the front before them, and an overwrite leaves only the item; the write slot stays (read + 1 + count) mod length |
| `Queue.Queue.CopyDataFromQueue` | tl_ble_sdk/3rd-party/freertos-V5/queue.c:2206-2224 | returns the first item and drops it from the contents |
| `Queue.Queue.PeekData` | tl_ble_sdk/3rd-party/freertos-V5/queue.c:1714-1724 | returns the first item and changes nothing |
| `Queue.Queue.SendFromIsr` | tl_ble_sdk/3rd-party/freertos-V5/queue.c:980-1144 | the object goes where the protocol step SendFromIsr goes: with room the item is at the end, at the front or alone in the contents, otherwise nothing changes |
| `Queue.Queue.ReceiveFromIsr` | tl_ble_sdk/3rd-party/freertos-V5/queue.c:1828-1920 | the object goes where the protocol step ReceiveFromIsr goes: the first item is returned and dropped, if there is one |
| `Queue.Queue.UnlockTx` | tl_ble_sdk/3rd-party/freertos-V5/queue.c:2227-2313 | the loop over cTxLock wakes exactly the receivers that the protocol step wakes, in order |
| `Queue.Queue.UnlockRx` | tl_ble_sdk/3rd-party/freertos-V5/queue.c:2315-2344 | the loop over cRxLock wakes exactly the senders that the protocol step wakes, in order |
| `Scheduler.StepKeepsInv` | tl_ble_sdk/3rd-party/freertos-V5/tasks.c:2210-2318 | creation, switch, tick, suspension and resumption of the scheduler, delay, wait, signal, suspend, resume, priority change, deletion and clean-up each keep the invariant of the lists |
| `Scheduler.StatePartition` | tl_ble_sdk/3rd-party/freertos-V5/tasks.c:1068-1242 | in every reachable state each task is on exactly one state list, a ready one on that of its priority and not above uxTopReadyPriority; nobody is pending once the scheduler runs; the count is the number of tasks |
| `Scheduler.SwitchSelectsHighest` | tl_ble_sdk/3rd-party/freertos-V5/tasks.c:3022-3075 | in every reachable state an unsuspended switch selects a ready task that no ready task exceeds in priority |
| `Scheduler.HighestReadyBounds` | tl_ble_sdk/3rd-party/freertos-V5/tasks.c:134-149 | the search from uxTopReadyPriority down stops at a non-empty list that bounds every ready task |
| `Scheduler.TickIsExact` | tl_ble_sdk/3rd-party/freertos-V5/tasks.c:2748-2847 | a processed tick readies exactly the tasks due at it and changes nothing else about any task, across a wrap |
| `Scheduler.WakeLoopIsExact` | tl_ble_sdk/3rd-party/freertos-V5/tasks.c:2771-2847 | the loop readies exactly the due tasks of the current list and leaves xNextTaskUnblockTime at its new head |
| `Scheduler.SwitchedOutListIsEmpty` | tl_ble_sdk/3rd-party/freertos-V5/tasks.c:199-211 | when the count wraps, the delayed list switched out is empty |
| `Scheduler.DelayedListsByRound` | tl_ble_sdk/3rd-party/freertos-V5/tasks.c:5276-5349 | in every reachable state the current list holds exactly this round's wakes, the overflow list the next round's, both sorted, nobody overdue, xNextTaskUnblockTime not after the head |
| `Scheduler.WakeListIsRight` | tl_ble_sdk/3rd-party/freertos-V5/tasks.c:5318-5334 | the 32-bit comparison tells this round from the next |
| `Scheduler.ResetNextKeeps` | tl_ble_sdk/3rd-party/freertos-V5/tasks.c:4000-4018 | the recomputed unblock time is never later than any wake of this round |
| `Scheduler.SleepsUntilDue` | tl_ble_sdk/3rd-party/freertos-V5/tasks.c:5276-5349 | a task blocked with a timeout that nobody disturbs stays asleep until its instant, whatever else happens |
| `Scheduler.ExactWake` | tl_ble_sdk/3rd-party/freertos-V5/tasks.c:2737-2847 | a task blocked at T for d ticks is asleep while the clock is short of T + d and ready after the very step that takes it there |
| `Scheduler.WaitsForEverUnlessDisturbed` | tl_ble_sdk/3rd-party/freertos-V5/tasks.c:5300-5316 | a wait for an event with portMAX_DELAY puts the task on the suspended list, and through every run of ticks and resumptions it stays there, waiting, until it is signalled, suspended or deleted |
| `Effects.StepHasEffect` | tl_ble_sdk/3rd-party/freertos-V5/tasks.c:2210-2318 | every event, from creation to nested and outermost resumption, makes of the map of tasks, the nesting, the clock, the pended ticks and the running task exactly what an abstract description without lists expects |
| `Scheduler.ResumeIsOnTime` | tl_ble_sdk/3rd-party/freertos-V5/tasks.c:2210-2318 | catching up with pended ticks wakes nobody early and nobody late |
| `Scheduler.ReadyPendingKeeps` | tl_ble_sdk/3rd-party/freertos-V5/tasks.c:2228-2262 | the pending-ready loop empties the list, moves exactly those tasks to the ready lists of their priorities and changes nobody else |
| `Scheduler.ResumeLosesTicks` | tl_ble_sdk/3rd-party/freertos-V5/tasks.c:2268-2293 | xTaskResumeAll conserves ticks iff the interrupt threshold is 0, none is pended, the suspension is nested or there are no tasks |
| `Scheduler.ResumeCanLoseTicks` | tl_ble_sdk/3rd-party/freertos-V5/tasks.c:2268-2293 | a run of four steps after which a delivered tick is neither processed nor pended |
| `Scheduler.TicksAreConserved` | tl_ble_sdk/3rd-party/freertos-V5/tasks.c:2737-2756 | in every run ticks delivered are ticks processed plus pended plus those dropped by a resume under a raised threshold, and none is dropped without that |
| `Scheduler.PendsUnsuspendedIff` | tl_ble_sdk/3rd-party/freertos-V5/tasks.c:2737-2748 | from a state with the scheduler running and no tick pended, a step leads to one with it running and a tick pended iff it is a tick under a raised interrupt threshold |
| `Scheduler.TickCanPendUnsuspended` | tl_ble_sdk/3rd-party/freertos-V5/tasks.c:2748-2748 | a run of two steps that ends with the scheduler running and a tick pended |
| `Scheduler.MoveIsAsAsked` | tl_ble_sdk/3rd-party/freertos-V5/tasks.c:1706-1805 | signal, suspend, resume, priority change, deletion and clean-up each do to their task what is asked and nothing to any other |
| `Scheduler.SignalledKeepsInv` | tl_ble_sdk/3rd-party/freertos-V5/tasks.c:3177-3224 | xTaskRemoveFromEventList keeps the invariant, with the scheduler running or suspended |
| `Scheduler.ReprioritisedKeepsInv` | tl_ble_sdk/3rd-party/freertos-V5/tasks.c:1656-1683 | a priority change moves a ready task to the list of its new priority |
| `Scheduler.DeletedKeepsInv` | tl_ble_sdk/3rd-party/freertos-V5/tasks.c:1154-1242 | deleting the running task or another keeps the invariant and the count |
| `Kernel.Kernel.WakeDueTasks` | tl_ble_sdk/3rd-party/freertos-V5/tasks.c:2771-2847 | the loop, in place, does what WakeLoop does |
| `Kernel.Kernel.IncrementTick` | tl_ble_sdk/3rd-party/freertos-V5/tasks.c:2737-2895 | in place, what the tick step does; with the scheduler suspended or the threshold raised the tick is only counted |
| `Kernel.Kernel.DrainPendingReadyList` | tl_ble_sdk/3rd-party/freertos-V5/tasks.c:2228-2262 | the loop, in place, does what ReadyPending does |
| `Kernel.Kernel.CatchUp` | tl_ble_sdk/3rd-party/freertos-V5/tasks.c:2268-2293 | the loop over pended ticks, in place |
| `Kernel.Kernel.ResumeAll` | tl_ble_sdk/3rd-party/freertos-V5/tasks.c:2210-2318 | in place, what the resume step does |
| `Kernel.Kernel.FindHighestPriority` | tl_ble_sdk/3rd-party/freertos-V5/tasks.c:134-149 | the search loop returns the highest priority whose list is not empty |
| `Kernel.Kernel.SwitchContext` | tl_ble_sdk/3rd-party/freertos-V5/tasks.c:3022-3075 | in place, what the switch step does |
| `Kernel.Kernel.AddCurrentTaskToDelayedList` | tl_ble_sdk/3rd-party/freertos-V5/tasks.c:5276-5349 | in place, with 32-bit tick arithmetic, what BlockFor does |
| `Mutex.MutexAccounting` | tl_ble_sdk/3rd-party/freertos-V5/queue.c:1458-1539 | in every run a mutex's count is 1 iff it has no holder, uxMutexesHeld counts the mutexes naming the task, a recursive mutex is held iff takes outnumber gives, uxPriority >= uxBasePriority with equality when none is held, and the event list item has the value of uxPriority |
| `Mutex.DonationLasts` | tl_ble_sdk/3rd-party/freertos-V5/tasks.c:4068-4151 | in every run in which tasks block empty-handed, from when a task blocks on a mutex until its holder gives it or the task leaves the list by the tick, the holder runs at least at the task's priority |
| `Mutex.DonationStarts` | tl_ble_sdk/3rd-party/freertos-V5/queue.c:1588-1620 | a task that blocks becomes a donor to the holder of the mutex |
| `Mutex.DonationEndsOnlyByGiving` | tl_ble_sdk/3rd-party/freertos-V5/queue.c:1592-1661 | a donation ends only when the donee gives the mutex (the outermost level of it) or the donor leaves the list by the tick |
| `Mutex.HighestWaitingBounds` | tl_ble_sdk/3rd-party/freertos-V5/queue.c:2098-2118 | the priority read off the head of the waiting list bounds everyone on it |
| `Mutex.StepDownKeepsDonation` | tl_ble_sdk/3rd-party/freertos-V5/tasks.c:4238-4337 | after a timeout the holder steps down, but never below a donation in force, also when it holds several mutexes |
| `Mutex.StepsDownExactly` | tl_ble_sdk/3rd-party/freertos-V5/tasks.c:4238-4337 | holding this mutex alone, the holder steps down to the greatest of its base and the priorities of those who still wait |
| `Mutex.TimeoutStepsDownIff` | tl_ble_sdk/3rd-party/freertos-V5/queue.c:1602-1661 | in every run in which tasks block empty-handed: if the priority of a task exceeded the holder's base when it last blocked, its giving up leaves whoever then holds only that mutex at the greatest of its base and of those who still wait, whoever came and went meanwhile; if not, giving up changes no priority |
| `MutexEffects.StepHasEffect` | tl_ble_sdk/3rd-party/freertos-V5/tasks.c:4158-4231 | every take, block, cut, return and give, nested or not, makes of each mutex's holder, depth and waiting list, of each task's base, count and priority, and of the takes under way exactly what is expected |
| `MutexEffects.PrioritySetHasEffect` | tl_ble_sdk/3rd-party/freertos-V5/tasks.c:1540-1654 | vTaskPrioritySet sets the base asked for or the highest there is, moves the priority only of a task that has inherited nothing, and gives its item, listed or not, the value of a new base |
| `Mutex.GiveWakesMostUrgent` | tl_ble_sdk/3rd-party/freertos-V5/queue.c:768-977 | giving a mutex frees it and takes exactly the most urgent waiter off the list |
| `Mutex.ReleaseKeepsDonation` | tl_ble_sdk/3rd-party/freertos-V5/tasks.c:4158-4231 | giving one mutex breaks no donation made for another |
| `Mutex.ChainsAreNotServed` | tl_ble_sdk/3rd-party/freertos-V5/tasks.c:4068-4151 | a run with a chain of two mutexes after which a donation is not honoured |
| `Mutex.StepKeepsChain` | tl_ble_sdk/3rd-party/freertos-V5/tasks.c:4082-4125 | every step, also of tasks that block while they hold mutexes, keeps the accounts, the donors and the value of every queued item at its owner's priority |
| `Mutex.DonationsKeptIff` | tl_ble_sdk/3rd-party/freertos-V5/tasks.c:4068-4151 | with every donation honoured, a block leaves them so iff the raised holder is not a donor to somebody less urgent than the blocker; a timeout iff nobody donating to the holder outranks what it steps down to, nor that its own donee; every other step always |
| `Mutex.DonationsLastIff` | tl_ble_sdk/3rd-party/freertos-V5/tasks.c:4238-4337 | over whole runs of any nesting every donation is honoured all the way iff every step meets that condition |
| `Mutex.FloorLastsIff` | tl_ble_sdk/3rd-party/freertos-V5/tasks.c:1627-1637 | over whole runs that also change priorities, no task ever runs below its base iff every new base of a task that has inherited is at most what it has inherited |
| `Mutex.RaisingCanSinkBelowBase` | tl_ble_sdk/3rd-party/freertos-V5/tasks.c:1627-1637 | a run after which a task that has inherited runs below its new base |
| `Mutex.PrioritySetKeepsIff` | tl_ble_sdk/3rd-party/freertos-V5/tasks.c:1540-1654 | vTaskPrioritySet leaves the accounts, the item values and every donation right iff it changes nothing, or gives a task that has inherited the base that it has inherited, or gives any other task a priority that no donor to it exceeds and that does not exceed its own donee's |
| `Mutex.LoweringCanBreakDonation` | tl_ble_sdk/3rd-party/freertos-V5/tasks.c:1627-1637 | a run in which a holder that has inherited nothing is lowered below the task that waits for its mutex |
| `Mutex.SoundLastsIff` | tl_ble_sdk/3rd-party/freertos-V5/tasks.c:1540-1654 | over whole runs of any nesting that also change priorities, the accounts, the item values and every donation are right all the way iff every step and every change meets its condition |
| `Timers.ChoiceIsExact` | tl_ble_sdk/3rd-party/freertos-V5/timers.c:699-740 | from 32-bit values the insertion decides exactly: already expired, later this round, or next round |
| `Timers.ChoiceNeedsPromptness` | tl_ble_sdk/3rd-party/freertos-V5/timers.c:709-737 | a command obeyed a whole wrap late that is misjudged |
| `Timers.ChoiceIsRightIff` | tl_ble_sdk/3rd-party/freertos-V5/timers.c:709-737 | for every lateness, exactly when the decision to process at once is right |
| `Timers.StepKeepsInv` | tl_ble_sdk/3rd-party/freertos-V5/timers.c:587-646 | every step of the service task, with ticks and start commands between any two of them, keeps the invariant of the lists, the queue and the command in hand |
| `Timers.DrainKeepsInv` | tl_ble_sdk/3rd-party/freertos-V5/timers.c:893-946 | one round of the loop that drains the list at a wrap keeps it |
| `Timers.ObeyedKeepsInv` | tl_ble_sdk/3rd-party/freertos-V5/timers.c:743-835 | a start command judged by a sample that may be stale keeps it, because the sample was taken after the command was received |
| `Timers.ExpiredKeepsInv` | tl_ble_sdk/3rd-party/freertos-V5/timers.c:508-548 | an expired timer reloaded by a stale sample keeps it |
| `Timers.TimersDoNotDrift` | tl_ble_sdk/3rd-party/freertos-V5/timers.c:508-548 | in every run in which a timer is started once at time r, its callback ran exactly once, in order and never early for r + k * period, and whenever the task is at rest for every one that has been reached (a one-shot timer's for the first) |
| `Timers.ComesToRest` | tl_ble_sdk/3rd-party/freertos-V5/timers.c:587-646 | from any state in which the task is less than a wrap late it comes to rest if left alone |
| `Timers.EveryExpiryIsServed` | tl_ble_sdk/3rd-party/freertos-V5/timers.c:893-950 | so from any such point of a run every expiry that has been reached is served |
| `Timers.NothingIsOverdue` | tl_ble_sdk/3rd-party/freertos-V5/timers.c:587-646 | when the task is at rest no active timer is overdue |
| `Timers.NeverOversleeps` | tl_ble_sdk/3rd-party/freertos-V5/timers.c:587-646 | the block time ends no later than any expiry and exactly at the first one of this round |
| `Timers.SwitchRunIsGoing` | tl_ble_sdk/3rd-party/freertos-V5/timers.c:893-950 | the whole of prvSwitchTimerLists is a run of the task's own steps |
| `Timers.TimerDaemon.SwitchTimerLists` | tl_ble_sdk/3rd-party/freertos-V5/timers.c:893-950 | the loop, on 32-bit values in place, does what that run does |
| `Timers.TimerDaemon.SampleTimeNow` | tl_ble_sdk/3rd-party/freertos-V5/timers.c:676-696 | in place; tells whether the lists were switched |
| `Timers.TimerDaemon.InsertTimerInActiveList` | tl_ble_sdk/3rd-party/freertos-V5/timers.c:699-740 | for a timer counting from a time within a wrap before the sample: reported late iff it is due by the sample, and otherwise in the list of the round it is due in; everything else and the invariant of the lists are kept |
| `Timers.TimerDaemon.ProcessExpiredTimer` | tl_ble_sdk/3rd-party/freertos-V5/timers.c:508-548 | in place, with a stale sample, what the step does |
| `Timers.TimerDaemon.ReceiveCommand` | tl_ble_sdk/3rd-party/freertos-V5/timers.c:750-792 | the command taken is the only one in hand, its value is the time its timer counts from, and the invariant is kept |
| `Timers.TimerDaemon.ObeyStart` | tl_ble_sdk/3rd-party/freertos-V5/timers.c:803-835 | in place, with a stale sample, what the step does for a start command |
| `EventGroups.EncodeSays` | tl_ble_sdk/3rd-party/freertos-V5/event_groups.c:560-588 | the stored item value says exactly what was asked for: the test on it is the wait condition, and it carries no unblocked mark |
| `EventGroups.StepKeepsInv` | tl_ble_sdk/3rd-party/freertos-V5/event_groups.c:192-303 | set, wait, sync, clear, timeout, return and priority change keep the invariant |
| `EventGroups.NobodyWaitsInVain` | tl_ble_sdk/3rd-party/freertos-V5/event_groups.c:337-404 | in every run nobody on the waiting list has its condition satisfied by the stored bits |
| `EventGroups.SetWakesExactly` | tl_ble_sdk/3rd-party/freertos-V5/event_groups.c:531-610 | a set tests everybody against the same bits and wakes exactly those it satisfies, telling each those bits |
| `EventGroups.SetClearsExactly` | tl_ble_sdk/3rd-party/freertos-V5/event_groups.c:590-617 | after a set a bit is set iff it was or is being set and no task woken by the set asked for it to be cleared |
| `EventGroups.KeptKeepsOrder` | tl_ble_sdk/3rd-party/freertos-V5/event_groups.c:558-614 | those who go on waiting keep their order |
| `EventGroups.Rendezvous` | tl_ble_sdk/3rd-party/freertos-V5/event_groups.c:216-232 | the last to arrive returns at once, wakes everybody in the same rendezvous with the same bits, and none of the bits stays set |
| `EventGroups.SyncKeepsInv` | tl_ble_sdk/3rd-party/freertos-V5/event_groups.c:192-252 | a rendezvous leaves nobody waiting who is satisfied |
| `EventGroups.PriorityIsKeptOff` | tl_ble_sdk/3rd-party/freertos-V5/tasks.c:1647-1650 | the in-use bit keeps a priority change away from every item but an idle task's |
| `EventGroups.Snapshot` | tl_ble_sdk/3rd-party/freertos-V5/event_groups.c:422-459 | a woken task returns the bits as they were at its wake, which satisfy it, whatever sets, clears, rendezvous and priority changes happen before it runs |
| `EventGroups.ExpiredLooksAgain` | tl_ble_sdk/3rd-party/freertos-V5/event_groups.c:422-450 | a timed-out task returns the current bits and clears them if they satisfy it by then |
| `EventGroups.CallIsServed` | tl_ble_sdk/3rd-party/freertos-V5/event_groups.c:383-398 | in every run, a task whose blocking wait or rendezvous asked for r is, while it waits, woken by a set or rendezvous iff the bits satisfy r; and a bit stays set iff it was set, it is not one that the call asked to be cleared and was satisfied with, and nobody else clears it |
| `EventGroups.CallReturns` | tl_ble_sdk/3rd-party/freertos-V5/event_groups.c:422-459 | in every run such a call returns bits that satisfy r and clears none if it was woken; timed out it returns the bits as they are and clears its own iff they satisfy r by then and it asked for that |
| `EventGroups.WaitHasEffect` | tl_ble_sdk/3rd-party/freertos-V5/event_groups.c:337-404 | a wait that is satisfied returns the bits and clears its own iff it asked for that; one that may not block returns the bits; a blocked one is listed with what it asked for; no other task changes |
| `EventGroups.IncompleteSyncHasEffect` | tl_ble_sdk/3rd-party/freertos-V5/event_groups.c:216-252 | a rendezvous that is not complete does the set, then blocks for all its bits or returns what is left |
| `EventGroups.ClearHasEffect` | tl_ble_sdk/3rd-party/freertos-V5/event_groups.c:471-497 | a clear takes exactly its bits and wakes nobody |
| `EventGroups.ExpireHasEffect` | tl_ble_sdk/3rd-party/freertos-V5/tasks.c:2771-2847 | the end of a block time takes that task alone off the list |
| `EventGroups.EventGroup.SetBits` | tl_ble_sdk/3rd-party/freertos-V5/event_groups.c:531-623 | the walk along the list, removing as it goes and clearing at the end, does what AfterSet says |
| `StreamBuffer.LengthRoundTrip` | tl_ble_sdk/3rd-party/freertos-V5/stream_buffer.c:715-723 | the stored length reads back as itself iff it fits the length type |
| `StreamBuffer.SendIsWhole` | tl_ble_sdk/3rd-party/freertos-V5/stream_buffer.c:692-741 | a send stores the whole framed message or nothing, and which |
| `StreamBuffer.ReceiveIsWhole` | tl_ble_sdk/3rd-party/freertos-V5/stream_buffer.c:950-999 | a receive hands out the oldest message whole, or nothing and changes nothing |
| `StreamBuffer.MessageBufferIsQueue` | tl_ble_sdk/3rd-party/freertos-V5/stream_buffer.c:692-741 | over every run of sends and receives the buffer behaves as a bounded queue of whole messages |
| `StreamBuffer.StreamSendIsExact` | tl_ble_sdk/3rd-party/freertos-V5/stream_buffer.c:707-713 | a stream buffer appends the beginning of the data that there is space for, and no less |
| `StreamBuffer.StreamReceiveIsExact` | tl_ble_sdk/3rd-party/freertos-V5/stream_buffer.c:985-999 | it hands out the beginning of what it holds, as much as there is room for |
| `StreamBuffer.StreamBufferIsByteQueue` | tl_ble_sdk/3rd-party/freertos-V5/stream_buffer.c:692-741 | over every run of sends and receives in stream mode, bytes handed out followed by bytes held are the bytes taken, in order |
| `StreamBuffer.SpacesIn` | tl_ble_sdk/3rd-party/freertos-V5/stream_buffer.c:475-496 | spaces and bytes always add up to xLength - 1 |
| `StreamBuffer.BytesIn` | tl_ble_sdk/3rd-party/freertos-V5/stream_buffer.c:1230-1248 | the bytes lead from the tail to the head around the ring |
| `StreamBuffer.WriteAppends` | tl_ble_sdk/3rd-party/freertos-V5/stream_buffer.c:1123-1169 | bytes written in two copies behind the contents are appended to them |
| `StreamBuffer.ReadDrops` | tl_ble_sdk/3rd-party/freertos-V5/stream_buffer.c:1172-1227 | moving the tail on drops exactly the bytes read |
| `StreamBuffer.StreamBuffer.WriteBytes` | tl_ble_sdk/3rd-party/freertos-V5/stream_buffer.c:1123-1169 | in place, the contents grow by the data |
| `StreamBuffer.StreamBuffer.ReadBytes` | tl_ble_sdk/3rd-party/freertos-V5/stream_buffer.c:1172-1227 | in place, the least of wanted and available bytes is taken from the front |
| `StreamBuffer.StreamBuffer.Send` | tl_ble_sdk/3rd-party/freertos-V5/stream_buffer.c:641-741 | in place, what AfterSend does, and how many bytes were accepted |
| `StreamBuffer.StreamBuffer.Receive` | tl_ble_sdk/3rd-party/freertos-V5/stream_buffer.c:893-999 | in place, what AfterReceive does; a message that does not fit leaves the buffer as it was |
| `StreamProtocol.StepKeepsInv` | tl_ble_sdk/3rd-party/freertos-V5/stream_buffer.c:567-615 | every sampling, copied byte and publication of either side keeps the invariant, with stale samples |
| `StreamProtocol.SamplesAreExact` | tl_ble_sdk/3rd-party/freertos-V5/stream_buffer.c:707-713 | the writer takes the beginning of its data that fits, the reader what is unread up to its room |
| `StreamProtocol.ReceivedIsPrefix` | tl_ble_sdk/3rd-party/freertos-V5/stream_buffer.c:1123-1227 | in every interleaving of writer and reader the bytes received are a prefix of the bytes sent and the rest is in the buffer |
| `StreamProtocol.NoUnreadByteIsOverwritten` | tl_ble_sdk/3rd-party/freertos-V5/stream_buffer.c:707-713 | in every interleaving no byte that the writer copies lands on one sent and not yet handed out |
| `TlQueue.InsertKeepsOrderIff` | tl_ble_sdk/common/tl_queue.c:169-210 | queue_insert keeps the order iff it is called for the place behind the tail or the item fits between its neighbours |
| `TlQueue.InsertCanBreakOrder` | tl_ble_sdk/common/tl_queue.c:189-206 | a queue whose order queue_insert breaks at the head and in the middle |
| `TlQueue.EnqueueKeepsOrder` | tl_ble_sdk/common/tl_queue.c:63-125 | queue_enq keeps the queue sorted, first come first served among equals |
| `TlQueue.QueueIsStable` | tl_ble_sdk/common/tl_queue.c:63-156 | after every run the queue is in order of priority and arrival (of arrival alone without a callback), and what is in it and what left it are together exactly the entries put in |
| `TlQueue.Queue.constructor` | tl_ble_sdk/common/tl_queue.c:37-51 | an empty queue |
| `TlQueue.Queue.Search` | tl_ble_sdk/common/tl_queue.c:94-108 | the search loop stops before the first item of lower rank |
| `TlQueue.Queue.Enq` | tl_ble_sdk/common/tl_queue.c:63-125 | the linked chain stays acyclic with the tail last and the count right, and the contents are those of Enqueued; null is refused |
| `TlQueue.Queue.Deq` | tl_ble_sdk/common/tl_queue.c:136-156 | takes the first item, or returns null on an empty queue |
| `TlQueue.Queue.Insert` | tl_ble_sdk/common/tl_queue.c:169-210 | the item goes after the named one, or, behind the tail, where queue_enq puts it |
| `TlQueue.Queue.Remove` | tl_ble_sdk/common/tl_queue.c:224-257 | takes out the named item, or refuses on an empty queue or a null item |
| `TlQueue.Queue.Delete` | tl_ble_sdk/common/tl_queue.c:267-328 | finds and takes out the item; each of the four status values exactly in its case |
| `Keyboard.SharedColumnIff` | tl_ble_sdk/application/keyboard/keyboard.c:203-220 | after ghost removal two rows share a column iff both had it and every row that had it had nothing else |
| `Keyboard.KeptIff` | tl_ble_sdk/application/keyboard/keyboard.c:203-220 | a row keeps a column iff no other row has it, or every row that has it has nothing else |
| `Keyboard.ThirdRowTakesItAway` | tl_ble_sdk/application/keyboard/keyboard.c:203-220 | a matrix in which two rows lose their only key to a third row |
| `Keyboard.UnsharedColumnStays` | tl_ble_sdk/application/keyboard/keyboard.c:203-220 | a column that only one row has is left alone |
| `Keyboard.RemoveGhostKeys` | tl_ble_sdk/application/keyboard/keyboard.c:203-220 | the nested loops, in place and with the running mask, compute GhostFree of the raw matrix |
| `Keyboard.DebouncedIsLastAgreed` | tl_ble_sdk/application/keyboard/keyboard.c:226-265 | through every run of scans the output shows for each key what the most recent two equal scans in a row said |
| `Keyboard.NewestAreKept` | tl_ble_sdk/application/keyboard/keyboard.c:470-480 | giving up the oldest at each push into a full ring leaves the newest four of everything pushed |
| `Keyboard.KeyMatrix.DebounceFilter` | tl_ble_sdk/application/keyboard/keyboard.c:226-265 | in place: each key shows what this scan says if the scan before agrees, and what it showed before if not; reports a change iff the output differs from the last one |
| `Keyboard.KeyMatrix.Push` | tl_ble_sdk/application/keyboard/keyboard.c:470-480 | the unread matrices grow by the new one, and a ring of four unread gives up its oldest, only |
| `Keyboard.KeyMatrix.Read` | tl_ble_sdk/application/keyboard/keyboard.c:487-491 | delivers the oldest unread matrix, in order |
| `Keyboard.KeyMatrix.Scan` | tl_ble_sdk/application/keyboard/keyboard.c:420-491 | the whole pipeline from the raw matrix to what is delivered |

## Left out

- Queue sets, the queue registry, `xQueueGenericReset` on a live queue, counting semaphores as such, and the deletion of objects with waiters.
- Peeking from an interrupt and `xTaskCatchUpTicks`; `xTaskAbortDelay` outside the queue protocol, where it would be one more way to disturb a sleeping task.
- Yield flags and the values returned to request a context switch: the switch is an event of its own that may come at any time the scheduler is not suspended.
- Task notifications, stack and thread-local data, run-time statistics, trace and MPU functions, and the port layer.
- Tickless idle (`vTaskStepTick`, `vTaskIncTick`, the expected idle time): it moves the tick without list processing and depends on port code.
- Optimised task selection by a bit map of priorities; only the generic search is modelled.
- `croutine.c` and the `xQueueCR` functions, which repeat the scheduler's and the queue's design.
- Heap allocation, USB, GPIO scanning, key maps and key-code remapping, key repeat, and the FIFO and string helpers of the common library.
- Widths other than the tick's: counts of items, messages and mutexes are unbounded, and lengths of stream buffers are taken to be small enough that `size_t` sums do not wrap.
- QueueProtocol.NoLostWakeUp: `vTaskSuspendAll` and `prvLockQueue` are one step; the priority of a task changes during a call only as the value of its item.
- QueueProtocol.NoEarlyTimeout: says that a timeout is never early without an abort; that it is not late needs the caller to look at the time once in a wrap, as QueueEffects.LooksAreExact has it.
- Scheduler.ExactWake: the value of an item outside the delayed lists is not modelled, because nothing there is ordered by it.
- Scheduler.StatePartition: a blocking call with zero ticks, which only yields, is not an event; `xTaskResumeFromISR` is not an event either.
- Mutex.DonationLasts: for tasks that hold no mutex when they block, and without `vTaskPrioritySet`; the general cases are Mutex.DonationsLastIff and, with changes of priority, Mutex.SoundLastsIff.
- Mutex.MutexAccounting: without `vTaskPrioritySet`, for which see Mutex.SoundLastsIff and Mutex.FloorLastsIff, and each mutex given only by its holder, as the source asserts.
- In-place update of mutexes, of event groups other than by setting bits, of queues by a task's own sections, and of the kernel's lists by signal, suspend, resume, priority change, deletion and creation: these are steps on values. The results of Mutex are about values: that the control blocks and mutexes are changed in place is not captured, and the ready lists that a change of priority touches are in Scheduler.
- Timers.TimersDoNotDrift: each timer is started once, without stop, reset and change of period, with a command queue that is never full; whenever the service task reads the clock, that is less than a wrap after it last did and after the time of the command it holds; a callback is a record, and the status bit `tmrSTATUS_IS_ACTIVE` is not used as a membership test.
- Timers.TimerDaemon.ObeyStart: start commands only; pended function calls are left out.
- EventGroups.NobodyWaitsInVain: deletion of a group with waiters is not an event; a word is the set of positions of its one bits, so the operators are those of sets.
- StreamBuffer.MessageBufferIsQueue: message sends and receives are atomic with respect to each other, because a receive that finds no room moves the tail back; messages are not empty, as the source asserts.
- StreamProtocol.ReceivedIsPrefix: the waiting and waking of the two tasks is not part of it, and memory is taken to be sequentially consistent.
- TlQueue.QueueIsStable: priorities are fixed while an item is queued, no item is queued twice, and queue_insert is not among the operations; what that does to the order is TlQueue.InsertKeepsOrderIff.
- Keyboard.KeyMatrix.Scan: key repeat off; the mapping from the delivered matrix to key codes is not modelled.

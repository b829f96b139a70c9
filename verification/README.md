# FreeRTOS kernel: a Dafny model

This project models the parts of the FreeRTOS kernel (`FreeRTOS-Kernel/`) whose correctness rests on interleavings,
wrapping counters and lists updated in place, and proves what they promise over every run.  `dafny verify
dfyconfig.toml` checks all of it.

One configuration is fixed: preemption, mutexes, `INCLUDE_vTaskSuspend` and tickless idle on, queue sets off, generic
task selection, one core except in `Smp.dfy`.  `TickType_t` has an arbitrary number `n` of values; unbounded clocks and
counts kept beside the code's variables are history that no operation reads.  An interrupt may occur between any two
critical sections, so one critical section (or one stretch with the scheduler suspended that interrupts cannot affect)
is one step.  Assertions of the kernel that constrain callers are preconditions; the others are proved.

| file | what it models |
|---|---|
| `Lists.dfy` | list.c on the heap: rings with an end marker, the walking index, sorted insertion, removal, round robin |
| `TaskLists.dfy` | the same lists as sequences with containers, one store for state items and one for event items |
| `Kernel.dfy`, `KernelOps.dfy`, `KernelRuns.dfy` | tasks.c: ticks, delayed lists, suspension, tickless idle, event lists, task life cycle, selection; whole runs |
| `EventOrder.dfy` | event lists in priority order |
| `Scheduler.dfy` | the loops and branches of those operations as code on the scheduler's variables |
| `Timeouts.dfy` | xTaskCheckForTimeOut and xTaskDelayUntil |
| `Inheritance.dfy` | mutexes and priority inheritance |
| `QueueLocking.dfy` | the lock-count protocol of queue.c under every interleaving |
| `QueueRing.dfy` | the queue's storage ring |
| `StreamChannel.dfy`, `StreamBuffer.dfy` | stream and message buffers, with writer and reader interleaved, and as sequential code |
| `Timers.dfy` | the timer daemon |
| `EventGroups.dfy` | event groups and rendezvous |
| `Smp.dfy` | task selection on several cores |
| `WrapArithmetic.dfy` | arithmetic of wrapping counters |

In the kernel model, `Kernel` defines the state `K` and one tick (`Advance`, `WakeExpired`, `TickCore`); `KernelOps` the
other operations as functions of it (`ResumeAll`, `StepTick`, `AddToDelayed`, `Wait`, `Signal`, `Release`, `Create`,
`Delete`, `CleanUp`, `Suspend`, `Resume`, `SetPriority`, `PrioritySet`, `HighestReady`, `Switch`); and `KernelRuns` the relation `Step`
and the runs.  Where the proofs speak of a task "not unblocked otherwise", `Subjects` lists what each operation may
unblock, suspend or delete.

Five things the code does differ from what one would expect, and are stated as they are:

- vTaskStepTick's assertions accept a jump past the wrap of the tick count (`KernelOps.StepTickCorrectExactlyWhen`).
- xTaskCheckForTimeOut and xTaskDelayUntil can be wrong after more than one wrap (`Timeouts.CheckExactExactlyWhen`,
  `Timeouts.DelayUntilExactlyWhen`).
- xQueueGenericReset can leave a sender blocked on an empty queue (`QueueLocking.ResetKeepsSendersExactlyWhen`).
- An overwrite of a full queue whose items have size 0 raises uxMessagesWaiting above uxLength
  (`QueueRing.Queue.CopyDataToQueue`, `QueueRing.OverwriteCanOverfill`).
- vTaskPrioritySet, on a task that goes on using a higher inherited priority, files the task's event item under the new
  base priority, so that it queues behind tasks of lower priority (`EventOrder.PrioritySetExactlyWhen`).

## Model

| member | source | states |
|---|---|---|
| `Lists.List.constructor` | FreeRTOS-Kernel/list.c:49-86 | A new list is a ring of its end marker alone, with the index at the marker and no items. |
| `Lists.ListItem.constructor` | FreeRTOS-Kernel/list.c:89-102 | A new item is in no list. |
| `Lists.List.InsertEnd` | FreeRTOS-Kernel/list.c:105-136 | The new item is linked in just before pxIndex, so at the end if pxIndex is at the marker, where it then stays; the ring stays closed with forward and backward links inverse, containers and count exact. |
| `Lists.List.FindPlace` | FreeRTOS-Kernel/list.c:151-199 | The search ends, for every value up to portMAX_DELAY, after all leading items that are not larger and before the first larger one. |
| `Lists.List.Insert` | FreeRTOS-Kernel/list.c:139-213 | The item enters at that place; an ascending list stays ascending; everything else about the ring is kept. |
| `Lists.InsertAscending` | FreeRTOS-Kernel/list.c:151-163 | In an ascending list the new item comes after all its equals and before everything larger (sorted and stable). |
| `Lists.List.Remove` | FreeRTOS-Kernel/list.c:217-247 | Exactly the item removed leaves the ring, its container becomes NULL, the index steps back if it was there, and the remaining count is returned. |
| `Lists.ListsDisjoint` | FreeRTOS-Kernel/list.c:129-132 | Two valid lists never share an item. |
| `Lists.MoveToEnd` | FreeRTOS-Kernel/list.c:105-247 | Moving an item between two lists leaves both valid, each changed at that item only. |
| `Lists.InsertRefines` | FreeRTOS-Kernel/list.c:139-213 | Seen through the owners, vListInsert is sorted insertion into a sequence. |
| `Lists.RemoveRefines` | FreeRTOS-Kernel/list.c:217-247 | Seen through the owners, uxListRemove deletes exactly one element of the sequence. |
| `Lists.OwnersAppend` | FreeRTOS-Kernel/list.c:105-136 | Seen through the owners, insertion at the end of a list that is not walked appends to the sequence. |
| `Lists.List.NextEntry` | FreeRTOS-Kernel/include/list.h:286-297 | The index moves to the next item, skipping the end marker, and that item is the one picked. |
| `Lists.List.SelectRound` | FreeRTOS-Kernel/tasks.c:204-208 | As many selections as the list has items pick the items in ring order from the index on. |
| `Lists.EachPickedOnce` | FreeRTOS-Kernel/tasks.c:206-208 | In such a round every item is picked exactly once. |
| `Lists.AddedIsPickedLast` | FreeRTOS-Kernel/list.c:117-124 | An item added at the end is picked after every other one except the one at pxIndex. |
| `TaskLists.RemoveLinked` | FreeRTOS-Kernel/list.c:217-247 | In the store of lists, removal keeps every item in the one list its container names and changes one list. |
| `TaskLists.InsertLinked` | FreeRTOS-Kernel/list.c:139-213 | So does sorted insertion. |
| `TaskLists.PushBackLinked` | FreeRTOS-Kernel/list.c:105-136 | So does insertion at the end. |
| `TaskLists.LengthsCountItems` | FreeRTOS-Kernel/tasks.c:6084-6106 | The lengths of distinct lists add up to the number of items that are in one of them. |
| `Kernel.WakeExpiredCore` | FreeRTOS-Kernel/tasks.c:4782-4870 | The loop of xTaskIncrementTick readies exactly the tasks of the current delayed list whose item value has been reached, takes them off their event lists, and leaves the cached unblock time equal to the earliest one left, or portMAX_DELAY if there is none. |
| `Kernel.EmptyAtSwitch` | FreeRTOS-Kernel/tasks.c:267-272 | The assertion in taskSWITCH_DELAYED_LISTS holds: the current delayed list is empty whenever the count wraps. |
| `Kernel.AdvanceCore` | FreeRTOS-Kernel/tasks.c:265-277 | After the count has moved on, lists switched at a wrap or not, each delayed list again holds exactly one epoch. |
| `Kernel.TickCoreExact` | FreeRTOS-Kernel/tasks.c:4759-4873 | One tick readies exactly the tasks asked to wake at that unbounded time, across overflow, and keeps every invariant. |
| `KernelOps.TicksExact` | FreeRTOS-Kernel/tasks.c:4115-4143 | m pended ticks ready exactly the tasks due within them. |
| `KernelOps.DrainPendingCore` | FreeRTOS-Kernel/tasks.c:4059-4103 | The pending-ready loop readies exactly the tasks on xPendingReadyList, empties it and restores the cached unblock time. |
| `KernelOps.ResumeAllInv` | FreeRTOS-Kernel/tasks.c:4028-4174 | xTaskResumeAll keeps the invariant and the sum of tick count and pended ticks; a nested one only counts; the outermost one leaves no pended tick and no pending task. |
| `KernelOps.TickInv` | FreeRTOS-Kernel/tasks.c:4742-4975 | A tick interrupt raises tick count plus pended ticks by exactly one; with the scheduler suspended it does nothing else, and otherwise exactly the tasks due become ready. |
| `KernelOps.StepTickInv` | FreeRTOS-Kernel/tasks.c:4576-4613 | A jump of at most the ticks to xNextTaskUnblockTime passes the assertions, is accounted for in full and wakes nobody late. |
| `KernelOps.StepTickCorrectExactlyWhen` | FreeRTOS-Kernel/tasks.c:4587-4588 | Among the jumps its assertions accept, vTaskStepTick is correct if and only if the jump is at most the ticks to xNextTaskUnblockTime. |
| `KernelRuns.StepTickAcceptsALostEpoch` | FreeRTOS-Kernel/tasks.c:4587-4608 | A concrete state and jump that the assertions accept although the jump passes the wrap. |
| `KernelOps.TicklessEquivalence` | FreeRTOS-Kernel/tasks.c:4576-4613 | A permitted jump followed by the outermost resume leaves the identical state, lists and counters included, that as many tick interrupts followed by the resume leave. |
| `KernelOps.BlockInv` | FreeRTOS-Kernel/tasks.c:8596-8668 | A task that blocks goes to the list of the epoch of its wake time, or to the suspended list if it blocks for ever, and all invariants hold. |
| `KernelRuns.WaitInv` | FreeRTOS-Kernel/tasks.c:5313-5405 | Placing the current task on an event list and blocking it keeps the invariant; the task is in item order or last in the list, and its event item holds the given value, as the way it is placed says. |
| `KernelRuns.ResetItemInv` | FreeRTOS-Kernel/tasks.c:7663-7678 | The running task's event item again says its priority and is free for other use. |
| `KernelRuns.SignalInv` | FreeRTOS-Kernel/tasks.c:5411-5462 | The head of the event list becomes ready and leaves it, or is held pending while the scheduler is suspended; no other task moves. |
| `KernelRuns.UnblockInv` | FreeRTOS-Kernel/tasks.c:4648-4700 | Unblocking a task early, as xTaskAbortDelay does, makes it the last in the ready list of its priority, takes it off its event list and touches no other task. |
| `KernelRuns.ReleaseInv` | FreeRTOS-Kernel/tasks.c:5504-5550 | The unordered removal readies the task with the given value in its event item, and keeps the invariant although it resets the cached time before the task leaves its list. |
| `KernelRuns.CreateInv` | FreeRTOS-Kernel/tasks.c:2058-2110 | A new task is counted, last in the ready list of its priority, and has that base priority. |
| `KernelRuns.DeleteSelfInv` | FreeRTOS-Kernel/tasks.c:2242-2290 | A task that deletes itself goes to the termination list and is counted there. |
| `KernelRuns.DeleteOtherInv` | FreeRTOS-Kernel/tasks.c:2334-2343 | Deleting another task removes it from all lists and from the count. |
| `KernelRuns.CleanUpInv` | FreeRTOS-Kernel/tasks.c:6116-6145 | One round of the idle task's clean-up frees exactly the head of the termination list and lowers both counts. |
| `KernelRuns.SuspendInv` | FreeRTOS-Kernel/tasks.c:3166-3275 | Suspending a task keeps the invariant between its two critical sections as well. |
| `KernelRuns.ResumeInv` | FreeRTOS-Kernel/tasks.c:3399-3453 | A suspended task that is not the running one becomes the last in the ready list of its priority; for any other task nothing changes. |
| `KernelRuns.ResumeFromISRInv` | FreeRTOS-Kernel/tasks.c:3460-3545 | Resuming from an interrupt readies a suspended task, or holds it pending while the scheduler is suspended. |
| `KernelRuns.SetPriorityInv` | FreeRTOS-Kernel/tasks.c:2907-2974 | Inheriting or giving up a priority moves a ready task to the list of its new priority and leaves any other task where it is, the idle task included. |
| `KernelRuns.PrioritySetInv` | FreeRTOS-Kernel/tasks.c:2813-2974 | vTaskPrioritySet sets the base priority of this task alone and gives it the new priority, or leaves it a higher inherited one, moving it between ready lists accordingly. |
| `KernelRuns.StepOutcome` | FreeRTOS-Kernel/tasks.c:4742-4975 | Every operation keeps the invariant, accounts for exactly its ticks, and leaves every sleeping task that it does not name asleep until its time and ready from then on. |
| `KernelRuns.RunKeeps` | FreeRTOS-Kernel/tasks.c:4028-4174 | In every state of every run the invariant holds, tick count plus pended ticks equal the ticks so far under any nesting of suspension, and no tick is pended once the scheduler runs. |
| `KernelRuns.ExactWakeUp` | FreeRTOS-Kernel/tasks.c:8596-8668 | In every run a task that blocks for d ticks at time T and is not unblocked otherwise sleeps before T + d and is ready in the first state that reaches T + d. |
| `KernelRuns.NextNeverLate` | FreeRTOS-Kernel/tasks.c:6532-6550 | In every reachable state xNextTaskUnblockTime is at most the earliest wake time in the current delayed list, which is empty when the count is about to wrap. |
| `KernelRuns.StatePartition` | FreeRTOS-Kernel/tasks.c:6084-6106 | In every reachable state each task's state item is in exactly one state list, a ready task in that of its priority, its event item in at most one list; the two task counters equal the list lengths. |
| `KernelRuns.TopBoundsReady` | FreeRTOS-Kernel/tasks.c:184-190 | uxTopReadyPriority is never below a non-empty ready list, and the list of the idle task is never empty. |
| `KernelRuns.SelectionIsHighest` | FreeRTOS-Kernel/tasks.c:195-210 | The search ends without underflow on a list whose tasks have the highest priority of all ready tasks. |
| `KernelRuns.SwitchInv` | FreeRTOS-Kernel/tasks.c:5126-5200 | After vTaskSwitchContext the chosen task is the running one, uxTopReadyPriority is its priority, and nothing else has changed. |
| `KernelRuns.SwitchRunsHighest` | FreeRTOS-Kernel/tasks.c:5126-5200 | In every run the task running after a context switch is ready and no ready task has a higher priority. |
| `EventOrder.StepInOrder` | FreeRTOS-Kernel/tasks.c:5313-5336 | Every operation keeps an event list in priority order, unless it adds a task at the end of the list, changes the priority of a waiter, or sets the base priority of a task below a priority that it goes on inheriting. |
| `EventOrder.HighestWokenFirst` | FreeRTOS-Kernel/tasks.c:5411-5436 | In every run made of such operations the head that xTaskRemoveFromEventList wakes has a priority no lower than any other waiter. |
| `EventOrder.PrioritySetExactlyWhen` | FreeRTOS-Kernel/tasks.c:2918-2952 | vTaskPrioritySet leaves event items encoding priorities if and only if the task is not using an inherited priority above the new one, or its item is in use, or nothing changes. |
| `EventOrder.PrioritySetCanMisfile` | FreeRTOS-Kernel/tasks.c:2918-2952 | A concrete task that inherits priority 4 and whose event item says 2 after its base priority is set to 2. |
| `Schedulers.Scheduler.ResetNextTaskUnblockTime` | FreeRTOS-Kernel/tasks.c:6532-6550 | From any state whose lists are in order the whole invariant holds again, and the new cached time is the earliest wake-up of the current delayed list, or portMAX_DELAY if that is empty. |
| `Schedulers.Scheduler.WakeExpiredTasks` | FreeRTOS-Kernel/tasks.c:4782-4870 | The loop with its two exits does what the recursive definition says, and ends. |
| `Schedulers.Scheduler.IncrementTick` | FreeRTOS-Kernel/tasks.c:4742-4873 | The code on the scheduler's variables makes exactly the specified step. |
| `Schedulers.Scheduler.MovePendingTasks` | FreeRTOS-Kernel/tasks.c:4059-4091 | The loop empties the pending list as specified and reports whether it moved anything. |
| `Schedulers.Scheduler.ProcessPendedTicks` | FreeRTOS-Kernel/tasks.c:4115-4143 | The loop processes each pended tick once and zeroes the count. |
| `Schedulers.Scheduler.ResumeScheduler` | FreeRTOS-Kernel/tasks.c:4028-4174 | The code of xTaskResumeAll makes exactly the specified step. |
| `Schedulers.Scheduler.AddCurrentTaskToDelayedList` | FreeRTOS-Kernel/tasks.c:8596-8668 | In a sound state the current task then sleeps until exactly its time, or is suspended if it blocks for ever; the cached time becomes the earlier of itself and the wake-up if that is before the wrap; the invariant holds. |
| `Schedulers.Scheduler.CheckTasksWaitingTermination` | FreeRTOS-Kernel/tasks.c:6116-6145 | The loop frees exactly the tasks of the termination list and ends with both counters right. |
| `Schedulers.Scheduler.StepTickCount` | FreeRTOS-Kernel/tasks.c:4576-4613 | All the ticks of the jump are accounted for, and a sound state stays sound if and only if the jump is at most the ticks to xNextTaskUnblockTime. |
| `Schedulers.Scheduler.RemoveFromEventList` | FreeRTOS-Kernel/tasks.c:5411-5462 | The head of the event list becomes ready and leaves all event lists, or is held on xPendingReadyList while the scheduler is suspended; nobody else moves and the invariant holds. |
| `Schedulers.Scheduler.DeleteTask` | FreeRTOS-Kernel/tasks.c:2230-2346 | A running task ends on the termination list and any other is gone from every list; nobody else moves and the invariant holds. |
| `Schedulers.Scheduler.SearchReadyLists` | FreeRTOS-Kernel/tasks.c:195-210 | The descending loop stops on the highest non-empty ready list, and running any of its tasks keeps the invariant. |
| `Timeouts.CheckExact` | FreeRTOS-Kernel/tasks.c:5604-5670 | With at most one overflow since the last check a finite wait expires exactly when its time is up, and otherwise remaining plus elapsed is what there was. |
| `Timeouts.CheckExactExactlyWhen` | FreeRTOS-Kernel/tasks.c:5640-5656 | For any number of overflows the answer is right if and only if less than a wrap has passed, or the wrapped elapsed time expires the wait, or the overflow count shows the wrap. |
| `Timeouts.TwoWrapsCanHideAnExpiry` | FreeRTOS-Kernel/tasks.c:5640-5656 | A concrete wait whose expiry is missed after more than one overflow. |
| `Timeouts.RepeatedChecksExact` | FreeRTOS-Kernel/tasks.c:5604-5670 | Over any sequence of checks remaining + elapsed = original, and the first check at or after the deadline is the first to expire. |
| `Timeouts.ForeverNeverExpires` | FreeRTOS-Kernel/tasks.c:5631-5638 | Over any sequence of checks a wait of portMAX_DELAY never expires and is never shortened. |
| `Timeouts.TimeOut.CheckForTimeOut` | FreeRTOS-Kernel/tasks.c:5604-5670 | With at most one overflow since the wait began a finite wait expires exactly when its time is up and otherwise goes on for exactly what remains; beyond that the answer is right if and only if it can be trusted; an aborted wait expires at once, and once. |
| `Timeouts.DelayUntilExactlyWhen` | FreeRTOS-Kernel/tasks.c:2404-2433 | For any two times, xTaskDelayUntil delays exactly when the next release is in the future if and only if less than one wrap has passed since the last release, or the increment is no more than the wrapped time passed; and, before that release, if and only if the increment exceeds the wrapped distance. |
| `Timeouts.DelayUntilExact` | FreeRTOS-Kernel/tasks.c:2404-2446 | Within one wrap the decision is exact and a delay ends at the next release. |
| `Timeouts.LateCallCanDelay` | FreeRTOS-Kernel/tasks.c:2404-2433 | A concrete late call that delays although its release is past. |
| `Timeouts.PeriodicReleases` | FreeRTOS-Kernel/tasks.c:2383-2468 | However often it is called, releases stay at base + k * increment. |
| `Timeouts.WakeTime.TaskDelayUntil` | FreeRTOS-Kernel/tasks.c:2383-2446 | Within one wrap of the previous release the task delays exactly when the next release is in the future, and until exactly then; for any other times the decision is right if and only if the stated condition holds; the release time always moves on by the increment. |
| `Inheritance.TaskControlBlock.PriorityInherit` | FreeRTOS-Kernel/tasks.c:6656-6752 | The holder's priority becomes the greater of its own and the caller's, and its event item says so unless it is in use; base, count and use of the item stay; the result says whether the caller is above the holder's base priority. |
| `Inheritance.TaskControlBlock.PriorityDisinherit` | FreeRTOS-Kernel/tasks.c:6759-6846 | One mutex less is held; the priority returns to the base with the last one and not before, and the event item with it; the result says whether it dropped. |
| `Inheritance.TaskControlBlock.PriorityDisinheritAfterTimeout` | FreeRTOS-Kernel/tasks.c:6853-6966 | A holder of one mutex gets exactly the greater of its base priority and the highest waiter's, and any other holder keeps its priority; an event item in use is left alone. |
| `Inheritance.TaskControlBlock.SetBasePriority` | FreeRTOS-Kernel/tasks.c:2907-2952 | The base priority always changes; the priority in use follows unless a higher one is inherited; the event item takes the new base priority unless it is in use or nothing changes. |
| `Inheritance.BookPreserved` | FreeRTOS-Kernel/queue.c:1696-1717 | Every take, block, leave, time-out, give and priority change keeps the books. |
| `Inheritance.StepEffects` | FreeRTOS-Kernel/queue.c:1696-1873 | What each step does and that it does nothing else: a taker holds the mutex, a blocker joins its waiters and lends the holder its priority if that is greater, a waiter that leaves is gone, a giver frees the mutex. |
| `Inheritance.BooksInEveryRun` | FreeRTOS-Kernel/tasks.c:6656-6966 | In every run uxPriority >= uxBasePriority, it exceeds the base only while mutexes are held, uxMutexesHeld is the number of mutexes naming the task, and a mutex's count is 1 exactly when it has no holder. |
| `Inheritance.HolderCanGive` | FreeRTOS-Kernel/tasks.c:6767-6776 | The assertion on uxMutexesHeld in xTaskPriorityDisinherit never fails for a holder. |
| `Inheritance.ExpiryIsNotTheHolders` | FreeRTOS-Kernel/tasks.c:6889-6893 | The assertion in vTaskPriorityDisinheritAfterTimeout holds: a task that did not hold the mutex when it blocked on it is not the holder when its wait times out. |
| `Inheritance.BoundPreserved` | FreeRTOS-Kernel/queue.c:1785-1873 | Every step of a fair run keeps each holder at or above each of its waiters. |
| `Inheritance.BoundInEveryRun` | FreeRTOS-Kernel/queue.c:1785-1873 | In every fair run a holder's priority is never below any waiter's, and the waiting lists are in priority order. |
| `Inheritance.InheritedFromWaiter` | FreeRTOS-Kernel/tasks.c:6656-6752 | The upper bound, in every run: a task not at its base priority has run at its present one and held a mutex without interruption since a moment when a task waiting for a mutex it held had that priority, or an event item saying so. |
| `Inheritance.InheritedExactly` | FreeRTOS-Kernel/tasks.c:6656-6752 | In a fair run that is the priority the waiter ran at. |
| `Inheritance.TimeoutRestoresExactly` | FreeRTOS-Kernel/queue.c:2368-2388 | After a time-out a holder of exactly one mutex has exactly the greater of its base priority and the highest remaining waiter's. |
| `Inheritance.TakeKeepsBoundExactlyWhen` | FreeRTOS-Kernel/queue.c:1692-1710 | Taking a mutex keeps the bound if and only if the taker is at least as high as those still waiting. |
| `Timers.ClassifyExact` | FreeRTOS-Kernel/timers.c:890-931 | For a command handled within one wrap the comparisons of wrapped times decide exactly whether the expiry has passed and otherwise which epoch it is in. |
| `Timers.TimerDaemon.InsertTimerInActiveList` | FreeRTOS-Kernel/timers.c:890-931 | The timer is listed for its expiry in the list of the right epoch, in order, or reported as already expired. |
| `Timers.TimerDaemon.ReloadTimer` | FreeRTOS-Kernel/timers.c:695-711 | The callback runs once for each further expiry up to now and the timer is listed for the first one after; the loop ends. |
| `Timers.TimerDaemon.ProcessExpiredTimer` | FreeRTOS-Kernel/timers.c:714-741 | The callback of the timer at the head of the current list has run at least once, and the timer has stopped or is listed for a time after now; every other timer is left alone. |
| `Timers.TimerDaemon.SwitchTimerLists` | FreeRTOS-Kernel/timers.c:1089-1111 | All timers of the old epoch are served up to its end, then the lists change roles; the loop ends. |
| `Timers.TimerDaemon.SampleTimeNow` | FreeRTOS-Kernel/timers.c:867-887 | Sampled at least once a wrap, or with no timer running, the current list is always the one of the current epoch. |
| `Timers.TimerDaemon.GetNextExpireTime` | FreeRTOS-Kernel/timers.c:840-864 | The earliest expiry of all running timers if one falls in the current epoch; otherwise 0, and none expires before the count wraps. |
| `Timers.TimerDaemon.ProcessTimerOrBlockTask` | FreeRTOS-Kernel/timers.c:778-837 | Within an epoch the daemon blocks exactly if no timer is due, and otherwise serves one that expires first; across a wrap every timer due in the old epoch is served.  When it blocks every timer has been served up to now, and it waits until the next expiry, or until the count wraps if that is earlier, or for ever exactly if no timer runs. |
| `Timers.TimerDaemon.ProcessCommand` | FreeRTOS-Kernel/timers.c:962-1084 | Start, reset, stop, change of period and delete leave the named timer in the state they ask for, with all missed expiries served, and others untouched. |
| `Timers.TimerDaemon.ProcessReceivedCommands` | FreeRTOS-Kernel/timers.c:934-1087 | The loop handles every queued command, after which every timer does what it was last asked to do, and timers that were not named go on undisturbed. |
| `Timers.TimerDaemon.Turn` | FreeRTOS-Kernel/timers.c:747-776 | One turn of the daemon loop serves or blocks as it should; when it blocks every timer has fired exactly as often as asked, and after the commands every timer does what it was last asked to do. |
| `Timers.TimerTask` | FreeRTOS-Kernel/timers.c:747-776 | From the creation of the daemon and over any schedule of samples and commands, whenever the daemon blocks at t every auto-reload timer last started at s with period p has fired exactly floor((t - s) / p) times, every one-shot once if its period has passed and not before, and no stopped timer runs; a prompt schedule is served to its end. |
| `Timers.BacklogClears` | FreeRTOS-Kernel/timers.c:778-837 | Of the turns of the daemon at one time with no command in between, at most as many fail to block as there are timers due, and one blocks exactly if none is due. |
| `Timers.SettledIsExact` | FreeRTOS-Kernel/timers.c:695-741 | A timer whose history is in order and whose next expiry is in the future has fired exactly as often as it was asked to. |
| `Smp.Cores.constructor` | FreeRTOS-Kernel/tasks.c:3557-3698 | At the start each core runs its own idle task. |
| `Smp.IdleAvailable` | FreeRTOS-Kernel/tasks.c:1138-1152 | With one idle task for each core there is always an idle task that no other core runs. |
| `Smp.Cores.FirstAvailable` | FreeRTOS-Kernel/tasks.c:1071-1134 | The walk over one list finds the first task that no other core is running. |
| `Smp.Cores.SelectHighestPriorityTask` | FreeRTOS-Kernel/tasks.c:1012-1162 | No task ends up on two cores and run states are exact; a task is always found; it has the highest priority of the ready tasks no other core runs; the core keeps its task only if no equal is available; uxTopReadyPriority rests on a non-empty list. |
| `Smp.Cores.YieldCore` | FreeRTOS-Kernel/tasks.c:350-366 | Asking a core to yield keeps the run states exact. |
| `Smp.Cores.LowestCore` | FreeRTOS-Kernel/tasks.c:930-985 | The search over the cores ends with the last of the lowest cores that could be asked to yield, or with none. |
| `Smp.Cores.YieldForTask` | FreeRTOS-Kernel/tasks.c:897-1006 | A core is asked to yield exactly if one runs an idle task or one below the new task and has not been asked yet; it is one that runs an idle task if there is one, otherwise one with the lowest task, and the last of these. |
| `Smp.Cores.MakeReady` | FreeRTOS-Kernel/tasks.c:285-291 | A task enters the ready list of its priority, and uxTopReadyPriority covers it. |
| `EventGroups.EncodeDecode` | FreeRTOS-Kernel/event_groups.c:368-396 | The bits waited for and the control bits stored in the event item can be told apart again. |
| `EventGroups.TestWaitCondition` | FreeRTOS-Kernel/event_groups.c:777-816 | Waiting for all is met exactly if every bit waited for is set, waiting for any exactly if some bit is. |
| `EventGroups.SetBitsExact` | FreeRTOS-Kernel/event_groups.c:547-647 | Exactly the waiters are unblocked for which, of old | set, every bit they wait for is set, or some bit if they wait for any; all get that same value; and exactly the bits that an unblocked task waits for and clears on exit are cleared. |
| `EventGroups.SetBitsOrderIndependent` | FreeRTOS-Kernel/event_groups.c:573-632 | The order of the waiting list does not matter to any of this. |
| `EventGroups.EventGroup.SetEventBits` | FreeRTOS-Kernel/event_groups.c:547-647 | The loop, which unlinks tasks as it walks, computes that result. |
| `EventGroups.EventGroup.WaitForBits` | FreeRTOS-Kernel/event_groups.c:312-403 | The call blocks exactly if it may and not every bit it waits for is set, or none if it waits for any; a satisfied call clears exactly what was asked; a blocked one is last in the list with its request in its event item; no satisfied waiter is left. |
| `EventGroups.EventGroup.ClearEventBits` | FreeRTOS-Kernel/event_groups.c:472-501 | Exactly the given bits are cleared, the value from before is returned, and no satisfied waiter is left. |
| `EventGroups.EventGroup.Synchronise` | FreeRTOS-Kernel/event_groups.c:185-250 | The call returns at once exactly when its bits complete the set, which is then cleared; no satisfied waiter is left. |
| `EventGroups.EventGroup.ReturnAfterBlocking` | FreeRTOS-Kernel/event_groups.c:416-459 | A task that was unblocked returns exactly the bits that unblocked it and changes nothing; one that timed out clears its bits only if they satisfy it now, all or any as it asked; no satisfied waiter is left. |
| `EventGroups.StepInv` | FreeRTOS-Kernel/event_groups.c:312-403 | Every API step leaves no satisfied waiter. |
| `EventGroups.NoSatisfiedWaiter` | FreeRTOS-Kernel/event_groups.c:547-647 | In every run a task that waits has made a call since which it has waited all along, and now some bit that call asked for is not set, or none of them is if it asked for any. |
| `EventGroups.Rendezvous` | FreeRTOS-Kernel/event_groups.c:185-309 | For any number of tasks with disjoint bits in any order, all but the last block, the last releases all, every return value has all the bits, and the group ends as it began. |
| `QueueLocking.ShapePreserved` | FreeRTOS-Kernel/queue.c:258-300 | Every step keeps lock counts, lists, woken sets and call positions consistent. |
| `QueueLocking.CoverPreserved` | FreeRTOS-Kernel/queue.c:949-1656 | Every step keeps waiting receivers covered by woken receivers and the lock count; every step but a reset keeps waiting senders covered. |
| `QueueLocking.AttemptOutcome` | FreeRTOS-Kernel/queue.c:967-1100 | For every kind of call, the first critical section stores, takes or peeks on a usable queue, wakes the first waiter that this serves and returns; on an unusable one the call goes on to wait exactly if it has a block time, and nothing else changes. |
| `QueueLocking.CallsEndRightly` | FreeRTOS-Kernel/queue.c:1509-1656 | In every run a call returns only having found the queue usable, having found it unusable without a block time, or after a time-out: a send at once, a receive or peek with the queue empty once more. |
| `QueueLocking.CallerBlocks` | FreeRTOS-Kernel/queue.c:1599-1627 | On a quiet queue that a sender, receiver or peeker cannot use, a caller with time left ends blocked in the event list of its side, at the place its priority gives, and nothing else has changed. |
| `QueueLocking.CallerTimesOut` | FreeRTOS-Kernel/queue.c:1635-1652 | One whose time is up returns and leaves everything as it was. |
| `QueueLocking.ReadersBlock` | FreeRTOS-Kernel/queue.c:1884-2036 | A run in which a receiver and a peeker both end blocked on an empty queue. |
| `QueueLocking.ExpireOutcome` | FreeRTOS-Kernel/queue.c:1611-1627 | A waiter whose time runs out leaves its event list, alone, and can go on. |
| `QueueLocking.SuspenderFinishes` | FreeRTOS-Kernel/queue.c:1599-1640 | A task that has suspended the scheduler is never stuck: at most seven steps of its own resume it with the queue unlocked. |
| `QueueLocking.MessagesConserved` | FreeRTOS-Kernel/queue.c:2460-2470 | In every run without a reset uxMessagesWaiting is what was there, plus the items stored, less the items taken, by tasks and interrupts alike. |
| `QueueLocking.LockCountsArePosts` | FreeRTOS-Kernel/queue.c:258-300 | In every run, while the queue is locked, cTxLock and cRxLock are exactly the numbers of posts and removals interrupts have made since, up to the number of tasks. |
| `QueueLocking.NoReceiverLeftBehind` | FreeRTOS-Kernel/queue.c:1509-1656 | In every interleaving a waiting receiver faces at most as many messages as there are woken receivers yet to retry plus pending lock counts, or that count is at its cap; so with the queue unlocked and all retried, the queue is empty. |
| `QueueLocking.NoSenderLeftBehind` | FreeRTOS-Kernel/queue.c:949-1164 | The same for senders and free slots, in every run without a reset. |
| `QueueLocking.LockCountsFitInt8` | FreeRTOS-Kernel/queue.c:277-300 | In every run the lock counts stay between -1 and the number of tasks, so with at most 127 tasks no increment leaves the range of int8_t. |
| `QueueLocking.ResetKeepsSendersExactlyWhen` | FreeRTOS-Kernel/queue.c:303-372 | A reset keeps the sender-side guarantee if and only if at most one sender waits or the woken senders can fill the queue. |
| `QueueLocking.ResetSafeWithOneSenderOrSlot` | FreeRTOS-Kernel/queue.c:327-343 | A reset is safe whenever at most one sender waits or the queue has one slot. |
| `QueueLocking.ResetCanStrandASender` | FreeRTOS-Kernel/queue.c:327-343 | A run in which two tasks block on a full queue of two slots and a third resets it, leaving a sender blocked on an empty queue. |
| `QueueLocking.Queue.Unlock` | FreeRTOS-Kernel/queue.c:2497-2614 | The two draining loops wake exactly the first tasks of each list, as many as were counted as far as there are any; both locks are released and the count of messages stays. |
| `QueueLocking.Queue.UnlockReceiveSide` | FreeRTOS-Kernel/queue.c:2575-2614 | The second loop does so for senders. |
| `QueueLocking.Queue.SendFromISR` | FreeRTOS-Kernel/queue.c:1167-1335 | The count grows by one unless the queue is full or an item is overwritten; with the queue not locked the first receiver is woken, otherwise the lock count grows up to its cap and no event list is touched; waiting tasks on both sides stay covered. |
| `QueueLocking.Queue.ReceiveFromISR` | FreeRTOS-Kernel/queue.c:2039-2136 | The count falls by one unless the queue is empty; with the queue not locked the first sender is woken, otherwise the lock count grows up to its cap and no event list is touched; waiting tasks on both sides stay covered. |
| `QueueRing.Queue.constructor` | FreeRTOS-Kernel/queue.c:303-325 | A new queue is empty with both positions inside the storage. |
| `QueueRing.Queue.Reset` | FreeRTOS-Kernel/queue.c:318-325 | A reset empties the queue. |
| `QueueRing.Queue.CopyDataToQueue` | FreeRTOS-Kernel/queue.c:2393-2473 | The stored items gain the new one at the back or at the front, or an overwrite leaves the new one alone; items of size 0 are only counted; positions stay inside the storage on item boundaries; the count stays within uxLength if and only if the send is not an overwrite of a full queue of zero-size items. |
| `QueueRing.Queue.CopyDataFromQueue` | FreeRTOS-Kernel/queue.c:2476-2494 | The oldest item is copied out and the read position moves on by one item. |
| `QueueRing.Queue.Send` | FreeRTOS-Kernel/queue.c:975-985 | A send succeeds exactly when there is room or it overwrites, and the item is then at the back, at the front, or the only one; otherwise nothing changes. |
| `QueueRing.OverwriteCanOverfill` | FreeRTOS-Kernel/queue.c:2404-2420 | A queue of length 1 and item size 0 that holds two messages after a send and an overwrite. |
| `QueueRing.Queue.Receive` | FreeRTOS-Kernel/queue.c:1535-1560 | A receive takes exactly the oldest item. |
| `QueueRing.Queue.Peek` | FreeRTOS-Kernel/queue.c:1912-1925 | A peek returns the oldest item and changes nothing. |
| `QueueRing.HoldsFront` | FreeRTOS-Kernel/queue.c:2436-2447 | Writing at the read position and stepping it back puts the item in front of all others. |
| `MessageFraming.LengthRoundTrip` | FreeRTOS-Kernel/stream_buffer.c:1003-1053 | A length prefix decodes to the length that was encoded. |
| `StreamChannel.WriterSparesUnread` | FreeRTOS-Kernel/stream_buffer.c:1479-1522 | In any interleaving the writer never stores into the slot of an unread byte. |
| `StreamChannel.ReaderSeesPublished` | FreeRTOS-Kernel/stream_buffer.c:1525-1566 | The reader fetches only published bytes. |
| `StreamChannel.SpacesConservative` | FreeRTOS-Kernel/stream_buffer.c:754-788 | The space reported from stale indices is never more than there is. |
| `StreamChannel.BytesConservative` | FreeRTOS-Kernel/stream_buffer.c:1569-1587 | The count reported from a stale head is never more than is published. |
| `StreamChannel.StreamIsFaithful` | FreeRTOS-Kernel/stream_buffer.c:1003-1053 | With one writer and one reader, in every interleaving of reading indices, copying and publishing, the bytes received are a prefix of the bytes sent. |
| `StreamChannel.SendTakesEffect` | FreeRTOS-Kernel/stream_buffer.c:1003-1053 | In every interleaving a send that has returned has published exactly the longest prefix of its data that fitted the space free at some moment during the call, or on a message buffer the whole message or nothing by the same measure. |
| `StreamChannel.ReceiveTakesEffect` | FreeRTOS-Kernel/stream_buffer.c:1279-1331 | In every interleaving a receive that has returned has delivered exactly the bytes that were there at some moment during the call, up to the space it was given, or on a message buffer the next message if there was one and it fits. |
| `StreamChannel.WriterFinishes` | FreeRTOS-Kernel/stream_buffer.c:754-788 | Wherever the reader has stopped, a send ends within a bounded number of its own steps. |
| `StreamChannel.ReaderFinishes` | FreeRTOS-Kernel/stream_buffer.c:1525-1566 | Wherever the writer has stopped, so does a receive. |
| `StreamChannel.MessagesComeOutWhole` | FreeRTOS-Kernel/stream_buffer.c:1279-1331 | In every interleaving on a message buffer the messages received are a prefix of those sent, each whole. |
| `StreamChannel.ReaderDecodesLength` | FreeRTOS-Kernel/stream_buffer.c:1279-1331 | The length the reader decodes is that of the next unread message. |
| `StreamChannel.ReaderTakesMessage` | FreeRTOS-Kernel/stream_buffer.c:1279-1331 | What the reader then takes is exactly that message. |
| `StreamBuffers.StreamBuffer.SpacesAvailable` | FreeRTOS-Kernel/stream_buffer.c:754-788 | Free space plus used space is the length less one. |
| `StreamBuffers.StreamBuffer.BytesInBuffer` | FreeRTOS-Kernel/stream_buffer.c:1569-1587 | The count is that of the unread bytes. |
| `StreamBuffers.StreamBuffer.WriteBytes` | FreeRTOS-Kernel/stream_buffer.c:1479-1522 | At most two copies store the bytes after the given index, across the wrap. |
| `StreamBuffers.StreamBuffer.ReadBytes` | FreeRTOS-Kernel/stream_buffer.c:1525-1566 | At most two copies read the bytes at the given index, across the wrap. |
| `StreamBuffers.StreamBuffer.WriteMessage` | FreeRTOS-Kernel/stream_buffer.c:1003-1053 | A message is stored whole or not at all; a stream stores as much as fits. |
| `StreamBuffers.StreamBuffer.ReadMessage` | FreeRTOS-Kernel/stream_buffer.c:1279-1331 | A message comes out whole, or nothing changes if it does not fit the receiver; a stream yields as much as asked for. |
| `StreamBuffers.StreamBuffer.Send` | FreeRTOS-Kernel/stream_buffer.c:808-940 | The unread bytes grow by exactly what the call reports. |
| `StreamBuffers.StreamBuffer.Receive` | FreeRTOS-Kernel/stream_buffer.c:1056-1170 | The unread bytes shrink by exactly what the call delivers. |
| `StreamBuffers.StreamBuffer.StoredMessages` | FreeRTOS-Kernel/stream_buffer.c:1172-1213 | A message buffer holds nothing or more than a length prefix. |
| `StreamBuffers.FlattenFront` | FreeRTOS-Kernel/stream_buffer.c:1279-1331 | The first stored message is at the front of the stored bytes. |

## Left out

- Queue sets: the lock count is capped at the number of tasks, which only bounds tasks to wake.
- Direct-to-task notifications, and with them stream buffers' blocking and waking of the other side.
- Yield requests, time slicing and preemption of the running task on one core: they choose when a context switch happens, not what the lists hold.
- Task notifications in prvTaskIsTaskSuspended: a task waiting for a notification without a time-out counts as suspended here.
- Transitive priority inheritance and re-sorting of event lists when a waiter's priority changes: the code does neither.
- Recursive mutexes, and mutexes or holders that are deleted while held.
- xPendedTicks and xNumOfOverflows are unbounded in the kernel model; `Timeouts.dfy` models the width of the overflow count.
- KernelRuns.ExactWakeUp: the ticks that one xTaskResumeAll processes are one step of a run; KernelOps.TicksExact and Kernel.TickCoreExact state what each of them does.
- Lists.MoveToEnd: the end markers of the two lists are distinct objects, as they are embedded in distinct lists.
- Switches of auto-reload mode while a timer runs, pended function calls, and the freeing of a deleted timer's memory.
- Stream buffers longer than half the range of size_t, trigger levels, and a third task calling xStreamBufferSpacesAvailable.
- Core affinity, the single-priority option and the critical-section hand-over of the multi-core build.
- Event groups and queues deleted while tasks wait.
- Static and dynamic allocation, stacks, MPU, thread-local storage, trace hooks, run-time statistics, formatting.
- croutine.c: the delayed lists of co-routines follow the scheme of tasks.c, which is modelled there.
- atomic.h, queue registry and numbering, and the register-window accessors: single updates of one variable or table entry; what the register-window fields mean is decided by port code that is not part of this model.

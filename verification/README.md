# A verified model of the FreeRTOS kernel

The project models the kernel in `FreeRTOS/Source` and the `std::thread` support built on it, and proves
what its protocols keep over every run. The tick range is a parameter; wherever the source compares
wrapped tick counts, the model also keeps unbounded time, and the theorems relate the two.

| part | files |
|---|---|
| shared arithmetic, tick counts and sequence views of lists | `Arith`, `TickTime`, `SeqLists` |
| linked lists on the heap; ready-list rotation | `KernelList`, `RoundRobin` |
| scheduler: state and list moves, operations, invariant, ticks, calls, runs, wake-up times, releases, counts, rotation, effects | `Kernel`, `Scheduler`, `KernelInvariant`, `KernelTicks`, `KernelSteps`, `KernelCalls`, `KernelRuns`, `KernelWakeUp`, `KernelRelease`, `KernelPartition`, `KernelRotation`, `KernelEffects` |
| the same operations on mutable fields, loops included | `KernelMachine` |
| timeouts and periodic delays | `Deadlines` |
| bytes; queue storage; blocking and lock counts | `Octets`, `QueueStorage`, `QueueProtocol`, `QueueRuns`, `QueueControl` |
| mutexes and priority inheritance | `Mutex`, `MutexPriorities`, `MutexMachine` |
| software timers and their daemon | `Timers`, `TimerDaemon`, `TimerRuns`, `TimerProgress`, `TimerMachine` |
| stream and message buffers | `StreamProtocol`, `StreamCalls`, `StreamBuffer` |
| event groups and the barrier made of them | `EventGroups`, `Rendezvous` |
| thread handles, join and detach | `ThreadLifecycle`, `ThreadMachine` |

Each protocol is a state machine: a `Step` or `Call` per atomic region of the source, `Enabled` for what
the source asserts or the calling context guarantees, `Perform` for what the region does. Critical
sections and regions with the scheduler suspended are one step; where the source leaves and re-enters
them the steps are separate, but for three places named under "Left out". Where the source changes fields
in place or loops, a class does the same, and its methods are proved to do what the functions the theorems
are about say and to keep the invariants those theorems prove.

`Mutex` separates two kinds of condition. `Enabled` is what the source demands, and the accounting of
holders needs nothing else. `Disciplined` adds what the bound on priority inversion presupposes: a mutex is
taken by a task that no ready task outranks, no task blocks on a mutex while it holds one, and priorities
are set safely.

## What the proofs found

Some statements one would expect of the code hold only under a condition. The code is modelled as it is,
and the condition is proved exact.

- Round-robin selection bounds the wait of a ready task only while the task is still ahead of `pxIndex`.
  Removing the indexed item steps `pxIndex` back, and an insertion then goes in front of the task it
  stepped back onto (`RoundRobin.BoundedWaitIff`, `RoundRobin.CanBePushed`).
- `vTaskPrioritySet` on a mutex holder that is not inheriting can put it below a task waiting for its
  mutex (`Mutex.SetPriorityInverts`). So can it on a task woken for a mutex that has not run yet
  (`Mutex.SetPriorityOnWokenInverts`). `Mutex.SetPriorityKeepsBoundIff` says exactly when it does not.
- Setting the priority of a task in a mutex's event list can raise the holder above every task that blocked
  on it (`MutexPriorities.SettingAWaiterRaisesTheHolder`). In disciplined runs only blocking raises a holder
  (`MutexPriorities.RaisedByBlockingOnly`).
- `xQueueOverwrite` on a queue of one item of size zero counts a second item
  (`QueueStorage.Queue.CopyDataToQueue`).
- Resetting a queue wakes one sender although every place becomes free
  (`QueueProtocol.ResetKeepsSendersIff`, `QueueRuns.ResetLosesSender`).
- `prvInsertTimerInActiveList` and `xTaskDelayUntil` decide by the residue of the elapsed time, so they
  are right within one wrap and wrong after it in an exactly described set of cases
  (`Timers.ProcessNowCorrectIff`, `Deadlines.ShouldDelayCorrectIff`); `xTaskCheckForTimeOut` tolerates
  one more wrap (`Deadlines.CheckCorrectIff`). An input that fails is given for each
  (`Timers.MisplacedAfterAWrap`, `Deadlines.DelaysAfterAWrap`, `Deadlines.CheckMissesTwoWraps`).
- A ready task can be in the pending list: a notification from an interrupt, while the scheduler is
  suspended, of a task that has timed out but not yet run. The invariant allows it and stays inductive.
- `xEventGroupSetBits` reads the bits once more to return them after the call that may have released a
  detaching thread, which deletes the event group. A detach is safe in every continuation exactly when
  `notify_started` has returned before it is called (`ThreadLifecycle.DetachIsSafeIff`).

## Model

| member | source | states |
|---|---|---|
| KernelList.List.constructor | FreeRTOS/Source/list.c:48-70 | an initialised list is a valid empty ring whose end marker carries the maximum value |
| KernelList.List.Insert | FreeRTOS/Source/list.c:115-180 | on a valid sorted ring the search ends, for the maximum value too, and the item lands after its equals; items and pxIndex together are as the sequence model puts them and no other node changes |
| KernelList.List.InsertEnd | FreeRTOS/Source/list.c:85-112 | the new item is linked just before pxIndex, so it is last in the rotation |
| KernelList.List.Remove | FreeRTOS/Source/list.c:183-209 | exactly that item leaves the ring; pxIndex steps back if it pointed to it; the remaining count is returned |
| KernelList.List.Next | FreeRTOS/Source/include/list.h:279-290 | pxIndex moves to the next item, past the end marker, and that item is returned |
| SeqLists.InsertPos | FreeRTOS/Source/list.c:139-167 | sorted insertion goes before the first greater value and after all values not greater |
| SeqLists.InsertKeepsOrder | FreeRTOS/Source/list.c:115-180 | sorted insertion keeps a list in ascending order and puts the new value after its equals |
| RoundRobin.RotationAdvance | FreeRTOS/Source/tasks.c:134-149 | selecting moves the head of the rotation to its end |
| RoundRobin.RotationAdd | FreeRTOS/Source/list.c:85-112 | an inserted item goes last in the rotation, or last but one behind the item under pxIndex; the others keep their order |
| RoundRobin.RotationDrop | FreeRTOS/Source/list.c:183-209 | removing any item, the indexed one included, takes it out of the rotation and keeps the order of the others |
| RoundRobin.BoundedWait | FreeRTOS/Source/tasks.c:134-149 | an item that is never pushed back is selected within as many selections as its position, whatever insertions and removals come between |
| RoundRobin.BoundedWaitAhead | FreeRTOS/Source/tasks.c:134-149 | an item still ahead of pxIndex is selected within that many selections, in every run |
| RoundRobin.CanBePushed | FreeRTOS/Source/list.c:183-209 | an item that pxIndex has passed can be kept waiting for as many selections beyond its position as there are newcomers, by removals that step pxIndex back onto it and insertions before it |
| RoundRobin.BoundedWaitIff | FreeRTOS/Source/list.c:183-209 | the bound holds for all runs exactly for the items still ahead of pxIndex |
| Kernel.UnlinkCore | FreeRTOS/Source/list.c:183-209 | taking a state item out keeps lists and containers in agreement and takes it out of one list only |
| Kernel.LinkCore | FreeRTOS/Source/tasks.c:219-223 | linking a free state item anywhere in the right list keeps lists and containers in agreement |
| KernelInvariant.WakeSettled | FreeRTOS/Source/tasks.c:2797-2813 | moving a task to its ready list keeps lists, wake order, ready bitmap, top priority and counts right |
| KernelInvariant.WakeTop | FreeRTOS/Source/tasks.c:2815-2831 | waking a task that does not outrank the running one needs no switch |
| KernelSteps.Detach | FreeRTOS/Source/tasks.c:1718-1726 | removal with taskRESET_READY_PRIORITY keeps the ready bitmap exact |
| KernelSteps.JoinReady | FreeRTOS/Source/tasks.c:219-223 | prvAddTaskToReadyList keeps the bitmap exact and uxTopReadyPriority a bound |
| KernelSteps.JoinTimed | FreeRTOS/Source/tasks.c:5305-5334 | insertion by wake time keeps the delayed lists sorted |
| KernelTicks.HeadIsEarliest | FreeRTOS/Source/tasks.c:2755-2795 | the head of the delayed list has the earliest wake time |
| KernelTicks.DrainWoken | FreeRTOS/Source/tasks.c:2759-2837 | the loop of the tick wakes exactly the tasks due now |
| KernelTicks.DrainTop | FreeRTOS/Source/tasks.c:2815-2831 | the loop asks for a switch unless nothing it woke reaches the running priority |
| KernelTicks.ResetTimes | FreeRTOS/Source/tasks.c:3988-4006 | the stored next unblock time is no later than any delayed wake time |
| KernelTicks.EmptyAtWrap | FreeRTOS/Source/tasks.c:199-211 | the delayed list is empty whenever the tick count is about to wrap |
| KernelTicks.CountTickWakes | FreeRTOS/Source/tasks.c:2725-2837 | one counted tick readies exactly the tasks whose unbounded wake time it reaches and keeps the times of all others |
| KernelTicks.ReplayWakes | FreeRTOS/Source/tasks.c:2264-2293 | replaying n pended ticks readies exactly the tasks due within them |
| KernelTicks.ReplayTop | FreeRTOS/Source/tasks.c:2264-2293 | replayed ticks leave a switch pending if anything woken outranks the running task |
| KernelCalls.ScanIsHighest | FreeRTOS/Source/tasks.c:134-149 | the downward scan ends at a non-empty list, because idle is ready and uxTopReadyPriority bounds every ready priority, and that list is the highest |
| KernelCalls.OptimisedSelection | FreeRTOS/Source/tasks.c:166-180 | the highest bit of the optimised port's bitmap is the priority the generic scan finds |
| KernelCalls.SwitchKeeps | FreeRTOS/Source/tasks.c:3010-3083 | a context switch makes the head of the highest ready list's rotation run and sends it to the end of that rotation, and touches no other list; it keeps the invariant |
| KernelCalls.NotifyKeeps | FreeRTOS/Source/tasks.c:4842-5097 | a notification from a task or an interrupt keeps the invariant, with the scheduler suspended or not |
| KernelCalls.EventKeeps | FreeRTOS/Source/tasks.c:3165-3278 | removal from an ordered or unordered event list keeps the invariant; from an ordered one the task waits in the pending list while the scheduler is suspended and is ready otherwise, from an unordered one it is ready |
| KernelCalls.AbortKeeps | FreeRTOS/Source/tasks.c:2647-2720 | aborting a delay keeps the invariant |
| KernelCalls.ResumeKeeps | FreeRTOS/Source/tasks.c:1858-1982 | resuming a task from a task or an interrupt keeps the invariant |
| KernelCalls.CreateKeeps | FreeRTOS/Source/tasks.c:1068-1148 | creating a task keeps the invariant and asks for a switch if it outranks the running one |
| KernelCalls.DeleteSelfKeeps | FreeRTOS/Source/tasks.c:1154-1242 | a task deleting itself keeps the invariant, is then in the termination list, counted as awaiting clean-up, and a switch is requested |
| KernelCalls.DeleteOtherKeeps | FreeRTOS/Source/tasks.c:1154-1242 | deleting another task keeps the invariant, the counts included, and the task is gone, from every list too |
| KernelCalls.CleanUpKeeps | FreeRTOS/Source/tasks.c:3680-3705 | the idle task's clean-up keeps both task counts right |
| KernelCalls.SuspendKeeps | FreeRTOS/Source/tasks.c:1706-1790 | suspension keeps the invariant, the next unblock time included |
| KernelCalls.PriorityKeeps | FreeRTOS/Source/tasks.c:1540-1699 | setting a priority relists a ready task, and asks for a switch whenever the running task may no longer be highest |
| KernelRuns.WakeEpoch | FreeRTOS/Source/tasks.c:5302-5318 | a wrapped wake time below the tick count means the wake time is in the next epoch |
| KernelRuns.DelayUntilDue | FreeRTOS/Source/tasks.c:5263-5334 | the running task goes to the list of the epoch its true wake time now + n falls in, and the next unblock time is brought forward |
| KernelRuns.DelayForever | FreeRTOS/Source/tasks.c:5291-5300 | the maximum delay with indefinite blocking puts the task in the suspended list |
| KernelRuns.BlockKeeps | FreeRTOS/Source/tasks.c:3086-3127 | blocking on time, an event or a notification, in whatever notification state, keeps the invariant |
| KernelRuns.TickKeeps | FreeRTOS/Source/tasks.c:2725-2895 | the tick keeps the invariant |
| KernelRuns.PendedTickIsKept | FreeRTOS/Source/tasks.c:2880-2893 | a tick during suspension is lost exactly when the count of pended ticks wraps |
| KernelRuns.MovePendingKeeps | FreeRTOS/Source/tasks.c:2224-2251 | emptying the pending list keeps the invariant and leaves a yield pending for any task as high as the running one |
| KernelRuns.ResumeAllKeeps | FreeRTOS/Source/tasks.c:2210-2318 | resuming the scheduler keeps the invariant: pending list empty, pended ticks all counted |
| KernelRuns.StepKeeps | FreeRTOS/Source/tasks.c:2210-2318 | every scheduler call keeps the whole invariant |
| KernelRuns.Run | FreeRTOS/Source/tasks.c:2210-2318 | the invariant holds in every reachable state |
| KernelRuns.BootInvariant | FreeRTOS/Source/tasks.c:1987-2096 | the state the scheduler starts in satisfies the invariant |
| KernelRuns.NoMissedPreemption | FreeRTOS/Source/tasks.c:2647-2878 | in every reachable state, a ready task outranking the running one means a switch is pending or requested |
| KernelRuns.NoTickIsLost | FreeRTOS/Source/tasks.c:2264-2293 | in every reachable state each tick interrupt has been counted or is pended, and none is pended while the scheduler runs |
| KernelRelease.ReleasedAtOnce | FreeRTOS/Source/tasks.c:3165-3278 | a notification, event, abort or resumption that ends a task's wait makes it ready, or pending while the scheduler is suspended |
| KernelRelease.ResumptionReadies | FreeRTOS/Source/tasks.c:2224-2251 | once the scheduler is resumed every pending task is ready |
| KernelRuns.SwitchRunsTheHighest | FreeRTOS/Source/tasks.c:3010-3083 | the switch then runs a ready task that no ready task outranks |
| KernelRotation.CallActs | FreeRTOS/Source/tasks.c:134-149 | every call acts on each ready list as a legal run of insertions at the end, removals and selections: it selects exactly when it is a switch that finds this list highest, and runs what it selects |
| KernelRotation.RunActs | FreeRTOS/Source/tasks.c:134-149 | so does every run of calls, which for each priority makes the round-robin theorems statements about tasks |
| KernelRotation.RunsWithinRank | FreeRTOS/Source/tasks.c:134-149 | in every run a ready task that pxIndex has not passed and that is not taken out of its list runs within as many switches to its priority as its place in the rotation |
| KernelEffects.AsksIff | FreeRTOS/Source/tasks.c:1540-1982 | exactly which calls pend a yield or request a switch, and under which comparison of priorities |
| KernelEffects.DrainAsksIff | FreeRTOS/Source/tasks.c:2759-2837 | the loop of the tick asks for a switch exactly if a task due now has at least the running priority |
| KernelEffects.TickAsksIff | FreeRTOS/Source/tasks.c:2725-2895 | a tick asks for a switch exactly if one was pending or requested, a task due has at least the running priority, or that priority has more than one ready task |
| KernelEffects.PendingAsksIff | FreeRTOS/Source/tasks.c:2224-2251 | emptying the pending list leaves a yield pending exactly if one was or a task in it has at least the running priority |
| KernelEffects.ResumptionAsksIff | FreeRTOS/Source/tasks.c:2210-2318 | the last resumption requests a switch exactly when a yield is pending by then; an inner one only counts down |
| KernelEffects.HeldLast | FreeRTOS/Source/tasks.c:3165-3205 | a release under a suspended scheduler puts the task at the end of the pending list |
| KernelEffects.PendingJoinInOrder | FreeRTOS/Source/tasks.c:2224-2251 | held tasks join the ready lists in the order in which they were released |
| KernelEffects.ResetIsEarliest | FreeRTOS/Source/tasks.c:3988-4006 | the next unblock time stored is the earliest wake time in the delayed list, or the maximum |
| KernelEffects.BlockedTask | FreeRTOS/Source/tasks.c:5263-5334 | a task that blocks can be released by the event or notification it waits for, and only an unlimited wait for neither counts as a suspension |
| KernelEffects.SuspensionBegins | FreeRTOS/Source/tasks.c:1706-1790 | suspending a task ends its wait for an event or notification and takes it out of the pending list |
| KernelEffects.CreatedTask | FreeRTOS/Source/tasks.c:1068-1148 | a new task is ready at its priority, waits for nothing and is counted; every other task is as before |
| KernelEffects.PrioritisedTask | FreeRTOS/Source/tasks.c:1540-1699 | the priority is as set, a ready task is in the list of it, and nothing else about any task changes |
| KernelEffects.NotificationIsRecorded | FreeRTOS/Source/tasks.c:4842-5097 | a notification is recorded, and if the task was not waiting for one that is all that happens |
| KernelEffects.NotificationIsNotLost | FreeRTOS/Source/tasks.c:4700-4760 | over every run a notification that has come stays recorded until the task itself takes note of it |
| KernelWakeUp.ListsByEpoch | FreeRTOS/Source/tasks.c:5302-5334 | in unbounded time the delayed list holds wake times of the current epoch still to come, the overflow list those of the next, and the next unblock time is never after a delayed one |
| KernelWakeUp.StillDue | FreeRTOS/Source/tasks.c:2759-2837 | a timed task's unbounded wake time is still to come in every reachable state |
| KernelWakeUp.OnlyTicksCount | FreeRTOS/Source/tasks.c:2264-2293 | only a tick and the resumption count ticks, one and all the pended ones |
| KernelWakeUp.OthersSpared | FreeRTOS/Source/tasks.c:3165-3278 | every call other than a tick or resumption affects one task's control block at most |
| KernelWakeUp.PerformSleeps | FreeRTOS/Source/tasks.c:2725-2837 | a call that does not concern a sleeping task leaves it asleep unless it counts the tick it is due at, and then readies it |
| KernelWakeUp.SleepsUntilDue | FreeRTOS/Source/tasks.c:2725-2837 | over any run, an undisturbed task stays blocked while its wake time has not been counted |
| KernelWakeUp.ExactWakeUp | FreeRTOS/Source/tasks.c:5263-5334 | a task that blocks for n ticks and is not disturbed is blocked while fewer than n more ticks have been counted and ready after the call that counts the n-th |
| KernelWakeUp.SuspensionLasts | FreeRTOS/Source/tasks.c:1706-1830 | no tick, event, notification, abort or priority change ends a suspension |
| KernelWakeUp.TickSharesTime | FreeRTOS/Source/tasks.c:2838-2851 | a counted tick asks for a switch whenever another ready task has the running task's priority |
| KernelPartition.OneListEach | FreeRTOS/Source/tasks.c:1068-1130 | every task is in exactly the list its block names, once; the pending list is empty unless the scheduler is suspended |
| KernelPartition.CountsMatchLists | FreeRTOS/Source/tasks.c:1068-1130 | uxCurrentNumberOfTasks is the total length of the state lists and uxDeletedTasksWaitingCleanUp that of the termination list |
| KernelMachine.Machine.constructor | FreeRTOS/Source/tasks.c:1987-2096 | the fields start as vTaskStartScheduler leaves them |
| KernelMachine.Machine.AddToReadyList | FreeRTOS/Source/tasks.c:219-223 | the task is appended to the list of its priority, and uxTopReadyPriority and the bitmap take that priority in |
| KernelMachine.Machine.ResetNextUnblockTime | FreeRTOS/Source/tasks.c:3988-4006 | xNextTaskUnblockTime becomes the wake time at the head of the delayed list, or the maximum if it is empty |
| KernelMachine.Machine.WakeExpired | FreeRTOS/Source/tasks.c:2759-2837 | the loop ends and leaves the state, and the switch flag, of the specification |
| KernelMachine.Machine.CountOneTick | FreeRTOS/Source/tasks.c:2739-2753 | the tick count moves on; at a wrap the two delayed lists change places and the next unblock time is recomputed |
| KernelMachine.Machine.IncrementTick | FreeRTOS/Source/tasks.c:2725-2895 | in place: the whole tick, running or suspended |
| KernelMachine.Machine.TickHandler | FreeRTOS/Source/tasks.c:2725-2895 | in place: the tick interrupt and the switch it asks for; the scheduler invariant is kept |
| KernelMachine.Machine.MovePendingTasks | FreeRTOS/Source/tasks.c:2224-2251 | the loop over the pending list |
| KernelMachine.Machine.ReplayTicks | FreeRTOS/Source/tasks.c:2264-2293 | the loop over the pended ticks |
| KernelMachine.Machine.CatchUp | FreeRTOS/Source/tasks.c:2224-2305 | in place: the pending tasks moved, the pended ticks counted, and whether a yield is due |
| KernelMachine.Machine.ResumeAll | FreeRTOS/Source/tasks.c:2210-2318 | in place: the whole of xTaskResumeAll, and when it reports a yield; the scheduler invariant is kept |
| KernelMachine.Machine.SelectHighest | FreeRTOS/Source/tasks.c:134-149 | the selection loop ends at the highest non-empty list, stores its priority and advances its index |
| KernelMachine.Machine.SwitchContext | FreeRTOS/Source/tasks.c:3010-3083 | a switch under suspension is pended; otherwise the next task of the highest list runs; the scheduler invariant is kept |
| KernelMachine.Machine.AddCurrentToDelayedList | FreeRTOS/Source/tasks.c:5263-5334 | in place: suspended, delayed or overflow list, and the next unblock time |
| KernelMachine.Machine.BlockCurrent | FreeRTOS/Source/tasks.c:3086-3127 | in place: blocking on time, an event list or a notification; the scheduler invariant is kept |
| KernelMachine.Machine.RemoveFromEventList | FreeRTOS/Source/tasks.c:3165-3205 | in place, and its result says whether the task outranks the running one; the scheduler invariant is kept |
| KernelMachine.Machine.RemoveFromUnorderedEventList | FreeRTOS/Source/tasks.c:3233-3278 | the task becomes ready, and a yield is pended exactly when it outranks the running one; the scheduler invariant is kept |
| KernelMachine.Machine.GenericNotify | FreeRTOS/Source/tasks.c:4842-4958 | in place: only a waiting task is made ready; the scheduler invariant is kept |
| KernelMachine.Machine.GenericNotifyFromISR | FreeRTOS/Source/tasks.c:4965-5097 | in place: held in the pending list while the scheduler is suspended; the scheduler invariant is kept |
| KernelMachine.Machine.AbortDelayOf | FreeRTOS/Source/tasks.c:2647-2720 | in place: only a blocked task is made ready; the scheduler invariant is kept |
| KernelMachine.Machine.Suspend | FreeRTOS/Source/tasks.c:1706-1790 | the task leaves every list for the suspended one, its wait for a notification ends, and suspending the running task asks for a switch; the scheduler invariant is kept |
| KernelMachine.Machine.Resume | FreeRTOS/Source/tasks.c:1858-1904 | in place: only a suspended task is made ready; the scheduler invariant is kept |
| KernelMachine.Machine.ResumeFromISR | FreeRTOS/Source/tasks.c:1912-1982 | a suspended task becomes ready, or is held in the pending list while the scheduler is suspended; the scheduler invariant is kept |
| KernelMachine.Machine.CreateTask | FreeRTOS/Source/tasks.c:1068-1148 | the new task is ready and counted, and a switch is requested exactly when it outranks the running one; the scheduler invariant is kept |
| KernelMachine.Machine.DeleteTask | FreeRTOS/Source/tasks.c:1154-1242 | the running task goes to the termination list; any other is forgotten and the next unblock time recomputed; the scheduler invariant is kept |
| KernelMachine.Machine.SetPriority | FreeRTOS/Source/tasks.c:1540-1699 | for a task not using an inherited priority: the new priority, the relisting of a ready task, and whether a switch is requested; the scheduler invariant is kept |
| QueueStorage.SentToBack | FreeRTOS/Source/queue.c:2154-2167 | writing at the write position appends, for every item size |
| QueueStorage.SentToFront | FreeRTOS/Source/queue.c:2168-2181 | writing at the read position and moving it back prepends |
| QueueStorage.Received | FreeRTOS/Source/queue.c:2209-2226 | moving the read position on yields the oldest item and leaves the rest |
| QueueStorage.OverwriteAgreesIff | FreeRTOS/Source/queue.c:2168-2202 | overwriting keeps write = read + 1 + count exactly when nothing was overwritten or the length is one |
| QueueStorage.Queue.constructor | FreeRTOS/Source/queue.c:444-461 | a new queue is empty with consistent indices |
| QueueStorage.Queue.Reset | FreeRTOS/Source/queue.c:270-276 | a reset empties the queue and restores the indices |
| QueueStorage.Queue.CopyDataToQueue | FreeRTOS/Source/queue.c:2126-2206 | back appends, front prepends, overwrite replaces the one item; the fields stay consistent unless an overwrite finds a full queue of item size zero, when the count goes one past the length |
| QueueStorage.Queue.CopyDataFromQueue | FreeRTOS/Source/queue.c:2209-2226 | the oldest item is returned |
| QueueStorage.Queue.Send | FreeRTOS/Source/queue.c:794-860 | a send succeeds exactly when there is room or it overwrites, and changes the contents accordingly, with the same exception for item size zero |
| QueueStorage.Queue.Receive | FreeRTOS/Source/queue.c:1344-1358 | a receive pops the oldest item exactly when there is one |
| QueueStorage.Queue.Peek | FreeRTOS/Source/queue.c:1714-1728 | a peek returns the oldest item and changes nothing |
| QueueProtocol.WakeReceiversKeeps | FreeRTOS/Source/queue.c:2237-2285 | the unlock loop wakes as many waiting receivers as items were posted, or all of them |
| QueueProtocol.TakingServes | FreeRTOS/Source/queue.c:1344-1400 | a receiver's critical section keeps both bounds |
| QueueProtocol.PeekingServes | FreeRTOS/Source/queue.c:1710-1765 | a peek hands its place in the bound to the next waiting receiver |
| QueueProtocol.PuttingServes | FreeRTOS/Source/queue.c:794-905 | a sender's critical section keeps both bounds |
| QueueProtocol.PutFromISRServes | FreeRTOS/Source/queue.c:1018-1130 | an interrupt's send either wakes a receiver or counts in cTxLock |
| QueueProtocol.TakeFromISRServes | FreeRTOS/Source/queue.c:1860-1910 | an interrupt's receive either wakes a sender or counts in cRxLock |
| QueueProtocol.UnlockTxServes | FreeRTOS/Source/queue.c:2237-2285 | unlocking for receivers turns the lock count into wake-ups |
| QueueProtocol.UnlockRxServes | FreeRTOS/Source/queue.c:2289-2315 | unlocking for senders turns the lock count into wake-ups |
| QueueProtocol.PlaceServes | FreeRTOS/Source/queue.c:935-952 | blocking after seeing the queue full or empty under the lock keeps the bounds, whatever interrupts came between |
| QueueProtocol.StepServes | FreeRTOS/Source/queue.c:790-980 | every step keeps the item bound, and every step but a reset the bound on free places |
| QueueProtocol.StepKeeps | FreeRTOS/Source/queue.c:790-980 | every step of every interleaving keeps the invariant |
| QueueProtocol.NoLostReceiver | FreeRTOS/Source/queue.c:1318-1458 | in every reachable state with a waiting receiver, the items do not exceed the woken receivers still to run plus max(cTxLock, 0) |
| QueueProtocol.NoLostSender | FreeRTOS/Source/queue.c:771-980 | the mirror bound on free places, in runs without a reset |
| QueueProtocol.WaitsOnlyWhenEmpty | FreeRTOS/Source/queue.c:1318-1458 | with nothing locked and all woken receivers having run, a receiver waits only on an empty queue |
| QueueProtocol.ResetKeepsSendersIff | FreeRTOS/Source/queue.c:278-300 | a reset keeps the sender bound exactly when at most one sender waits or the length is at most the woken senders plus one |
| QueueRuns.ResetLosesSender | FreeRTOS/Source/queue.c:278-300 | a run of a new queue of two places, filled by interrupts, with two senders blocking and a reset, ends with one sender waiting though every place is free |
| QueueRuns.TopDecides | FreeRTOS/Source/queue.c:1344-1400 | a call returns from the top of its loop exactly when it finds an item, or room, or may not wait; else it goes on to lock the queue |
| QueueRuns.TopCounts | FreeRTOS/Source/queue.c:794-905 | what the section does to the count: a receive takes one, a send adds one unless it overwrites, a peek leaves it |
| QueueRuns.TopWakes | FreeRTOS/Source/queue.c:1344-1382 | it wakes the first task of the other side and no other, and a call that finds nothing wakes none |
| QueueRuns.IsrDecides | FreeRTOS/Source/queue.c:1018-1130 | an interrupt wakes the first task of the other side, or counts itself in the lock if the queue is locked |
| QueueRuns.ResetDecides | FreeRTOS/Source/queue.c:278-300 | a reset empties and unlocks the queue and wakes the first sender |
| QueueRuns.UnlockWakesReceivers | FreeRTOS/Source/queue.c:2237-2285 | the unlock loop wakes the first n receivers, or all of them, and changes nothing else |
| QueueRuns.UnlockWakesSenders | FreeRTOS/Source/queue.c:2289-2315 | and the other the first n senders |
| QueueRuns.ItemsAreConserved | FreeRTOS/Source/queue.c:771-980 | over every run without a reset the count is what it was, plus the items sent, less those received |
| QueueRuns.CallBlocks | FreeRTOS/Source/queue.c:1382-1420 | a receive or peek of an empty queue, or a send to a full one, that may wait ends up in the event list of its kind, the queue unlocked and otherwise as before |
| QueueRuns.CallTimesOut | FreeRTOS/Source/queue.c:1382-1458 | a call that blocks and times out with nothing else happening leaves everything as it was |
| QueueRuns.CallGivesUp | FreeRTOS/Source/queue.c:1425-1458 | so does one whose time has run out before it blocks |
| QueueRuns.CallGoesOn | FreeRTOS/Source/queue.c:1412-1424 | a call in time that finds under the lock that it can go on after all, whatever interrupts came between, does so |
| QueueRuns.LateItemIsTaken | FreeRTOS/Source/queue.c:1425-1450 | a receive whose time has run out takes an item that has come by then, and fails exactly if there is none |
| QueueRuns.SendReachesFirst | FreeRTOS/Source/queue.c:830-860 | a send to an empty queue reaches the first waiting receiver, which returns with the item while the others go on waiting |
| QueueRuns.LockIsReleased | FreeRTOS/Source/queue.c:2230-2315 | from every reachable state the task that has the queue locked can unlock it and resume the scheduler |
| QueueControl.ControlBlock.TrySend | FreeRTOS/Source/queue.c:794-905 | in place: the critical section of a send; both bounds are kept |
| QueueControl.ControlBlock.TryReceive | FreeRTOS/Source/queue.c:1344-1382 | in place: the critical section of a receive or take; both bounds are kept |
| QueueControl.ControlBlock.TryPeek | FreeRTOS/Source/queue.c:1710-1745 | in place: the critical section of a peek; both bounds are kept |
| QueueControl.ControlBlock.SendFromISR | FreeRTOS/Source/queue.c:1018-1130 | in place: a send from an interrupt; both bounds are kept |
| QueueControl.ControlBlock.ReceiveFromISR | FreeRTOS/Source/queue.c:1860-1910 | in place: a receive from an interrupt; both bounds are kept |
| QueueControl.ControlBlock.Lock | FreeRTOS/Source/queue.c:248-262 | in place: prvLockQueue; both bounds are kept |
| QueueControl.ControlBlock.UnlockTransmit | FreeRTOS/Source/queue.c:2237-2285 | the first unlock loop; both bounds are kept |
| QueueControl.ControlBlock.UnlockReceive | FreeRTOS/Source/queue.c:2289-2315 | the second unlock loop; both bounds are kept |
| QueueControl.ControlBlock.ResetQueue | FreeRTOS/Source/queue.c:264-309 | in place: the reset of a queue in use; the item bound is kept |
| QueueControl.ControlBlock.Unlock | FreeRTOS/Source/queue.c:2230-2315 | both unlock loops in turn; both bounds are kept |
| Mutex.WaitPosition | FreeRTOS/Source/tasks.c:3086-3101 | a waiter is placed after all waiters of at least its priority and before the lower ones |
| Mutex.StepAccounts | FreeRTOS/Source/queue.c:1499-1520 | every step the source allows keeps the accounting: held counts, counts and holders, base priorities, with mutexes nested or not and whichever task runs |
| Mutex.Run | FreeRTOS/Source/tasks.c:1577-1642 | in every run, with mutexes nested, tasks scheduled and priorities set in any way, uxMutexesHeld is the number of mutexes naming the task, a mutex has count one exactly without a holder, and a task holding none has its base priority |
| Mutex.BlockBounded | FreeRTOS/Source/tasks.c:4056-4139 | inheritance raises the holder to the new waiter's priority if that is higher and no further, and reports it if the waiter is above the holder's priority or base; every bound is kept and no other task changes |
| Mutex.LeaveBounded | FreeRTOS/Source/tasks.c:4226-4325 | disinheritance after a timeout keeps the holder at least as high as the remaining waiters, other mutexes held or not |
| Mutex.LeaveExact | FreeRTOS/Source/tasks.c:4226-4325 | after a timeout a holder of this mutex alone, if the waiter had made it inherit, gets exactly the highest of its base and the remaining waiters' priorities; otherwise no priority changes |
| Mutex.GiveBounded | FreeRTOS/Source/tasks.c:4146-4219 | giving a mutex back wakes its first waiter, which still knows whether it made the holder inherit, lowers the giver to its base priority exactly when it holds nothing else, and keeps every bound |
| Mutex.TakeBounded | FreeRTOS/Source/queue.c:1499-1520 | whoever takes a free mutex is at least as high as its waiters |
| Mutex.TimeoutBounded | FreeRTOS/Source/queue.c:1630-1670 | a waiter timing out keeps the bound |
| Mutex.SetPriorityKeepsBoundIff | FreeRTOS/Source/tasks.c:1614-1642 | setting the priority of a task in no event list keeps the bounds exactly when the task is inheriting, nothing changes, or the new priority covers the waiters of the mutexes it holds and of a free one it has been woken for, the latter unless another woken task covers them; a task leaving a take is always safe |
| Mutex.SetPriorityInverts | FreeRTOS/Source/tasks.c:1614-1642 | a holder of priority 5 with a waiter of 3, set to 1, ends up below its waiter |
| Mutex.SetPriorityOnWokenInverts | FreeRTOS/Source/tasks.c:1614-1642 | a task of priority 5 woken for a mutex on which one of 3 waits, set to 1 before it runs, takes the mutex and is below its waiter |
| Mutex.StepKeeps | FreeRTOS/Source/tasks.c:4056-4325 | every disciplined step keeps the whole invariant |
| Mutex.RunKeeps | FreeRTOS/Source/tasks.c:4056-4325 | and so does every run of disciplined steps |
| Mutex.InversionIsBounded | FreeRTOS/Source/tasks.c:4056-4325 | in every such run a holder's priority is at least that of every task waiting for its mutex |
| MutexPriorities.StepHands | FreeRTOS/Source/tasks.c:4056-4325 | after every step the source allows a task's priority is its old one, its old base, or one handed to it by a priority set, a blocking task or a remaining waiter |
| MutexPriorities.PrioritiesAreHanded | FreeRTOS/Source/tasks.c:4056-4325 | so over every run no task has a priority that nobody handed to it |
| MutexPriorities.RaisedByBlockingOnly | FreeRTOS/Source/tasks.c:4056-4139 | in every disciplined run a task's priority is at most the highest of its bases and of the priorities tasks had when they blocked on a mutex it held |
| MutexPriorities.SettingAWaiterRaisesTheHolder | FreeRTOS/Source/tasks.c:4226-4325 | without discipline it is not: a waiter set to 9 after blocking at 3 raises the holder to 9 when another waiter gives up |
| MutexPriorities.FailedTakeLeaves | FreeRTOS/Source/queue.c:1591-1663 | a take that blocks and times out with nothing else happening leaves everything as before, but for a holder of further mutexes, which keeps what it inherited |
| MutexPriorities.PrioritySetTakesEffect | FreeRTOS/Source/tasks.c:1614-1642 | a priority set takes effect at once, or when a task using an inherited one gives back its last mutex |
| MutexPriorities.TakeGiveRestores | FreeRTOS/Source/queue.c:1499-1520 | taking a free mutex and giving it back changes nothing |
| MutexPriorities.TakenAgainGivenInPart | FreeRTOS/Source/queue.c:620-720 | a recursive mutex taken again cannot be given back at once; one give undoes one take |
| MutexMachine.Machine.PriorityInherit | FreeRTOS/Source/tasks.c:4056-4139 | in place, and whether inheritance occurred |
| MutexMachine.Machine.PriorityDisinherit | FreeRTOS/Source/tasks.c:4146-4219 | in place, and whether the priority was lowered or raised to its base |
| MutexMachine.Machine.PriorityDisinheritAfterTimeout | FreeRTOS/Source/tasks.c:4226-4325 | a holder of this mutex alone takes the higher of its base and the highest waiting priority; a holder of more keeps its own |
| MutexMachine.Machine.PrioritySet | FreeRTOS/Source/tasks.c:1614-1642 | in place: used and base priority |
| MutexMachine.Machine.Take | FreeRTOS/Source/queue.c:1499-1520 | in place: the critical section that obtains a mutex, recursive or not; accounting and, for a disciplined step, bounds are kept |
| MutexMachine.Machine.Block | FreeRTOS/Source/queue.c:1591-1613 | in place: inherit, then join the event list, also for a mutex the task holds itself; accounting and bounds are kept likewise |
| MutexMachine.Machine.Give | FreeRTOS/Source/queue.c:2137-2153 | in place: give a mutex back and wake the first waiter; accounting and bounds are kept likewise |
| MutexMachine.Machine.LeaveAfterTimeout | FreeRTOS/Source/queue.c:1642-1663 | in place: the disinheritance of a take that timed out; accounting and bounds are kept likewise |
| TickTime.ElapsedIs | FreeRTOS/Source/timers.c:715-719 | the unsigned difference of two tick counts is the elapsed time modulo the tick range |
| Timers.ProcessNowIff | FreeRTOS/Source/timers.c:699-740 | for every command time and every present, a timer is reported due exactly when its period is at most the elapsed time's residue |
| Timers.ProcessNowCorrectIff | FreeRTOS/Source/timers.c:699-740 | the report is right exactly when less than one wrap has passed or the residue reaches the period |
| Timers.MisplacedAfterAWrap | FreeRTOS/Source/timers.c:699-740 | handled exactly one wrap late, a timer that is due is filed as if just started |
| Timers.PlacementIsExact | FreeRTOS/Source/timers.c:699-740 | within one wrap: due exactly when C + P <= N, else the current or overflow list by the true epoch of C + P |
| Timers.ReloadInEpoch | FreeRTOS/Source/timers.c:921-935 | a reload stays in the list's epoch exactly when the wrapped sum has not wrapped |
| Timers.TurnBeforeWrap | FreeRTOS/Source/timers.c:903-943 | one turn of the switch loop fires the earliest listed timer for the time it is due |
| Timers.TurnDistance | FreeRTOS/Source/timers.c:903-943 | every turn brings the listed expiry times closer to the wrap in total, so the loop ends |
| Timers.ExpiriesMeaning | FreeRTOS/Source/timers.c:903-943 | the expiries owed are exactly those before the wrap, period by period; one for a one-shot timer |
| Timers.SwitchIsExact | FreeRTOS/Source/timers.c:893-950 | switching fires exactly the owed expiries of every listed timer in non-decreasing order, and leaves one restart command per auto-reload timer carrying its last expiry |
| TimerDaemon.SampleKeeps | FreeRTOS/Source/timers.c:676-696 | sampling within one wrap leaves the lists right for the epoch of the new sample |
| TimerDaemon.FileKeeps | FreeRTOS/Source/timers.c:699-740 | filing a timer whose command is handled in time is exact |
| TimerDaemon.StartHandled | FreeRTOS/Source/timers.c:800-829 | handling a start command keeps lists, queue, times and schedule consistent, callback and re-posted command included |
| TimerDaemon.ExpiredHandled | FreeRTOS/Source/timers.c:508-548 | handling an expired timer keeps them consistent |
| TimerRuns.StepKeeps | FreeRTOS/Source/timers.c:587-890 | every step of the daemon, however late, keeps the invariant: a started auto-reload timer is always listed or queued, a one-shot until its one callback, and every callback is on schedule |
| TimerRuns.Run | FreeRTOS/Source/timers.c:587-890 | and so does every run in which the time is sampled within a wrap and each command handled in time |
| TimerRuns.CallbacksAreExact | FreeRTOS/Source/timers.c:508-548 | in every run the k-th callback since a start at C is for C + k * P and not before it, there are never more callbacks than expiries, and whenever the daemon has nothing to do there is exactly one for each expiry up to the sampled time, for a one-shot at most one |
| TimerRuns.EveryExpiryOnce | FreeRTOS/Source/timers.c:587-646 | with the queue empty and the head of the current list not due, a started auto-reload timer has had floor((sampled - C) / P) callbacks, a one-shot one exactly if C + P has come |
| TimerRuns.NeverTooMany | FreeRTOS/Source/timers.c:508-548 | at any moment there are at most floor((now - C) / P) callbacks, and at most one of a one-shot |
| TimerRuns.NothingOutstanding | FreeRTOS/Source/timers.c:587-646 | once the queue is empty and the head of the current list is not due, no started timer with an expiry to come is due by the sampled time |
| TimerProgress.CatchesUp | FreeRTOS/Source/timers.c:587-890 | from every reachable state with the time just sampled and the queued commands less than a wrap old, the daemon's own steps lead to one in which it has nothing to do |
| TimerRuns.FiledRightlyIff | FreeRTOS/Source/timers.c:699-740 | a start command is decided rightly exactly when it is handled within one wrap or the elapsed residue reaches the period |
| TimerMachine.Service.SwitchTimerLists | FreeRTOS/Source/timers.c:893-950 | the loop terminates and leaves the specified lists, commands and callbacks |
| TimerMachine.Service.ExpireOne | FreeRTOS/Source/timers.c:903-943 | in place: one turn of that loop |
| TimerMachine.Service.SampleTimeNow | FreeRTOS/Source/timers.c:676-696 | in place, and whether the lists were switched |
| TimerMachine.Service.InsertTimerInActiveList | FreeRTOS/Source/timers.c:699-740 | in place: the placement branches |
| TimerMachine.Service.ProcessExpiredTimer | FreeRTOS/Source/timers.c:508-548 | the head timer leaves its list, fires for its expiry time, and is filed or restarted by a command if it reloads |
| TimerMachine.Service.StartCommand | FreeRTOS/Source/timers.c:800-829 | the timer is filed, or fires at once and is restarted by a command carrying that expiry if it reloads |
| StreamProtocol.Distances | FreeRTOS/Source/stream_buffer.c:483-497 | the two wrapped indices determine the bytes waiting and the space left |
| StreamProtocol.DecodeEncode | FreeRTOS/Source/stream_buffer.c:725-731 | the length stored before a message is the length read back |
| StreamProtocol.CopyInKeeps | FreeRTOS/Source/stream_buffer.c:1131-1157 | a byte copied in never lands on an unread byte |
| StreamProtocol.PublishHeadKeeps | FreeRTOS/Source/stream_buffer.c:1163-1175 | publishing the head keeps every unread byte in place |
| StreamProtocol.CopyOutKeeps | FreeRTOS/Source/stream_buffer.c:1198-1228 | a byte copied out is the next byte of the stream |
| StreamProtocol.StepKeeps | FreeRTOS/Source/stream_buffer.c:700-749 | every step of every interleaving keeps the invariant |
| StreamProtocol.ReceivedIsPrefix | FreeRTOS/Source/stream_buffer.c:700-853 | in every interleaving the bytes received are a prefix of the bytes sent, and every unread byte is still in the buffer |
| StreamProtocol.NextMessageIsWhole | FreeRTOS/Source/stream_buffer.c:836-853 | with more than a length waiting, the whole next message is there |
| StreamProtocol.HeaderFramed | FreeRTOS/Source/stream_buffer.c:958-995 | the length read is the next message's |
| StreamProtocol.BodyFramed | FreeRTOS/Source/stream_buffer.c:995-1007 | what is read after it is that message |
| StreamProtocol.WholeMessagesInOrder | FreeRTOS/Source/stream_buffer.c:700-1007 | only whole messages are delivered, in the order sent, though length and data are published separately |
| StreamProtocol.QuiescentContents | FreeRTOS/Source/stream_buffer.c:700-1007 | between calls the buffer holds exactly the messages not yet delivered |
| StreamCalls.SendAppends | FreeRTOS/Source/stream_buffer.c:700-749 | however the receiver interleaves, a send that has come to its end has added exactly the bytes it accepted: as much of a stream as there was space for, all of a message after its length |
| StreamCalls.ReceiveTakesOldest | FreeRTOS/Source/stream_buffer.c:836-853 | however the sender interleaves, a stream receive that has come to its end has taken the oldest bytes, as many as were there or as fit its destination |
| StreamCalls.ReceiveDeliversNext | FreeRTOS/Source/stream_buffer.c:958-1007 | and a message receive has delivered exactly the next message |
| StreamCalls.SenderFinishes | FreeRTOS/Source/stream_buffer.c:1131-1177 | the sender's own steps bring its call to an end |
| StreamCalls.ReceiverFinishes | FreeRTOS/Source/stream_buffer.c:1180-1235 | and the receiver's its call |
| StreamBuffer.Buffer.BytesInBuffer | FreeRTOS/Source/stream_buffer.c:1238-1256 | the number of bytes waiting |
| StreamBuffer.Buffer.SpacesAvailable | FreeRTOS/Source/stream_buffer.c:483-505 | the space left, one byte always being kept free |
| StreamBuffer.Buffer.WriteBytes | FreeRTOS/Source/stream_buffer.c:1131-1177 | in one or two parts, appends the bytes |
| StreamBuffer.Buffer.ReadBytes | FreeRTOS/Source/stream_buffer.c:1180-1235 | in one or two parts, removes and returns the oldest bytes |
| StreamBuffer.Buffer.WriteMessage | FreeRTOS/Source/stream_buffer.c:700-749 | as much of a stream as fits; all of a message with its length, or nothing |
| StreamBuffer.Buffer.ReadMessage | FreeRTOS/Source/stream_buffer.c:958-1007 | the next message, or nothing and no change if it does not fit the destination |
| StreamBuffer.RoundTrip | FreeRTOS/Source/stream_buffer.c:700-1007 | a message written to an empty message buffer is the message read from it |
| EventGroups.SetBitsIsExact | FreeRTOS/Source/event_groups.c:531-623 | exactly the waiters that lack no bit they need in old and new bits are woken, all with that value, and exactly the bits of those that clear on exit are cleared; no waiter is lost |
| EventGroups.StaysBitByBit | FreeRTOS/Source/event_groups.c:563-590 | bit by bit: a waiter for any bit stays exactly if none of its bits is set, a waiter for all exactly if one is missing |
| EventGroups.ConditionBitByBit | FreeRTOS/Source/event_groups.c:686-720 | the wait condition is that some bit is set, or that all are |
| EventGroups.InOrder | FreeRTOS/Source/event_groups.c:556-612 | the list is walked in order: what stays and what is woken keep the order of the waiters |
| EventGroups.WaitBitByBit | FreeRTOS/Source/event_groups.c:315-404 | a wait blocks exactly if it may and none of its bits is set, or one is missing if it waits for all; else it returns the bits from before |
| EventGroups.BitsLeft | FreeRTOS/Source/event_groups.c:340-450 | a bit is left unless the condition holds and the call clears it, at the call or after a timeout |
| EventGroups.SyncBitByBit | FreeRTOS/Source/event_groups.c:192-252 | a rendezvous sets its bits, then returns and clears if none is missing, else waits for all of them |
| EventGroups.TimesOutRemoves | FreeRTOS/Source/event_groups.c:405-440 | a timeout takes that one waiter out of the list and changes no bit |
| EventGroups.ConditionsAreMonotone | FreeRTOS/Source/event_groups.c:686-720 | clearing bits cannot make a waiting condition true |
| EventGroups.PerformUnsatisfied | FreeRTOS/Source/event_groups.c:192-623 | every call keeps every waiter's condition false |
| EventGroups.NeverWaitsOnSatisfied | FreeRTOS/Source/event_groups.c:192-623 | in every reachable state no bit is set that a waiter for any bit waits for, and every waiter for all lacks one |
| EventGroups.EventGroup.SetEventBits | FreeRTOS/Source/event_groups.c:531-623 | the traversal with removal terminates and does what SetBitsIsExact says |
| EventGroups.EventGroup.ClearEventBits | FreeRTOS/Source/event_groups.c:471-496 | in place, returning the bits from before |
| EventGroups.EventGroup.WaitEventBits | FreeRTOS/Source/event_groups.c:315-404 | in place, up to where the call blocks |
| EventGroups.EventGroup.SyncEventBits | FreeRTOS/Source/event_groups.c:192-252 | in place, up to where the call blocks |
| Rendezvous.FullIffLast | FreeRTOS/Source/event_groups.c:210-225 | all bits are set exactly when the last missing task has called |
| Rendezvous.LastArrival | FreeRTOS/Source/event_groups.c:210-225 | the last call releases everyone with all the bits and leaves them clear |
| Rendezvous.EarlyArrival | FreeRTOS/Source/event_groups.c:227-237 | an earlier call waits and clears nothing |
| Rendezvous.StepKeeps | FreeRTOS/Source/event_groups.c:192-312 | every step, other users' included, keeps the invariant |
| Rendezvous.NobodyReturnsEarly | FreeRTOS/Source/event_groups.c:192-312 | no call of a round returns before every task has made its call of that round, over any number of rounds |
| Rendezvous.ReturnsEverything | FreeRTOS/Source/event_groups.c:192-312 | every return contains all the rendezvous bits |
| Rendezvous.ClearBetweenRounds | FreeRTOS/Source/event_groups.c:216-220 | the bits are clear whenever no call of the next round has been made |
| Rendezvous.NobodyIsForgotten | FreeRTOS/Source/event_groups.c:192-312 | a caller neither waiting to return nor returned has a task missing that it waits for |
| ThreadLifecycle.StepKeeps | FreeRTOS/cpp11_gcc/thread_gthread.h:144-268 | every step of routine, moves, join and detach keeps the invariant |
| ThreadLifecycle.OneOwnerUntilRelease | FreeRTOS/cpp11_gcc/thread_gthread.h:318-368 | exactly one handle is the owner until the event group is deleted, and none afterwards; the routine's copy names the same task and event group and never owns them |
| ThreadLifecycle.DeletedExactlyOnce | FreeRTOS/cpp11_gcc/thread_gthread.h:215-235 | the event group is deleted at most once, exactly once by the end of a join or detach, and never used or set afterwards |
| ThreadLifecycle.JoinWaitsForTheFunction | FreeRTOS/cpp11_gcc/thread_gthread.h:193-213 | a join returns only after the user's function has returned |
| ThreadLifecycle.BitsAreSet | FreeRTOS/cpp11_gcc/thread_gthread.h:237-262 | the start bit is set from the routine's first notification on, and the join bit from its second on unless a detach took the event group away first |
| ThreadLifecycle.JoinCanReturn | FreeRTOS/cpp11_gcc/thread_gthread.h:193-213 | from every reachable state with a join under way some continuation ends it, with task and event group deleted |
| ThreadLifecycle.DetachCanReturn | FreeRTOS/cpp11_gcc/thread_gthread.h:215-235 | and a detach likewise |
| ThreadLifecycle.MoveCanReturn | FreeRTOS/cpp11_gcc/thread_gthread.h:336-361 | and a move, after which the other handle can be joined and the first is empty |
| ThreadLifecycle.DetachIsSafeIff | FreeRTOS/cpp11_gcc/thread_gthread.h:215-242 | in every reachable state where detach can be called, some continuation of the call has notify_started's last read after the deletion exactly when notify_started has not yet returned at the call |
| ThreadLifecycle.LateReadIsOvertaken | FreeRTOS/cpp11_gcc/thread_gthread.h:237-242 | that read comes after the deletion only if a detach deleted the event group during that call; no join or move does |
| ThreadLifecycle.DetachCanComeBetween | FreeRTOS/cpp11_gcc/thread.cpp:41-58 | a run of routine and detach in which it does |
| ThreadMachine.Machine.constructor | FreeRTOS/cpp11_gcc/thread_gthread.h:170-191 | what create_thread sets up, with the invariant |
| ThreadMachine.Machine.CopyToLocal | FreeRTOS/cpp11_gcc/thread.cpp:41-44 | in place: the routine's own copy, which is never an owner; the invariant is kept |
| ThreadMachine.Machine.SetStarted | FreeRTOS/cpp11_gcc/thread_gthread.h:237-242 | in place: notify_started up to its last read; the invariant is kept |
| ThreadMachine.Machine.SetJoined | FreeRTOS/cpp11_gcc/thread_gthread.h:244-262 | in place: the critical section of notify_joined; the invariant is kept |
| ThreadMachine.Machine.MoveHandle | FreeRTOS/cpp11_gcc/thread_gthread.h:336-361 | in place: ownership goes along with the handles; the invariant is kept |
| ThreadMachine.Machine.DetachFromTask | FreeRTOS/cpp11_gcc/thread_gthread.h:215-235 | in place: the critical section of detach; the invariant is kept |
| ThreadMachine.Machine.AssignEmpty | FreeRTOS/cpp11_gcc/thread_gthread.h:318-348 | in place: the end of join and detach; the invariant is kept |
| Deadlines.CheckCorrectIff | FreeRTOS/Source/tasks.c:3302-3360 | a check reports expiry exactly when the wait has elapsed, unless two wraps went by and the tick count is back below its old value with a residue under the wait |
| Deadlines.CheckMissesTwoWraps | FreeRTOS/Source/tasks.c:3302-3360 | a wait of two ticks begun on the last tick before a wrap and checked just after the second wrap is reported as running |
| Deadlines.CheckIsExact | FreeRTOS/Source/tasks.c:3302-3360 | with fewer than two wraps since the last one, a check is exact and keeps the deadline |
| Deadlines.TotalWaitIsExact | FreeRTOS/Source/tasks.c:3302-3360 | over any series of such checks the total wait is what was asked for |
| Deadlines.ForeverAndAborted | FreeRTOS/Source/tasks.c:3316-3335 | the maximum delay never expires and an aborted delay always does |
| Deadlines.ShouldDelayMeans | FreeRTOS/Source/tasks.c:1249-1300 | the decision to delay depends on the residue of the time since the previous wake time alone |
| Deadlines.ShouldDelayCorrectIff | FreeRTOS/Source/tasks.c:1249-1300 | it is right exactly when the call is less than a wrap late or late by a residue of at least the increment |
| Deadlines.DelaysAfterAWrap | FreeRTOS/Source/tasks.c:1249-1300 | called exactly one wrap late, it still delays |
| Deadlines.DelayEndsAtTarget | FreeRTOS/Source/tasks.c:1305-1314 | the block time asked for ends at the target |
| Deadlines.EarlyCall | FreeRTOS/Source/tasks.c:1249-1300 | a call before the previous wake time delays only if it is almost a wrap early |
| Deadlines.NoDrift | FreeRTOS/Source/tasks.c:1302-1303 | the k-th target is start + k * increment however late the calls were |
| Deadlines.CallMeetsTarget | FreeRTOS/Source/tasks.c:1249-1329 | a call less than a wrap late blocks until start + (k + 1) * increment, or not at all if that has come |
| Deadlines.LoopMeetsTargets | FreeRTOS/Source/tasks.c:1249-1329 | over a whole loop, each call made when the one before has returned, call k blocks exactly when its target is still to come, and then until it |
| Deadlines.Clock.SetTimeOut | FreeRTOS/Source/tasks.c:3282-3299 | the record holds the present tick count and overflow count |
| Deadlines.Clock.CheckForTimeOut | FreeRTOS/Source/tasks.c:3302-3360 | in place: the branches of the check |
| Deadlines.Clock.DelayUntil | FreeRTOS/Source/tasks.c:1249-1329 | in place: the decision, the new previous wake time and the block time |

## Left out

- Port layer, context save and restore, interrupt masking, stacks, the heap allocator, MPU wrappers, trace, run-time statistics: a yield is a flag that asks for a switch.
- Co-routines, tickless idle, queue sets, `vQueueWaitForMessageRestricted`, the queue registry: optional paths that add cases and no new protocol.
- `xSchedulerRunning == pdFALSE`: the scheduler model starts from the state in which only the idle task exists and runs.
- Notification values, indices and actions: only the waiting state matters to scheduling.
- KernelRuns.NoMissedPreemption: mutex steps are not among the calls; priorities used there change in the Mutex model, without ready lists.
- KernelMachine.Machine.SetPriority: the two priorities of a task that uses an inherited one are in the Mutex model.
- KernelMachine.Machine.AddCurrentToDelayedList: lists are sequences with a cursor here; their pointers are the subject of KernelList, whose methods are specified by the same sequence functions.
- Mutex.InversionIsBounded: runs are disciplined, which for priority sets is the condition SetPriorityKeepsBoundIff proves exact. A task in an event list keeps its place when its priority is set in the source, so the list would no longer be in priority order; such sets are in the accounting but not in the bound. Inheritance is not passed on along a chain of mutexes, and the ready lists are outside.
- Mutex.Run: a suspension of a task inside a take, and the deletion of tasks, are outside.
- MutexPriorities.RaisedByBlockingOnly: runs are disciplined; PrioritiesAreHanded is the statement for all runs.
- KernelRotation.RunsWithinRank: the calls that take the task out of its list are excluded, among them a notification of a task that has timed out but not yet run, and a resumption while the task is pending.
- TimerProgress.CatchesUp: the time has just been sampled and queued commands are less than a wrap old; otherwise a command may be decided wrongly, as FiledRightlyIff says.
- StreamCalls.ReceiveDeliversNext: only message calls are made on the buffer.
- QueueProtocol.NoLostSender: runs with a reset are excluded, since a reset breaks the bound; ResetKeepsSendersIff says when.
- QueueProtocol.NoLostReceiver: the place a task takes in an event list is arbitrary, which covers priority order; woken tasks are not suspended or deleted; the lock counts stay below 127 as the source asserts.
- RoundRobin.BoundedWaitAhead: the bound for all ready tasks is false; BoundedWaitIff gives the exact condition.
- TimerRuns.CallbacksAreExact: the time is sampled within a wrap of the tick count and commands are handled in time, a condition FiledRightlyIff proves exact; a timer is started only while it is in no list and no command for it is queued, posted commands are accepted, and callbacks do not call the timer API; stop, delete, reset and change-period commands are outside.
- StreamProtocol.WholeMessagesInOrder: messages are non-empty and every destination is large enough; a receive into a smaller one is covered for a buffer used by one task at a time (StreamBuffer.Buffer.ReadMessage).
- StreamProtocol.ReceivedIsPrefix: waiting and waking by notification are outside; a call that cannot proceed takes no step. A message length takes four bytes, as on the ports configured here, and sums of indices do not overflow.
- EventGroups.SetBitsIsExact: bits are a set of numbers, with the control bits of the item value kept apart as two flags.
- ThreadLifecycle.DeletedExactlyOnce: the read that DetachIsSafeIff is about is recorded apart; control blocks are not reused, waits are not aborted, and the ownership of the callable state is outside.
- Deadlines.CheckIsExact: xNumOfOverflows does not itself wrap.
- Scheduler.SuspendTask: the source's two critical sections are one step here, as is Scheduler.Create with the comparison of priorities after its critical section; interrupts between those parts are outside. Mutex.Blocked leaves out the check of the count at the top of the loop, which the source makes again in the region it blocks in.
- The C++ condition variable, mutex and once hooks, `freertos_time.cpp`, `gthr_key.cpp` and the startup code.

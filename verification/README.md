# Trigger Hook: a verified model

Trigger Hook is a scheduler for deferred tasks. A task row is stored in MySQL, in a *collection* of tasks that
have the same exec time. Shortly before that time one application instance claims the collection, a
preloading worker reads it, and the tasks wait in an in-memory heap until they are due. A consumer then takes
each task and confirms it or rolls it back. The row is deleted only after a confirmation or a cancel.

This project models that life of a task in Dafny and proves what the scheduler relies on, over every
interleaving of its goroutines, its SQL statements and its crashes. `dafny verify dfyconfig.toml` checks it.

## How the sources are modelled

- **Tasks.dfy, Time.dfy**: tasks, whole seconds, and Go's 64-bit durations with their overflow.
- **TaskList.dfy, TaskHeap.dfy**: the waiting list, first as a value (a multiset of tasks and an id index), then
  as the class of the source: Go's `container/heap` written out over a slice of items with back-pointers, and
  the map from ids to items. Every method is proved to do to the value what the value's operation does.
- **Waiting.dfy, WaitingRun.dfy**: the goroutine of the waiting service, first as a state machine with one step
  per clock read, list operation and channel operation; then as the loop itself over the heap. The loop
  records a ghost trace and is proved to take exactly the steps of the state machine, so the theorems about
  all runs are theorems about the loop.
- **Batching.dfy, RollbackBuffer.dfy, Sender.dfy, SenderProgress.dfy**: the goroutines of the sender service as state
  machines: the batching pair with its queue and its one-token channel, the rollback buffer, and the pooled handles.
  Calls of `Consume`, `Confirm` and `Rollback` overlap freely, each in the steps in which it touches the handle: the
  test of `isProcessed`, the mark, the read of the task, the send. Any result of `Consume` may be called at any time.
- **EventQueue.dfy, Wakeup.dfy**: the bounded lossy event queue, and the hand-off from any number of goroutines.
- **TaskManager.dfy**: the retry loop, and the metric All.
- **Database.dfy, Repository.dfy, Preloader.dfy**: the two tables and the effect of each SQL statement; the
  repository, the claimed collections and the preloading service as classes, for the case that nothing
  interferes; and how many collections serial creates fill.
- **Protocol.dfy** and the seven files named after it: creating, claiming, preloading, cleaning and crashing with any
  number of calls under way, one step per SQL statement. `create_task` is three steps, because its statements
  commit one by one; `FindBySecToExecTime` is one step, because it is a transaction. A crash ends everything the
  instance had under way, and the next instance has a fresh id.
- **System.dfy, SystemGuarantees.dfy, SystemCancels.dfy**: all components connected by their channels, and the
  end-to-end theorems.

## Main results

- **No stranded task** (`System.NoStrandedTask`): in every run, with any crashes, each stored row is in a collection
  that the live instance has not taken, or it is somewhere in that instance's hands, or a fatal event was raised;
  if creates that are not taken land before a claim reaches their exec time, and consumers call each result of
  `Consume` at most once. For both conditions the converse is proved: every late landing can strand its row
  (`ProtocolSafety.LateLandingStrands`), and after every second call the next task of another consumer can
  end up in nobody's hands (`Sender.SecondCallIsNeverSafe`).
- **Nothing early, nothing late** (`SystemGuarantees.NothingEarly`, `SystemGuarantees.NothingLate`): whatever is past
  the waiting loop is due, in every run, and the loop never sleeps beyond the exec second of a task that it holds.
- **A restart takes everything back** (`ProtocolRestart.RestartTakesBack`): after every crash the first claim of the
  next instance takes over every row that is due by its bound, whoever had taken it before.
- **No component is stuck**: from every reachable state the preloading loop can bring everything that is due to the
  preload channel (`ProtocolProgress.DueCanBePreloaded`), the sender service can bring everything confirmed to its
  deletion (`SenderProgress.ConfirmedCanBeDeleted`) and everything rolled back to a waiting consumer
  (`SenderProgress.RolledBackCanReturn`), an expired batch timer flushes the partial batch
  (`Batching.ExpiryFlushes`), every create can go through (`ProtocolProgress.CreateCanGoThrough`), and every event can
  be handled (`Wakeup.EventCanBeHandled`).
- **Effective cancels** (`SystemCancels.CancelsAreKept`, `SystemCancels.EveryCancelTakesEffect`): every cancel whose row
  was deleted reaches the loop, once, finds its task there, and what it took is not sent any more.
- **Durability** (`SystemGuarantees.RowsLeaveByDecision`): a row leaves the table only by a cancel or a confirmation.
- **The heap** implements the waiting list, and with it the loop keeps conservation, order over whole runs,
  and bounded inattention.
- **Bounded duplication**, **cleanup that never collides**, **packing** within an exact bound and into
  ceil(n/m) collections, **no lost wakeup** for one and for many producers, **in-order batches**, **one fate per
  consumed task**, **a lossy queue that is never silently lossy**, **events handled in order**, **a metric that
  counts the rows**.

## Where the code falls short of a natural claim

For each of these runs are constructed, for all inputs where that is possible, beside the condition under which
the claim holds.

- A create that is not taken must land before a claim reaches its exec time; any later landing can strand its row
  (`ProtocolSafety.LateLandingStrands`, for all of them). The options leave a slack for that, whatever the exec
  time (`ProtocolSafety.SlackIsTimely`). It counts from the *beginning of the second* in which the create starts,
  because the distance is computed in whole seconds. `ProtocolSafety.SlackIsExact` says that this limit is exact;
  `ProtocolSafety.SubSecondStranding` is a run of the default options in which a row lands 4.8 seconds after its
  create has started, inside the five seconds one would expect, and is stranded. With a coefficient of one
  there is no limit at all (`ProtocolSafety.CoefficientOneLeavesNoSlack`).
- A create for an exec time more than 9223372036 seconds past is computed to be far ahead, is not taken, and is
  clamped to the present, so that the next claim reaches its collection at once. Its row can land at the very
  instant of its start and be stranded (`ProtocolSafety.AncientStranding`, for all such creates). Up to that
  distance the arithmetic is right (`ProtocolSafety.NotTakenIsFar`, an if and only if).
- The grace period of the cleanup query is exact: up to five seconds after its exec time a row always finds its
  collection (`ProtocolCleanup.CleanupNeverCollides`), and at any later time it may be gone
  (`ProtocolCleanup.LateLandingFindsNothing`).
- The quick start calls `Rollback` and then `Confirm` on the same result. Handles are pooled, so the late `Confirm`
  can decide about another consumer's task (`Sender.LateConfirmStealsATask`), or confirm the task that was rolled
  back and make the next one vanish (`Sender.LateConfirmStrandsATask`). The rule for consumers is: call neither
  on a result on which you have called one of them. With it every task has one fate (`Sender.OneFateEach`); a
  single breach can duplicate a task and lose another one after any run (`Sender.SecondCallIsNeverSafe`).
- A cancel drops a copy exactly when its id leads to one. When an id is used again with another exec time while the
  old copy is in memory, the cancel can miss (`Waiting.ReusedIdHidesItsCopy`). For one id with one exec time it
  finds its copy, even if the task was preloaded twice (`Waiting.CancelFinds`); and while uuids are not used again
  that is always so (`SystemCancels.CancelFindsItsTask`).
- Creates that overlap can overfill a collection: up to maximum - 1 + n tasks for n of them
  (`ProtocolPacking.OverlapBoundsExcess`), and that many do get in (`ProtocolPacking.OverlapReachesExcess`).
- A task more than 9223372036 seconds ahead can be sent early, at once or after a sleep that is too short
  (`Waiting.FarTaskIsSentEarly`, for all of them); nearer ones never are (`Waiting.NeverEarly`). What the INT column
  holds is nearer at all times since 1970, and nothing else gets into memory (`SystemGuarantees.NothingEarly`).
- After 292 years without a task the loop dereferences a nil task (`Waiting.NoNilTask`, `Waiting.IdleTimerCrashes`).
- With `MaxRetry` below one, `retry` reports success without a call, and All counts rows that do not exist
  (`TaskManager.SuccessMeansOneEffect`, `TaskManager.NoAttemptMiscounts`).
- With `EventCap` below two, a push on a full event queue panics (`EventQueues.EventQueue.Push`).
- A create that is refused because its uuid is stored can leave an empty collection behind
  (`Repository.MysqlRepository.Create`).
- Closing the confirm channel drops the partial batch, and only that (`Batching.ClosingDrains`).

## Model

| member | source | states |
|---|---|---|
| System.NoStrandedTask | repository/mysql_repository.go:240-515 | in every run of all components with any crashes, if creates that are not taken land before a claim reaches their exec time and no result of Consume is called twice, every stored row has its collection and is not taken by the live instance, or is claimed and unread, read or held by a worker, about to be pushed, in the preload channel, in the list or hand of the loop, in the ready channel, with a consumer that has not decided, in the rollback buffer or on the confirm path, or a fatal event was raised |
| System.WaitMovesTasks | waiting_service/waiting_service.go:116-176 | a step of the loop keeps the multiset of tasks in the preload channel, its memory and the ready channel, except for what a handled cancel drops |
| System.SendMovesTasks | sender_service/sender_service.go:106-231 | a step of the sender service that is no second call on a result keeps the multiset of tasks in the ready channel and inside the service, except for the batch whose deletion has finished |
| System.ProtocolStepVisible | preloader_service/preloader_service.go:87-171 | what the rest of the service notices of any protocol step: at most one task is appended to the preload channel, and no row reappears |
| SystemGuarantees.NothingEarly | waiting_service/waiting_service.go:120-174 | in every run with any crashes, creates for any exec time and any number of calls on results, every task in the ready channel, with a consumer, rolled back or being confirmed is due, and the loop never dereferences a missing task |
| SystemGuarantees.NothingLate | waiting_service/waiting_service.go:120-130 | in every run of the service, whenever the loop sleeps, its timer fires before the end of the exec second of every task in its memory |
| SystemGuarantees.RowsLeaveByDecision | sender_service/sender_service.go:106-125 | a row leaves the task table only in a cancel of its id, or after some consumer's Confirm of a task of that id went through, however often results are called |
| SystemCancels.CancelFindsItsTask | waiting_service/waiting_service.go:103-170 | in every run with any crashes, a handled cancel takes exactly one copy of its id out of the memory of the loop if there is one, and nothing else |
| SystemCancels.NotSentAfterCancel | waiting_service/waiting_service.go:103-174 | once the loop has handled a cancel of an id of which it held a single copy, it never sends that id again, through any crashes, unless another copy comes in through the preload channel |
| SystemCancels.CancelsAreKept | waiting_service/waiting_service.go:103-114 | in every run with any crashes, the ids whose rows CancelIfExist has deleted since the last crash are exactly those of the calls that have not sent yet, those in the cancel channel and those that the loop has handled, each once |
| SystemCancels.EveryCancelTakesEffect | waiting_service/waiting_service.go:103-170 | such an id that is no longer in a call or in the channel was handled by the loop since the last crash, and of each task of that id the loop holds fewer copies than before the handling, unless the preload channel has brought one in since |
| ProtocolSafety.NoRowStranded | repository/mysql_repository.go:433-455 | the same as NoStrandedTask up to the preload channel, for every interleaving of creates, claims, workers, cleanups and crashes and for all options, and the collection keeps the exec time with which the row was inserted |
| ProtocolSafety.LateLandingStrands | repository/mysql_repository.go:255-259 | the converse, for all options, tasks, starts and landings: if a create is not taken and a claim at its landing would reach its exec time, there is a run in which this landing is the only late one and strands the row |
| ProtocolSafety.SlackIsTimely | preloader_service/preloader_service.go:16-19 | in every run in which creates that are not taken land within (coefficient - 1) preload times of the beginning of the second in which they started, and are for exec times not more than 9223372036 seconds past, all landings are in time |
| ProtocolSafety.SlackIsExact | preloader_service/preloader_service.go:16-19 | no claim up to a landing reaches any task that was not taken when its create started, if and only if the landing is before the beginning of the starting second plus (coefficient - 1) preload times; for all exec times but those more than 292 years past |
| ProtocolSafety.NotTakenIsFar | preloader_service/preloader_service.go:88-89 | a create that is not taken starts at least coefficient times the preload time before its exec time, counted from the beginning of its second, if and only if the exec time is not more than 9223372036 seconds past |
| ProtocolSafety.TakenMeans | preloader_service/preloader_service.go:88-89 | within 9223372036 seconds of the present, a create is taken if and only if the exec time is less than coefficient times the preload time ahead of the present second |
| ProtocolSafety.TimelyLandsOutside | repository/mysql_repository.go:441-455 | a create that is not taken and lands before a claim reaches its exec time never inserts its row into a collection of its own instance |
| ProtocolSafety.CoefficientOneLeavesNoSlack | preloader_service/preloader_service.go:16-19 | with a coefficient of one, for every landing time some task that is not taken is reached by an earlier claim |
| ProtocolSafety.SubSecondStranding | preloader_service/preloader_service.go:88-89 | a run of the default options in which a row lands less than (coefficient - 1) preload times after its create started, in a collection that its own instance has claimed and read |
| ProtocolSafety.AncientStranding | preloader_service/preloader_service.go:88-91 | for all options, clocks and exec times: if the exec time is more than 9223372036 seconds past and the create is therefore computed not to be taken, its row can be stranded when it lands at the very instant of its start |
| ProtocolSafety.AncientExecTimesExist | task_manager/task_manager.go:70-73 | there are such exec times for the default options |
| ProtocolSafety.StepKeepsInv | repository/mysql_repository.go:240-515 | every step keeps the invariant behind NoRowStranded: tables, creators, the claim bound, and coverage of every row that is mine |
| ProtocolDuplication.PushedAtMostTwice | preloader_service/preloader_service.go:87-171 | within the life of an instance a task is pushed at most once by its creator and at most once by a worker, and at most once in all unless it was inserted between the claim of its collection and the worker's read |
| ProtocolCleanup.CleanupNeverCollides | repository/mysql_repository.go:158-198 | if rows are inserted no later than five seconds after their exec time, the collection chosen by a create exists with its exec time and is on no cleanup's list, no cleanup is about to delete a collection with tasks, and every task keeps a collection with its exec time |
| ProtocolCleanup.PromptLandingIsSafe | repository/mysql_repository.go:158-163 | the heart of it for one create: up to five seconds after the exec time its collection is neither cleaned nor about to be |
| ProtocolCleanup.ClampedIsPrompt | task_manager/task_manager.go:71-84 | an insert within five seconds of the clamp is never later than five seconds after the exec time, in any run |
| ProtocolCleanup.LateLandingFindsNothing | repository/mysql_repository.go:158-198 | the converse, for all options, exec times, clamps and inserts: if the insert comes later than five seconds after the exec time, there is a run in which its collection is gone and it cannot succeed |
| ProtocolTimes.StepKeepsInv | repository/mysql_repository.go:381-387 | every step keeps all stored, announced, loaded and pushed exec times within the INT column |
| ProtocolTimes.StepKeepsAgree | repository/mysql_repository.go:200-238 | every step keeps rows, creators, workers and the preload channel in agreement on one exec time for every id |
| ProtocolPacking.NeverOverfull | repository/mysql_repository.go:433-455 | in every run in which the statements of creates do not interleave with those of other creates, no collection ever exceeds the maximum, whatever claims, deletions, cleanups, retries, failures and crashes come between the statements |
| ProtocolPacking.OverlapBoundsExcess | repository/mysql_repository.go:433-455 | in every run in which at most n creates overlap between their first and last statement, no collection ever holds more than maximum - 1 + n tasks |
| ProtocolPacking.OverlapReachesExcess | repository/mysql_repository.go:441-455 | the bound is reached, for every maximum, n, exec time and clock of creates that are not taken, and for all options |
| ProtocolPacking.StepKeepsInv | repository/mysql_repository.go:240-515 | every step keeps the rows of a collection, together with the creates about to insert into it, below the maximum plus n |
| ProtocolRestart.ClaimReaches | repository/mysql_repository.go:255-317 | after a claim every collection with an exec time within its bound is mine, those that were not mine before are handed out in a list without repetition, and all other collections, all exec times and all rows are as they were |
| ProtocolRestart.AskCovers | repository/mysql_repository.go:245-259 | the bound of a claim covers an exec time if and only if its second begins within the preload time |
| ProtocolRestart.RestartTakesBack | repository/mysql_repository.go:240-367 | in every run, after every crash, every row that was stored at the crash, is still stored and begins within the preload time of the request is, after the first claim of the next instance, in a collection that is mine and waits for a worker |
| ProtocolProgress.DueCanBePreloaded | preloader_service/preloader_service.go:106-171 | from every state of every run without a fatal event, the preloading loop and its workers alone can come to a state in which every stored row that was not mine or not read yet, and every task that a worker held, was sent to the preload channel, except for rows that are further ahead than the preload time and still not mine |
| ProtocolProgress.RoundCanEnd | preloader_service/preloader_service.go:127-171 | a round that is under way can always end without a failure, and then nothing that was handed out is left unpushed |
| ProtocolProgress.CreateCanGoThrough | repository/mysql_repository.go:381-456 | from every state in which a create of a new id has not put its row in yet, whatever else is under way, its own steps, with a retry if it is in the middle of its statements, can put the row in exactly as the serial create_task does, clamped to the present if it was not yet, and push it if it is taken |
| Preloader.PreloadingService.AddNewTask | preloader_service/preloader_service.go:87-104 | the task is taken exactly if its exec time is less than coefficient times the preload time ahead of the present second, unless it is more than 9223372036 seconds away; it is sent to the channel if and only if its row went into a collection of this instance, with the exec time of that collection, which is clamped to the present; it is refused exactly for a stored uuid or a clamped exec time outside the INT column; a refused create sends nothing and changes no task row |
| Preloader.PreloadingService.GetBunchOfTask | preloader_service/preloader_service.go:137-171 | a worker sends exactly the rows of all claimed collections, each once, in the order of their exec times; at its first failed read it has sent those of the collections before, and the ones after it stay unread |
| Preloader.PreloadingService.Round | preloader_service/preloader_service.go:106-135 | one round with one worker makes every collection that is due within the preload time mine and leaves all others as they were; it sends exactly the rows of those that were not mine before, each once, ordered by exec time; with a failed read it sends some of these rows, with a failed claim it changes nothing, and it sleeps exactly if there is no such collection |
| Preloader.NextLoad | repository/mysql_repository.go:200-238 | reading the next claimed collection continues the ordered, duplicate-free list of rows |
| Preloader.UninterruptedCreate | repository/mysql_repository.go:433-455 | the three steps of a create that nothing interrupts make up the serial create_task of the packing results |
| Repository.MysqlRepository.Create | repository/mysql_repository.go:420-456 | create_task alone: an exec time outside the INT column is refused and changes nothing; otherwise a new uuid goes into a collection of its exec time and flag with room, or into a new one if there is none; a stored uuid is refused, and leaves a new empty collection exactly when none had room |
| Repository.MysqlRepository.Delete | repository/mysql_repository.go:110-156 | afterwards exactly the rows with other ids are stored, unchanged; it returns how many were deleted, and cleans up exactly when the counter says so |
| Repository.MysqlRepository.DeleteEmptyCollections | repository/mysql_repository.go:158-198 | a collection is removed if and only if its exec time is more than five seconds past and no row refers to it; rows and all other collections stay as they are |
| Repository.MysqlRepository.OrderByExecTime | repository/mysql_repository.go:255-301 | the locked ids are collected each once, ordered by exec time |
| Repository.MysqlRepository.FindBySecToExecTime | repository/mysql_repository.go:240-367 | afterwards every collection with an exec time within the bound is mine and everything else is unchanged; the result holds exactly the ids of those that were not mine before, whoever had taken them, each once and ordered by exec time, and there is no result exactly if there are none |
| Repository.MysqlRepository.GetTasksByCollection | repository/mysql_repository.go:200-238 | returns exactly the rows of the collection, each once, with the collection's exec time |
| Repository.Collections.TakeCollectionId | repository/mysql_repository.go:489-500 | takes the first id, or reports the end exactly if there is none |
| Repository.Collections.Next | repository/mysql_repository.go:502-515 | hands out the rows of the first remaining collection, or the end; a failed read uses its collection up |
| Repository.EveryNthCleans | repository/mysql_repository.go:141-153 | when deletions do not overlap, exactly every CleaningFrequency-th deletion cleans up, and the 32-bit counter never wraps around |
| Database.SerialCreatesNeverOverfill | repository/mysql_repository.go:433-455 | with any number of instances, as long as each create is one step, no collection ever exceeds the maximum, through any creates, refused creates, deletes, claims and cleanups, and every task has its collection |
| Database.ExactlyCeilCollections | repository/mysql_repository.go:433-455 | n creates for one exec time and flag from empty tables fill exactly ceil(n / maximum) collections |
| Database.CreateKeepsTight | repository/mysql_repository.go:433-455 | a create keeps all collections but at most one full, and adds one to the number of tasks |
| TaskHeaps.HeapPrioritizedTaskList.constructor | waiting_service/task_heap.go:10-27 | building the list at once gives the same value as adding the tasks one by one |
| TaskHeaps.HeapPrioritizedTaskList.Add | waiting_service/task_heap.go:36-45 | adds exactly this copy and points its id to it |
| TaskHeaps.HeapPrioritizedTaskList.DeleteIfExist | waiting_service/task_heap.go:47-57 | true exactly for an indexed id; removes exactly the copy the index points to, and the entry |
| TaskHeaps.HeapPrioritizedTaskList.Take | waiting_service/task_heap.go:59-69 | nothing exactly if the list is empty, otherwise removes and returns a task of least exec time, and its index entry |
| TaskHeaps.HeapPrioritizedTaskList.Len | waiting_service/task_heap.go:71-75 | the number of copies in the list |
| TaskHeaps.HeapPrioritizedTaskList.Swap | waiting_service/heap.go:19-23 | exchanges two items and keeps every back-pointer right |
| TaskHeaps.HeapPrioritizedTaskList.HeapPush | waiting_service/heap.go:25-30 | appends, sifts up, and keeps heap order and back-pointers; the items are the old ones and the new one |
| TaskHeaps.HeapPrioritizedTaskList.PopLast | waiting_service/heap.go:32-40 | removes exactly the last item and marks it with index -1 |
| TaskHeaps.HeapPrioritizedTaskList.Up | waiting_service/task_heap.go:43 | sifting up restores heap order from one broken edge, permutes the items, and keeps back-pointers |
| TaskHeaps.HeapPrioritizedTaskList.Down | waiting_service/task_heap.go:63 | sifting down restores heap order below one position, permutes the items, keeps back-pointers, and says truly whether it moved |
| TaskHeaps.HeapPrioritizedTaskList.Init | waiting_service/task_heap.go:24 | bottom-up heap building gives a heap of the same items |
| TaskHeaps.HeapPrioritizedTaskList.HeapRemove | waiting_service/task_heap.go:52 | removes exactly the item at the given position from a heap, by sifting its replacement down or up |
| TaskHeaps.HeapPrioritizedTaskList.HeapPop | waiting_service/task_heap.go:63 | removes exactly the root and leaves a heap |
| TaskHeaps.HeapPrioritizedTaskList.ModelSound | waiting_service/task_heap.go:29-34 | the index of a valid list leads only to live tasks with the right id |
| TaskHeaps.RootIsLeast | waiting_service/heap.go:15-17 | the root of a heap-ordered slice is at most any other item |
| TaskHeaps.UpRound | waiting_service/heap.go:15-23 | swapping with a larger parent moves the one broken edge to the parent |
| TaskHeaps.DownRound | waiting_service/heap.go:15-23 | swapping with the smaller child moves the broken edges to that child |
| TaskHeaps.ReplacedByLast | waiting_service/task_heap.go:52 | after the last item has replaced another one, only edges at that position can be broken |
| TaskLists.IndexNeverDangles | waiting_service/task_heap.go:36-69 | after any sequence of Add, Take and DeleteIfExist, duplicate ids included, every index entry leads to a live task of that id |
| TaskLists.IndexIsExact | waiting_service/task_heap.go:36-69 | if no id is added while a task of that id is in the list, the index covers exactly the live tasks and a deletion removes exactly the task of that id |
| TaskLists.TakenStaysCovered | waiting_service/task_heap.go:59-69 | after a Take every task is still findable if and only if no other copy of the taken id is left |
| TaskLists.DeletedKeeps | waiting_service/task_heap.go:47-57 | a deletion keeps the index sound, and with distinct ids exact, and leaves no task of that id |
| Time.UntilIsExactWhen | waiting_service/waiting_service.go:124 | the multiplication of seconds by nanoseconds is exact if and only if the distance is at most 9223372036 seconds |
| Time.SleepSufficesWhen | waiting_service/waiting_service.go:123-128 | sleeping for the computed duration, and not at all if it is not positive, ends no earlier than the exec second if and only if that second is at most 9223372036 seconds ahead |
| Time.SleepIsPromptWhen | waiting_service/waiting_service.go:123-128 | a positive computed sleep ends before the exec second is over, however far ahead that second is; the claim fails if and only if the second is more than 9223372036 seconds past and the overflowed duration is positive |
| Time.ColumnsNeverOverflow | repository/mysql_repository.go:384 | for exec times of the INT column it is always exact |
| Time.OverflowLooksDue | waiting_service/waiting_service.go:124 | one second beyond the limit the computed wait is negative |
| Waiting.Conservation | waiting_service/waiting_service.go:116-176 | at every point of every run the tasks received are those sent, those in the list or in hand, and those dropped by handled cancels; at the loop head nothing is in hand |
| Waiting.NeverEarly | waiting_service/waiting_service.go:120-174 | if tasks are at most 9223372036 seconds ahead when they are read from the channel, a task is sent only when its second has begun, across all timer, preload and cancel interleavings |
| Waiting.FarTaskIsSentEarly | waiting_service/waiting_service.go:123-128 | the converse, for every task, limit and moment: a task further ahead when it is read is sent early in some run from the empty list |
| Waiting.NeverLate | waiting_service/waiting_service.go:120-130 | for exec times of the INT column, while the loop sleeps its timer fires before the end of the exec second of every task in its memory, and a task whose second has begun when it is taken is not slept on |
| Waiting.TimerLeadsToSend | waiting_service/waiting_service.go:127-174 | whenever the timer of a task may fire, the loop can send that task at that very moment and is back at its head |
| Waiting.SelectAccepts | waiting_service/waiting_service.go:129-158 | a sleeping loop takes any new task, which is then in its memory, and any cancel |
| Waiting.LoopGoesOn | waiting_service/waiting_service.go:119-175 | wherever the loop does not sleep and has not crashed it can take a step at once |
| Waiting.NoNilTask | waiting_service/waiting_service.go:120-130 | the loop sends no nil task while it has run for less than the maximal duration |
| Waiting.IdleTimerCrashes | waiting_service/waiting_service.go:120-130 | at every later moment the idle timer can make it do so |
| Waiting.SentInOrder | waiting_service/waiting_service.go:121-174 | if a task is in memory and a later one is sent afterwards, the earlier one was sent or cancelled before |
| Waiting.BoundedInattention | waiting_service/waiting_service.go:119-174 | between two visits of the select the loop sends at most as many tasks as it holds |
| Waiting.SelectAddsBounded | waiting_service/waiting_service.go:131-152 | a select and its greedy loop add at most 1 plus GreedyProcessingLimit tasks |
| Waiting.CancelIsExact | waiting_service/waiting_service.go:153-170 | a handled cancel drops exactly one copy of its id if one is indexed or in hand and none otherwise, and never another task |
| Waiting.CancelFinds | waiting_service/waiting_service.go:153-170 | while the loop handles a cancel of an id of which no copy was cancelled before, and ids always have one exec time that fits the column, the id leads to a copy if and only if a copy is in memory, even after one of two copies was sent |
| Waiting.EffectiveCancel | waiting_service/waiting_service.go:153-170 | when a cancel is handled for an id whose single copy is in memory, the copy is gone if and only if the id leads to it; and then no later step sends the id unless it is preloaded again |
| Waiting.ReusedIdHidesItsCopy | waiting_service/waiting_service.go:153-158 | a run in which an id is used again with another exec time and a cancel misses its only copy |
| Waiting.StepKeepsInv | waiting_service/waiting_service.go:116-176 | every step keeps the task in hand earliest, unindexed and present exactly where it is needed, and moves tasks without losing any |
| WaitingRun.WaitingService.constructor | waiting_service/waiting_service.go:116-119 | the loop starts at its head with an empty list and an initial trace |
| WaitingRun.WaitingService.TakeEarliest | waiting_service/waiting_service.go:120-125 | takes a least task out of the list, as a Take step of the run; for a near task a positive sleep ends within its exec second, neither before it begins nor after it is over, and there is no sleep if it has begun |
| WaitingRun.WaitingService.OnPreload | waiting_service/waiting_service.go:131-136 | puts the task in hand back and adds the new one, as a Preloaded step |
| WaitingRun.WaitingService.OnCancel | waiting_service/waiting_service.go:153-158 | puts the task in hand back unless it is cancelled and deletes the id, as a Cancelled step |
| WaitingRun.GreedilyReads | waiting_service/waiting_service.go:143-150 | the greedy loop reads from the front of the backlog, up to its limit, and stops earlier only when the backlog is empty |
| WaitingRun.WaitingService.DrainPreloaded | waiting_service/waiting_service.go:143-150 | reads exactly the first tasks of the backlog up to the limit, one step each |
| WaitingRun.WaitingService.DrainCancels | waiting_service/waiting_service.go:161-168 | handles exactly the first cancels of the backlog up to the limit, one step each |
| WaitingRun.WaitingService.Select | waiting_service/waiting_service.go:128-172 | each outcome of the select extends the run by exactly its events |
| WaitingRun.WaitingService.Turn | waiting_service/waiting_service.go:119-175 | a round extends the run by exactly the events of such a round, hands out the task the run sends, and reads what the run receives |
| WaitingRun.WaitingService.Run | waiting_service/waiting_service.go:116-176 | over any script of clock and channels the loop's trace is a run, and what was read is what was handed out, what the heap holds, and what cancels dropped |
| Batching.BatchTaskQueue.Push | sender_service/task_queue.go:17-21 | the push of the producer is the Push step of the two goroutines |
| Batching.BatchTaskQueue.Pop | sender_service/task_queue.go:23-34 | the pop of the forwarder is its Pop step: it takes the first batch into hand, or goes on to the receive exactly if the queue is empty |
| Batching.InOrderPartition | sender_service/sender_service.go:127-186 | the tasks read are, in order, those of the batches emitted, in hand and queued, and the partial batch; every pushed batch has 1 to BatchMaxItems tasks, and the one being collected has fewer |
| Batching.ShortOnlyByTimer | sender_service/sender_service.go:134-156 | in every run, a batch about to be pushed is full, or the timer expired while it was collected and nothing was added since |
| Batching.NoLostWakeup | sender_service/sender_service.go:154-183 | while the forwarder waits and the queue is not empty, the token is there or the producer is about to send it, and its send never blocks |
| Batching.ClosingDrains | sender_service/sender_service.go:133-183 | the outgoing channel is closed only after every pushed batch was emitted; exactly the partial batch is dropped |
| Batching.ClosingIsReached | sender_service/sender_service.go:169-183 | after the input is closed every step of the two goroutines brings the forwarder closer to closing the outgoing channel, and it always has a next step until then |
| Batching.ExpiryFlushes | sender_service/sender_service.go:134-183 | with the input open, once the batch timer has expired every further step of the two goroutines brings all tasks that were read closer to being emitted, the partial batch included, and until they are emitted one of the goroutines can step, as long as nothing more is read and the timer does not expire again |
| RollbackBuffer.FirstInFirstOut | sender_service/task_queue.go:53-79 | what was put in is, in order, what came out and what is inside; Out is closed only after In was closed and everything was offered |
| RollbackBuffer.ClosingDrains | sender_service/task_queue.go:53-79 | after In is closed every step brings the buffer closer to closing Out, and it waits only for clients to take tasks |
| RollbackBuffer.FrontComesOut | sender_service/task_queue.go:53-79 | while something is inside and nothing is on Out, the goroutine can step towards offering the front, whether In is closed or not |
| RollbackBuffer.StepMovesInOrder | sender_service/task_queue.go:53-79 | tasks enter at the back, leave at the front and keep their order |
| Sender.SenderConservation | sender_service/sender_service.go:106-231 | in every run in which no result of Consume is called twice, the tasks taken from the ready channel are exactly those carried by undecided results, rolled back, on the confirm path, and confirmed |
| Sender.OneFateEach | sender_service/sender_service.go:197-231 | in such a run every call decides, about the task its consumer got; no result has two decisions, and each has one as soon as its call has returned |
| Sender.SecondCallIsNeverSafe | sender_service/sender_service.go:197-231 | the converse, from every state of such runs, for every result that was called and every task b not taken yet: there is a continuation with a second Confirm on the result as the only breach of the rule, in which a task is there once more than it was taken, and then b is received by another consumer and is in nobody's hands, whichever call that consumer makes |
| Sender.SecondCallGoesThroughWhen | sender_service/sender_service.go:213-231 | another call on a result goes through exactly while a Consume waits with its handle, or another result has it whose call has not marked it |
| Sender.StepKeepsTidy | sender_service/sender_service.go:197-231 | without second calls every handle is in the pool once, with one waiting Consume, or with one undecided result whose task it carries |
| Sender.CallGoesOn | sender_service/sender_service.go:213-231 | without second calls, a call of Confirm or Rollback that is under way can always take a step, if need be after the rollback buffer has made room, and each brings its handle closer to being pooled |
| Sender.InFlightIsKnown | sender_service/sender_service.go:197-231 | however often results are called, the service holds only tasks that were taken from the ready channel |
| Sender.LateConfirmStealsATask | README.md:140-151 | a run of the quick start's calls in which the late Confirm sends another consumer's task to deletion and its own Rollback does nothing |
| Sender.LateConfirmStrandsATask | README.md:140-151 | a run of the same calls in which the late Confirm comes while another Consume waits: the rolled back task is confirmed as well, and the task the other consumer gets is in nobody's hands |
| Sender.FinishedIsApproved | sender_service/sender_service.go:106-112 | every task of a batch that is deleted was confirmed by a call that went through |
| Sender.StepMoves | sender_service/sender_service.go:127-231 | every step that is no second call passes tasks between results, rollback path and confirm path without losing or duplicating any |
| SenderProgress.ConfirmedCanBeDeleted | sender_service/sender_service.go:106-186 | from every state of every run, however often results are called, the batching goroutines and the workers alone can delete exactly what is on the confirm path, and nothing else changes meanwhile |
| SenderProgress.RolledBackCanReturn | sender_service/sender_service.go:197-207 | from every state of every run in which a Consume waits and tasks are on the rollback path, the goroutine of the buffer alone can bring the one rolled back first to that Consume, and the others keep their order |
| EventQueues.EventQueue.Push | error_service/event_queue.go:19-33 | on a full queue the two oldest entries are replaced by the marker and the event at the end, otherwise the event is appended; with a capacity below two a full queue panics and stays as it is |
| EventQueues.EventQueue.Pop | error_service/event_queue.go:35-46 | for every capacity the queue before is the returned entry followed by the queue after; nothing is returned exactly if it was empty |
| EventQueues.BoundedAndNeverSilent | error_service/event_queue.go:19-46 | after any operations the queue is within its capacity and holds the latest entries in order; what left was popped in order or dropped, never both; after every drop there is a later marker that is queued or was popped |
| EventQueues.OverflowDropsTwoOldest | error_service/event_queue.go:23-30 | each overflow drops exactly the two oldest entries, and nothing else drops one |
| EventQueues.PopTakesOldest | error_service/event_queue.go:35-46 | a pop of a queue that is not empty takes away exactly the oldest queued entry and adds exactly its position to those popped; everything else is as it was |
| EventQueues.EverythingIsAccounted | error_service/event_queue.go:19-46 | after any operations the entries appended are the pushed events in order, with one marker for each overflow, each of them is exactly one of popped, dropped and queued, and what the pops returned are the entries at the popped positions, in order |
| Wakeup.NoLostWakeup | error_service/error_handler.go:74-100 | for any number of goroutines: when the handler waits and the queue is not empty, the token is there or some call of New will send it, and one of them can take a step |
| Wakeup.WakeupComesCloser | error_service/error_handler.go:74-100 | each such step brings the handler's wakeup closer or keeps it as close |
| Wakeup.HandledInOrder | error_service/error_handler.go:81-100 | at every point of every run the handled events are, in order, exactly the popped ones for whose level there is a handler, the queue is that of the pushes and pops so far, and nothing is handled after a fatal event |
| Wakeup.EventCanBeHandled | error_service/error_handler.go:52-101 | from every state of every run, a call of New with any event that is not suppressed can be followed, without another call, by steps that empty the queue with this event as the last one handled, if its level has a handler; unless the handler returns after a fatal event |
| Wakeup.DebugIsSuppressed | error_service/error_handler.go:54-56 | without the debug option no debug event is ever queued or handled |
| TaskManager.Retry | task_manager/task_manager.go:172-191 | makes exactly the attempts of the specification and returns the result of the last one |
| TaskManager.RetryStopsAtFirstFinal | task_manager/task_manager.go:172-191 | all attempts but the last failed retryably, and it stops early only at a final result |
| TaskManager.SuccessMeansOneEffect | task_manager/task_manager.go:172-191 | at most one attempt succeeds, the last one; success is reported exactly when one did, if and only if MaxRetry is at least one |
| TaskManager.AllCountsRows | task_manager/task_manager.go:70-170 | All equals the number of rows whenever no publication is outstanding, for any interleaving and any duplicate or deleted ids, with at most MaxRetry calls and at most one effect each |
| TaskManager.OperationsRetry | task_manager/task_manager.go:70-191 | in every run, the calls of every operation but its last have ended in deadlocks, it makes another one exactly if all of them did and attempts are left, and it has had its effect exactly if the last one succeeded |
| TaskManager.SuccessMeans | task_manager/task_manager.go:70-170 | a successful create adds its row, which was absent, and publishes 1; after a successful delete or confirmation none of its ids is stored, all other rows are as before, and minus the number of rows deleted is published, which a delete of nothing leaves out |
| TaskManager.StoredMeans | task_manager/task_manager.go:70-170 | in every run an id is stored if and only if the last successful call about it was a create, or it was stored at the start and no successful call removed it |
| TaskManager.NoAttemptMiscounts | task_manager/task_manager.go:172-191 | with MaxRetry below one All counts a row that does not exist |

## Left out

- SystemCancels.CancelFindsItsTask: is about runs in which uuids are not used again, as are all runs of the service here.
- System.NoStrandedTask: assumes that uuids are not used again after their deletion, that one instance is alive at a time, that a crash also ends the procedure calls it had under way in the database, and that a failed statement leaves task rows unchanged.
- ProtocolDuplication.PushedAtMostTwice: makes the same assumptions about uuids and instances.
- ProtocolSafety.SlackIsExact: is stated for preload times of whole seconds, as the protocol computes its claim bound in whole seconds.
- Waiting.CancelFinds: assumes that one id always has one exec time and that no copy of it was cancelled before; with a reused id, or with the second of two cancels, the id may not lead to a copy that is in memory.
- TaskManager.AllCountsRows: a call of the repository with its row count is one step, and the subscription and publishing of metrics are not part of this model.
- Repository.MysqlRepository.Create: deadlocks and other failures of statements appear in the protocol, as retried and failed creates, and not in this class; the same holds for the other methods of the class.
- Repository.EveryNthCleans: takes the CleaningFrequency to fit an int32, to which the code truncates it, and deletions one after another. The addition to the counter, the test and the reset are separate in the code, so overlapping deletions can clean twice or miss a turn.
- Repository.MysqlRepository.Delete: the same holds for its counter, and a failing statement, which changes no row, is left to the protocol.
- Preloader.PreloadingService.Round: is about one worker; several of them, and the retries of the claim, are in the protocol, where the order of the rows is not kept.
- Preloader.PreloadingService.GetBunchOfTask: is about one worker as well.
- ProtocolProgress.DueCanBePreloaded: says that the steps are possible, not when they are scheduled; the pause of the loop after a claim without a result is not modelled, so its next claim may come up to one preload time later, and then reaches further.
- SenderProgress.ConfirmedCanBeDeleted: says that the steps are possible, with deletions that do not fail; a failed one raises a fatal event, in System.dfy.
- WaitingRun.WaitingService.Run: takes finite scripts of the environment, as the loop of the source never ends.
- Several live instances at once: they take each other's collections by design.
- Outcomes of commits and statements that the client never learns, context timeouts and the MySQL driver: decided by the server.
- Exec times that, after the clamp to the present, do not fit the INT column are refused by the database, as in MySQL's strict mode; the lenient mode is not modelled.
- The clock is shared by instances and database, monotone, and between the years 1970 and 2191.
- Channels between the components are unbounded queues, so that every schedule of the bounded ones is among the runs; capacities are modelled where a property depends on them, in the rollback buffer and the two wakeup channels.
- The confirm channel is not closed in the model of the whole service, as no code closes it; closing is covered in Batching.dfy.
- Options are those after merging with the defaults: BatchMaxItems, WorkersCount, MaxRetry and the maximum of a collection are at least one, EventCap is at least two, the coefficient and the preload time are positive and their product fits an int64. What happens below these bounds is stated only for MaxRetry and EventCap.
- The number of preloading and confirming workers is not bounded by their options, which only adds runs.
- Generation and validation of uuids, connection set-up, schema creation, monitoring, event details and user event handlers: plumbing around the modelled logic.
- Throughput and latency in real time.

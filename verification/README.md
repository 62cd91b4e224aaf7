# Verified model of sioworkersd

sioworkersd takes groups of judging tasks from a client, hands the tasks to remote workers and returns the
results. This project models its most delicate parts in Dafny and proves what they are relied on for:

* the **prioritizing scheduler** (`sio/sioworkersd/scheduler/prioritizing.py`): the number of any-cpu workers
  held back for waiting real-cpu tasks, the choice of contests, tasks and workers, the sorted indexes, and the
  order and completeness of what is started;
* the **server around it** (`taskmanager.py`, `workermanager.py`): three components with redundant records of
  who runs what, under submissions, replies, errors, timeouts, joining and lost workers;
* **delivery of results** (`taskmanager.py`): the database, returning with retries, crashes and restarts;
* the **two-party RPC protocol** (`sio/protocol/rpc.py`): handshake, pending calls, handlers, timeouts;
* **shell quoting** (`sio/workers/executors.py`) against POSIX token recognition (sections 2.2.1, 2.2.2, 2.3
  and 2.10.1 of the Shell Command Language, POSIX.1-2017);
* the **sandbox lock** (`sio/workers/sandbox.py`): threads counted within a process, file locks between them.

## How it is built

The logic is written as functions on values, on which the theorems are proved. The objects of the source are
classes over the same fields: their methods, with the loops of the source, are proved to change the value of the
object exactly as those functions say. For the scheduler, for one end of the protocol and for the three objects of
the server this covers whole operations: the class `TaskManager` has one method for each reactor event, which moves
task manager, worker manager and scheduler from the value before the event to the value after it, and `Serve` takes
newly built objects through any run of events that can happen, so what is proved of all reachable values holds of
these objects. Delivery and the sandbox have objects for the database and for one process; their theorems about
crashes and about several processes are on values.

| concern | values and theorems | objects |
|---|---|---|
| scheduler | `SortedSets`, `Matching`, `TaskQueues`, `SchedulerState`, `SchedulerInvariant`, `WorkerChoice`, `Blocking`, `Scheduling`, `SchedulerProperties`, `SchedulerRuns`, `Decisions` | `SchedulerParts`, `PrioritizingScheduler` |
| server | `ManagerModel`, `ManagerSteps`, `Coupling`, `Server`, `ServerInvariant`, `ServerHistory`, `EventPlans` | `WorkerManager`, `TaskManager` |
| delivery | `Delivery`, `Returns` | `Delivery.Database` |
| protocol | `Rpc`, `RpcSession` | `WorkerRpc` |
| quoting | `ShellQuote` | method `ShellQuote.Ulimit` |
| sandbox | `Sandbox` | `SandboxContext` |

Conventions: RAM is counted in KiB, so that the division by 1024 in `sio/sioworkersd/utils.py` is exact.
Suitability is a real number. The random generator is an arbitrary function; `randint(1, n)` is `1 + raw % n`.
Worker names stand for their rank in string order. One event of the reactor is one step: a reply, a remote error or
a timeout of a call, a submission, a worker that joins (check and registration together) or is lost; each includes
the scheduling and sending at its end. What the server assumes of its surroundings: names of tasks and groups are
never reused, a live worker name is registered once, a worker answers with the task it was given, contest weights
are at least 1. These are the `Enabled` predicates.

## What turned out false

* A worker that announces no slots or no RAM is registered by the manager and refused by the scheduler
  (`workermanager.py:101-106`, `prioritizing.py:115-116`); `RegisterKeepsCoupling` proves that the records agree
  after a registration exactly when both numbers are positive.
* A group rejected for its RAM is never saved, but its retry count is; when that lone count reaches the disk, the
  next start fails to sort the records by time (`taskmanager.py:121`, `350-352`). `RejectedBlocksRestart` gives such a
  run. `RestartIffNoneFailedTwice` gives the exact condition, on the running server: a write to the disk blocks the
  starts after a crash if and only if, at that time, some rejected group has failed to be returned twice and is not
  settled.
* Settling a group deletes its record; when there is none, this raises (`taskmanager.py:99`). `DeleteFinds` proves
  that it happens if and only if a rejected group is settled at its first attempt; `DeleteMisses` gives a run in which
  it does.
* A thread can be inside a sandbox that is not there: the last exchange of the exclusive lock for a shared one gives
  the lock up in between (`sandbox.py:303`, `362`), and nothing is checked afterwards. `LostBetweenLocks` gives a run.
  `PresentIffCheckedAtLastLock` gives the exact condition, for all runs: the sandbox is there for every thread inside
  if and only if the directory exists each time the last lock of an entry has been granted. With an exchange in one
  step that is always so (`PresentIffAtomic`).
* An entry that fails while checking keeps its file lock (`sandbox.py:292-304`). `LeftoverLocks` proves that, after
  any run, a process that nobody is in holds a lock if and only if its last step was such a failure.
* A reply that arrives after its call timed out is a protocol error and ends the connection (`rpc.py:84-86`);
  `BreaksIffLateReply` proves that a step breaks the session if and only if it delivers such a reply, and
  `LateReplyHappens` that this occurs.

## Model

| member | source | states |
|---|---|---|
| Matching.GreedyIsLeast | sio/sioworkersd/scheduler/prioritizing.py:579-596 | over workers sorted by RAM, any n of them can serve all waiting tasks (an injective assignment by RAM exists for every n-subset) if and only if the greedy walk finishes within the first n |
| Matching.WalkServes | sio/sioworkersd/scheduler/prioritizing.py:581-592 | when the walk finishes, the workers it stopped at are distinct and each covers its task |
| Matching.WalkIsLeast | sio/sioworkersd/scheduler/prioritizing.py:583-592 | no assignment of the tasks to positions of the sorted list ends before the walk does (exchange argument) |
| Matching.NecessaryBelow | sio/sioworkersd/scheduler/prioritizing.py:550-556 | if any n workers serve all tasks, then the n weakest do, so the walk needs at most n |
| Matching.FeasibleAbove | sio/sioworkersd/scheduler/prioritizing.py:550-556 | every set of as many workers as the walk used serves all tasks, because its k-th weakest dominates the k-th of the list |
| Matching.UniformWalk | sio/sioworkersd/scheduler/prioritizing.py:569-571 | when every worker covers every task, the walk uses one worker per task until either runs out |
| Blocking.BlockedIsLeast | sio/sioworkersd/scheduler/prioritizing.py:544-596 | the returned count, capped at the number of any-cpu workers, is the least N such that any N of them serve all waiting tasks, and that number itself if there is no such N |
| Blocking.FastPathAgrees | sio/sioworkersd/scheduler/prioritizing.py:569-571 | under the cap, the constant-time answer equals the answer of the sorted walk |
| Blocking.GuardAgrees | sio/sioworkersd/scheduler/prioritizing.py:650-653 | for every possible queue size, the test that opens the third phase does not depend on which path computed the count |
| Blocking.TakingOneKeepsReserve | sio/sioworkersd/scheduler/prioritizing.py:632-653 | with more free any-cpu workers than are blocked, whichever one is taken, the others still serve all waiting tasks |
| SchedulerProperties.ReserveIsKept | sio/sioworkersd/scheduler/prioritizing.py:650-671 | after the third phase has attached a task, the any-cpu workers that are still not full admit an injective assignment by total RAM of all waiting real-cpu tasks |
| TaskQueues.EnqueueOk | sio/sioworkersd/scheduler/prioritizing.py:250-263 | the per-contest queues stay sorted and distinct, and hold exactly one task more |
| TaskQueues.DequeueOk | sio/sioworkersd/scheduler/prioritizing.py:265-270 | a queued task is found, exactly it is removed, and no contest is left with an empty queue |
| TaskQueues.ScanIsMaximum | sio/sioworkersd/scheduler/prioritizing.py:290-301 | the first loop yields the highest queued priority, which some contest has, and the sum of the weights of the contests having it |
| TaskQueues.ExactWeightedChoice | sio/sioworkersd/scheduler/prioritizing.py:272-314 | of the random numbers below the total weight of the queued contests of the highest priority, exactly as many make `chooseTask` return a task of a contest as its weight if it has that priority, and none otherwise; larger numbers count modulo that sum |
| TaskQueues.ChosenByShare | sio/sioworkersd/scheduler/prioritizing.py:303-312 | the number chooses the contest in whose share of the weights, summed in the order of the dictionary, it falls |
| TaskQueues.ChosenIsFirst | sio/sioworkersd/scheduler/prioritizing.py:12-27 | the chosen task is queued, is ahead of every other task of its contest (priority, then age), and no queued contest has a higher priority |
| WorkerChoice.BestVirtualIsMaximal | sio/sioworkersd/scheduler/prioritizing.py:402-444 | no worker is returned if and only if none in the queue has a free slot and enough RAM; otherwise the first of the best: partially busy ones before empty ones if asked for, then the smallest distance between the RAM per free slot and that of the task, compared in whole numbers over the records of the workers |
| WorkerChoice.BestRealIsLeast | sio/sioworkersd/scheduler/prioritizing.py:469-488 | despite the early exit: none if and only if no empty any-cpu worker has enough RAM, otherwise the one with the least sufficient RAM, and of equal ones the first by name |
| SchedulerInvariant.ChangeWorkerIndexes | sio/sioworkersd/scheduler/prioritizing.py:515-521 | taking a worker out, changing it and putting it back keeps both queues exact and sorted by current keys |
| SchedulerInvariant.AddTaskInv | sio/sioworkersd/scheduler/prioritizing.py:523-529 | a new task keeps the invariant of the scheduler |
| SchedulerInvariant.DelTaskInv | sio/sioworkersd/scheduler/prioritizing.py:531-542 | deleting any known task, running, waiting or queued, fails no assertion of `detachTask` and keeps the invariant |
| SchedulerInvariant.AddWorkerInv | sio/sioworkersd/scheduler/prioritizing.py:386-390 | a new worker with slots and RAM keeps the invariant |
| SchedulerInvariant.DelWorkerInv | sio/sioworkersd/scheduler/prioritizing.py:392-397 | removing a worker that runs nothing keeps the invariant |
| SchedulerInvariant.AttachLoadOk | sio/sioworkersd/scheduler/prioritizing.py:165-176 | after an attachment the counters of every worker are again the count, the RAM sum and the exclusivity of its tasks, within its limits |
| SchedulerInvariant.DetachLoadOk | sio/sioworkersd/scheduler/prioritizing.py:178-185 | the same after a detachment, whose assertions hold |
| SchedulerRuns.ReachableIndexes | sio/sioworkersd/scheduler/prioritizing.py:340-397 | in every state reachable by joins, leaves, submissions, completions and scheduling, a worker is in the queue of its kind if and only if it has a free slot, every lookup by its current key finds it, and its counters are those of the attached tasks |
| Scheduling.DecideIsLegal | sio/sioworkersd/scheduler/prioritizing.py:598-681 | whatever the draws, the decision concerns a queued or waiting task and a worker on which every assertion of `attachTask` holds |
| Scheduling.ApplyInv | sio/sioworkersd/scheduler/prioritizing.py:598-681 | carrying out a legal decision keeps the invariant |
| Scheduling.ApplyDecreases | sio/sioworkersd/scheduler/prioritizing.py:672-693 | each decision lowers (unattached tasks, tasks neither attached nor waiting) lexicographically, so the recursion and the loop end for every state and all draws |
| Decisions.DecideIsRight | sio/sioworkersd/scheduler/prioritizing.py:598-681 | the whole decision, told from the records of the workers: which of the three phases acts, with which task, and on which worker, the best for a virtual-cpu task (a partially busy any-cpu one first) and the least sufficient empty one for a real-cpu task; when a task is put to wait and when nothing is done; and that each choice among contests uses the next random number, once |
| Decisions.DrainIsRight | sio/sioworkersd/scheduler/prioritizing.py:672-693 | over a whole call of `schedule` every decision is the right one in the state that the earlier ones lead to, and at the end nothing is left to be done |
| Decisions.RunUses | sio/sioworkersd/scheduler/prioritizing.py:303 | over any run, what happens depends only on as many of the first random numbers as there were choices |
| Decisions.ContestsAreUpdated | sio/sioworkersd/scheduler/prioritizing.py:490-503 | over any run of the scheduler a contest has the priority and weight of its last update, and there are no other contests |
| SchedulerProperties.NoInversion | sio/sioworkersd/scheduler/prioritizing.py:605-665 | a virtual-cpu task starts ahead of a queued one of its contest only with higher priority, or equal priority and earlier arrival, through whichever queue it leaves |
| SchedulerRuns.NoInversionInSchedule | sio/sioworkersd/scheduler/prioritizing.py:683-693 | over a whole call of `schedule`: every virtual-cpu task it starts is ahead of every virtual-cpu task of the same contest that it leaves queued |
| SchedulerRuns.NoInversionOverRuns | sio/sioworkersd/scheduler/prioritizing.py:250-270 | over whole runs, with submissions, completions, cancellations and changing workers: between two points at which a task is queued, no virtual-cpu task of its contest starts that has lower priority, or equal priority and a later arrival |
| SchedulerProperties.DirectOnlyIfNoneWaiting | sio/sioworkersd/scheduler/prioritizing.py:666-671 | if every any-cpu worker covers every real-cpu task, none is attached directly while another waits |
| SchedulerRuns.NoOvertaking | sio/sioworkersd/scheduler/prioritizing.py:618-678 | over any run, real-cpu tasks that were not cancelled start in exactly the order in which they left the 'both' queue, those that waited unconditionally, all of them if every any-cpu worker covers every real-cpu task |
| SchedulerProperties.WorkConservation | sio/sioworkersd/scheduler/prioritizing.py:598-693 | with workers of at least slots times the largest task RAM, when `schedule` returns: a queued virtual-cpu task means no free vcpu-only slot, a queued task means at most one not-full any-cpu worker per waiting task, a waiting task means no empty any-cpu worker |
| SchedulerRuns.TaskConservation | sio/sioworkersd/scheduler/prioritizing.py:352-365 | in every reachable state each known task is in exactly one of queued, waiting, attached; the virtual-cpu queues are exactly the virtual tasks of 'both'; the sorted RAM list is that of the waiting tasks |
| SchedulerRuns.ScheduleIsDrain | sio/sioworkersd/scheduler/prioritizing.py:672-693 | the loop with its inner recursion makes the decisions of one single loop and returns exactly those that attach a task |
| SchedulerRuns.ScheduleLaunches | sio/sioworkersd/scheduler/prioritizing.py:683-693 | `schedule` returns distinct tasks that were attached to nothing, these and only these become attached, to the workers named, and the set of tasks stays the same |
| SchedulerParts.WorkerInfo.AttachTask | sio/sioworkersd/scheduler/prioritizing.py:165-176 | changes the worker as the value-level attachment does |
| SchedulerParts.WorkerInfo.DetachTask | sio/sioworkersd/scheduler/prioritizing.py:178-185 | changes the worker as the value-level detachment does |
| SchedulerParts.WaitingTasksQueue.Remove | sio/sioworkersd/scheduler/prioritizing.py:89-91 | removes exactly the given task, wherever it stands, and one entry of its RAM |
| SchedulerParts.TasksQueues.ChooseTask | sio/sioworkersd/scheduler/prioritizing.py:272-314 | the two loops over contests return the task that `ExactWeightedChoice` and `ChosenIsFirst` speak of |
| SchedulerParts.TasksQueues.HighestPriority | sio/sioworkersd/scheduler/prioritizing.py:290-301 | the first loop computes the maximum and the weight sum of `ScanIsMaximum` |
| PrioritizingScheduler.GreedyCount | sio/sioworkersd/scheduler/prioritizing.py:581-596 | the nested index loops compute the greedy walk of `GreedyIsLeast`, including its failure |
| PrioritizingScheduler.PrioritizingScheduler.NumberOfBlockedAnyCpuWorkers | sio/sioworkersd/scheduler/prioritizing.py:544-596 | with its early exits, computes the count of `BlockedIsLeast` from the records of the manager |
| PrioritizingScheduler.PrioritizingScheduler.BestWorkerForVirtualCpuTask | sio/sioworkersd/scheduler/prioritizing.py:402-444 | the loop that keeps the best so far returns the worker of `BestVirtualIsMaximal` |
| PrioritizingScheduler.PrioritizingScheduler.BestAnyCpuWorkerForRealCpuTask | sio/sioworkersd/scheduler/prioritizing.py:469-488 | the loop with its early return yields the worker of `BestRealIsLeast` |
| PrioritizingScheduler.PrioritizingScheduler.AttachTaskToWorker | sio/sioworkersd/scheduler/prioritizing.py:515-521 | the worker object is changed in place between leaving and entering its queue, and the whole state changes as in the model |
| PrioritizingScheduler.PrioritizingScheduler.DelTask | sio/sioworkersd/scheduler/prioritizing.py:531-542 | the three branches change the whole state as in the model |
| PrioritizingScheduler.PrioritizingScheduler.AddTask | sio/sioworkersd/scheduler/prioritizing.py:523-529 | changes the whole state as in the model, with the next sequence number |
| PrioritizingScheduler.PrioritizingScheduler.ScheduleOnce | sio/sioworkersd/scheduler/prioritizing.py:598-681 | the recursive method terminates, and returns and leaves behind what the model does, for every sequence of draws |
| PrioritizingScheduler.PrioritizingScheduler.Schedule | sio/sioworkersd/scheduler/prioritizing.py:683-693 | the accumulating loop terminates, and returns and leaves behind what the model does |
| WorkerManager.WorkerManager.UpdateWorkerStats | sio/sioworkersd/workermanager.py:174-194 | the four statistics become the extremes over the workers of each kind, or none |
| ManagerSteps.StatsAreExtremes | sio/sioworkersd/workermanager.py:174-194 | the statistics are the least and the greatest RAM of the workers of each kind, and none if and only if there are none |
| WorkerManager.WorkerManager.Register | sio/sioworkersd/workermanager.py:101-104 | the new worker is last in the dictionary, runs nothing, and the statistics include it |
| WorkerManager.WorkerManager.ForgetWorker | sio/sioworkersd/workermanager.py:108-112 | exactly the lost worker leaves the dictionary, its record with its tasks is handed back, and the others keep their records and order; the statistics are left for the end of the loss |
| WorkerManager.WorkerManager.RunTask | sio/sioworkersd/workermanager.py:123-146 | each guard refuses in its order without changing anything, otherwise the task, the flag and the call are recorded |
| ManagerSteps.SentIffAllowed | sio/sioworkersd/workermanager.py:123-146 | a task is sent if and only if the worker is known and may have it besides its tasks (within its slots, an exclusive task by itself and on a worker that allows it); otherwise the error is that of the first guard it meets |
| WorkerManager.WorkerManager.FreeTask | sio/sioworkersd/workermanager.py:148-158 | the call and the slot are given back even if the worker is no longer registered, and the impossible case is reported exactly when it occurs |
| Coupling.SendAllOk | sio/sioworkersd/taskmanager.py:161-164 | sending out distinct fresh pairs that fit the workers at the end trips no guard on the way, and the records of the manager follow |
| Coupling.ExecuteOk | sio/sioworkersd/taskmanager.py:157-184 | no guard of `runOnWorker` raises for a pair returned by `schedule`, and afterwards task sets, exclusivity flags, calls and statistics again mirror the scheduler |
| Coupling.LinkedFinish | sio/sioworkersd/workermanager.py:148-158 | ending any pending call keeps the records equal, and the "impossible happened" branch is not taken |
| Server.CollectSplits | sio/sioworkersd/taskmanager.py:247-265 | each job of a group is in exactly one of results and failures, with its own result or error |
| ServerInvariant.FinishCallCoupled | sio/sioworkersd/taskmanager.py:186-214 | a reply, an error or a timeout keeps all records coupled and fires the deferred of the task once |
| ServerInvariant.SubmitCoupled | sio/sioworkersd/taskmanager.py:229-245 | a submitted group of any size, also an empty one, keeps all records coupled |
| ServerInvariant.LoseCoupled | sio/sioworkersd/taskmanager.py:166-178 | losing a worker, with the retry of all its tasks in any order, keeps all records coupled and fires no deferred |
| ServerInvariant.RegisterKeepsCoupling | sio/sioworkersd/workermanager.py:91-106 | the records agree after a registration if and only if the worker has slots and RAM |
| ServerInvariant.ReactCoupled | sio/sioworkersd/taskmanager.py:149-269 | every event keeps the records coupled and only ever adds outcomes; a collected group never changes again |
| ServerInvariant.ReachableCoupling | sio/sioworkersd/workermanager.py:108-194 | in every reachable state the manager's task sets, flags, calls and statistics are those implied by the scheduler, and nothing has raised |
| ServerInvariant.NoTaskLost | sio/sioworkersd/taskmanager.py:157-269 | in every reachable state a job has fired its deferred or is in progress, never both; in the second case it is known to the scheduler and is in exactly one of queued, waiting, attached; its group is collected if and only if all its jobs have fired, each in exactly one of results and failures |
| ServerHistory.ContestsAreSubmitted | sio/sioworkersd/taskmanager.py:229-236 | in every reachable server a contest has the priority and weight of the last group submitted for it, and there are no other contests |
| ServerHistory.WorkersHaveJoined | sio/sioworkersd/workermanager.py:91-118 | the workers of the scheduler are those that joined and have not been lost since, with the slots, RAM and kind that they announced |
| ServerHistory.GroupsAreSubmitted | sio/sioworkersd/taskmanager.py:229-245 | the groups are those that were submitted, with their jobs |
| ServerHistory.TasksAreSubmitted | sio/sioworkersd/taskmanager.py:166-178 | a task of the scheduler, however often it was retried, has the kind, RAM, priority and contest that were submitted under its name |
| ServerHistory.OutcomesAreReplies | sio/sioworkersd/taskmanager.py:186-214 | the deferred of a job has fired if and only if an event ended its call, and with the result, error or timeout of that event |
| ServerHistory.JobsArriveInOrder | sio/sioworkersd/taskmanager.py:238-242 | the jobs of a group get consecutive arrival numbers, in their order |
| ServerHistory.NoIdleWorkers | sio/sioworkersd/taskmanager.py:157-184 | between any two events of any run the three conclusions of `WorkConservation` hold, if the workers have RAM for as many of the largest tasks as they have slots |
| TaskManager.TaskManager.SendAll | sio/sioworkersd/taskmanager.py:162-164 | the loop sends the pairs in order and stops at the first exception, as in the model |
| TaskManager.TaskManager.AddGroupJobs | sio/sioworkersd/taskmanager.py:238-242 | the loop enters every job into the scheduler and into the table, as in the model |
| TaskManager.TaskManager.TaskDone | sio/sioworkersd/taskmanager.py:209-211 | manager, scheduler and table all forget the task, all three stay valid, and the impossible case is reported |
| TaskManager.TaskManager.Retry | sio/sioworkersd/taskmanager.py:176-178 | the scheduler forgets the task and gets it anew, at the end of its queue, and stays valid; the table is unchanged |
| TaskManager.TaskManager.RetryCalls | sio/sioworkersd/workermanager.py:108-114 | the loop over the calls of a lost worker frees each call and requeues its task, whatever the order, as in the model |
| TaskManager.TaskManager.TryExecute | sio/sioworkersd/taskmanager.py:157-184 | scheduling and sending lead to the scheduler and the manager of the model |
| TaskManager.TaskManager.CallEnds | sio/sioworkersd/taskmanager.py:186-214 | a reply, an error or a timeout takes the three objects from the server before the event to the one after it, including the collection of a complete group |
| TaskManager.TaskManager.WorkerLost | sio/sioworkersd/workermanager.py:108-118 | the same for a lost worker: forgetting it, retrying its calls, statistics, `delWorker` and `_tryExecute`; the records and worker objects that stay are those that were there |
| TaskManager.TaskManager.WorkerJoins | sio/sioworkersd/workermanager.py:101-106 | the same for a worker that registers; every record and every worker object afterwards was there before or is new |
| TaskManager.TaskManager.SubmitGroup | sio/sioworkersd/taskmanager.py:229-269 | the same for a submitted group, also an empty one; both dictionaries of workers keep their objects |
| TaskManager.TaskManager.React | sio/sioworkersd/taskmanager.py:149-269 | whatever the event, the three objects go from the server before it to the server after it, and every worker object afterwards was there before or is new |
| TaskManager.Serve | sio/sioworkersd/taskmanager.py:104-269 | for every run of events that can happen and every sequence of draws: objects that are built and go through the run have the value of the reachable server that the run leads to |
| EventPlans.NextReacts | sio/sioworkersd/taskmanager.py:149-269 | objects that have the value of a reachable server are ready for every event that can happen, and the value they come to is again reachable |
| EventPlans.CallPlan | sio/sioworkersd/taskmanager.py:186-214 | what each step of an ending call needs is there: the entry of the table, the task at a worker that can detach it, a registered record for which the impossible case does not occur |
| EventPlans.LosePlan | sio/sioworkersd/workermanager.py:108-118 | what each step of losing a worker needs is there: all its calls are pending, and after the retries it runs nothing |
| TaskManager.CollectGroup | sio/sioworkersd/taskmanager.py:247-265 | the loop over the outcomes puts each job into results if and only if it succeeded, and loses none |
| Delivery.Database.Put | sio/sioworkersd/taskmanager.py:89-95 | merges into the stored record, and reaches the disk only if asked to |
| Delivery.Database.Delete | sio/sioworkersd/taskmanager.py:97-101 | removes the record, and from the disk only if asked to; a missing record is reported and then nothing is synced |
| Delivery.NextInv | sio/sioworkersd/taskmanager.py:115-144 | every step, sync, crash and restart keeps the invariant of database and running returns |
| Delivery.AtLeastOnce | sio/sioworkersd/taskmanager.py:271-389 | in every reachable state, across crashes, an accepted group that was neither delivered nor given up is on disk with a complete record, and while the server is up something is being done about it |
| Delivery.OnlyVerdicts | sio/sioworkersd/taskmanager.py:301-312 | what is delivered for a group is a verdict that was reached on it |
| Delivery.BoundedAttempts | sio/sioworkersd/taskmanager.py:358-379 | a return that began with count c has made at most 1 + (6 - c) attempts, and the index of a pending delay is in range; with which c it begins is said by `WholeReturn` |
| Returns.WholeReturn | sio/sioworkersd/taskmanager.py:301-390 | from any reachable state on, whatever is interleaved, up to the next crash: a return begins with count 0 when its group is finished or rejected, and with the count on disk after a restart; it goes on as long as fewer than 1 + (6 - count) attempts were made and all failed, is delivered at the first success and given up at the last failure, waits 10^(count+1), 10^(count+2), ... seconds, and stores the number of the last retry that was answered |
| Returns.SevenAttempts | sio/sioworkersd/taskmanager.py:358-379 | over runs from the start: after a group is finished, and without a crash, it is delivered with its own result at the first success among seven attempts, and given up if and only if all seven fail |
| Returns.HistoryIsEvents | sio/sioworkersd/taskmanager.py:271-312 | accepted and rejected groups and verdicts are those of the events of the run, and a settled group has had a reply |
| Returns.StampsAreSubmissions | sio/sioworkersd/taskmanager.py:284-299 | a stored time is that of the submission of its group |
| Delivery.RecordsComplete | sio/sioworkersd/taskmanager.py:89-95 | in every reachable state, also for settled groups, a record in the database or on disk is complete, and readable at a start, if and only if its group was accepted |
| Delivery.DeleteFinds | sio/sioworkersd/taskmanager.py:384-385 | the delete at the end of a return finds no record if and only if a rejected group is settled at its first attempt |
| Delivery.DeleteMisses | sio/sioworkersd/taskmanager.py:97-101 | a run after which the delete finds no record |
| Delivery.RestartIffNoneRejected | sio/sioworkersd/taskmanager.py:120-144 | a restart can read all records if and only if no rejected group has got into the database |
| Delivery.RestartIffNoneFailedTwice | sio/sioworkersd/taskmanager.py:120-144 | for every write to the disk and every crash before the next one: the next start succeeds if and only if at the write no rejected group had failed twice and was still unsettled |
| Delivery.RejectedBlocksRestart | sio/sioworkersd/taskmanager.py:274-282 | a run in which a rejected group, returned in vain, makes every later start fail |
| RpcSession.NextInv | sio/protocol/rpc.py:68-132 | every step of either end keeps the handshake, the order of calls and replies, and the books of both ends |
| RpcSession.PendingInOnePlace | sio/protocol/rpc.py:177-204 | in every reachable state a pending call is in exactly one of: on its way, being handled, answered with the reply under way; any call is in at most one |
| RpcSession.ClientImpliesServer | sio/protocol/rpc.py:112-132 | if the client is established, the server is |
| RpcSession.OnlyLateReplies | sio/protocol/rpc.py:84-107 | a broken session has met a reply to a call that had already timed out |
| RpcSession.BreaksIffLateReply | sio/protocol/rpc.py:84-107 | in every reachable state, a step breaks the session if and only if it delivers a reply to a call of that end that has timed out, and then with just that error |
| RpcSession.LateReplyHappens | sio/protocol/rpc.py:168-171 | such a run exists |
| RpcSession.RepliesMatch | sio/protocol/rpc.py:101-103 | handlers run once per call, in the order of the calls and with their arguments, and a deferred fires with what its own handler produced |
| RpcSession.OnlyKnownCommands | sio/protocol/rpc.py:88-101 | over any run a handler runs only for a command of its end, and a call of any other command was refused with the name of that command |
| RpcSession.FiresAreLogged | sio/protocol/rpc.py:83-107 | a step fires the deferred of a call exactly if the call is pending, with the outcome that the history then has for it, and changes no other outcome |
| WorkerRpc.WorkerRPC.ProcessMessage | sio/protocol/rpc.py:81-132 | state, pending calls and messages sent are those of the model, exactly the deferred of the answered call fires, and no other |
| WorkerRpc.WorkerRPC.FireReady | sio/protocol/rpc.py:192-201 | the calls that were held back become pending and are sent, all and in order |
| WorkerRpc.WorkerRPC.MakeCall | sio/protocol/rpc.py:177-204 | the new deferred is unfired and pending, or held back until the connection is established |
| WorkerRpc.WorkerRPC.TimeOut | sio/protocol/rpc.py:168-171 | the call is forgotten and its deferred fires with the timeout |
| ShellQuote.QuotingRoundTrip | sio/workers/executors.py:39-51 | the tokens of a quoted command are one word per plain or nested argument with exactly its text, and the own tokens of each marked argument |
| ShellQuote.PlainRoundTrip | sio/workers/executors.py:47-51 | any list of strings comes back as exactly that list |
| ShellQuote.TreeRoundTrip | sio/workers/executors.py:42-44 | re-reading every nested word recovers the whole tree, at any depth |
| ShellQuote.OpenQuotesMerge | sio/workers/executors.py:40-41 | marked arguments that are no complete input can swallow their neighbours, so the condition of the round trip is needed |
| ShellQuote.Ulimit | sio/workers/executors.py:54-67 | rebinding the command step by step puts the time limit first, then the memory limits, then the command; zero and missing limits add nothing |
| ShellQuote.LimitsComeFirst | sio/workers/executors.py:54-67 | the shell sees an AND list: each requested limit with its exact number, then the command unchanged |
| ShellQuote.DecimalRoundTrip | sio/workers/executors.py:60-65 | the printed number of a limit reads back as that number |
| ShellQuote.TimedRoundTrip | sio/workers/executors.py:406-411 | the outer shell runs `bash -c` with one word after the limits, and the inner shell reads it as the word `time` and the tokens of the original command |
| Sandbox.Exclusion | sio/workers/sandbox.py:277-362 | in every interleaving of any number of processes and threads, with failing installations and crashes, nobody is inside while a process deletes or extracts, and no other process installs |
| Sandbox.SharedWhileInside | sio/workers/sandbox.py:156-172 | the count is the number of threads inside plus the one entering first, and the shared lock is held from the first completed entry until the count is zero |
| Sandbox.LeftoverLocks | sio/workers/sandbox.py:156-166 | after any run, a process that nobody is in holds a lock if and only if its last step was an entry raising during one of the two checks |
| Sandbox.PresentStep | sio/workers/sandbox.py:302-362 | a step puts a thread into a sandbox that is not there if and only if it grants the last lock of an entry while the directory is missing |
| Sandbox.PresentIffCheckedAtLastLock | sio/workers/sandbox.py:302-362 | over any run, with the exchange of locks in one step or in two: the sandbox is present while somebody is inside, if and only if the directory exists whenever the last lock of an entry is granted |
| Sandbox.PresentIffAtomic | sio/workers/sandbox.py:302-362 | in all reachable states the sandbox is present while somebody is inside, if and only if exchanging the lock is one step |
| SandboxContext.EnterIsItsSteps | sio/workers/sandbox.py:156-166 | the steps of an entry, one after another, have the result of the whole |
| SandboxContext.Context.Enter | sio/workers/sandbox.py:156-166 | the method does to count, lock and threads inside what the steps of the interleaved model do, for every outcome of the checks and the installation |
| SandboxContext.Context.Exit | sio/workers/sandbox.py:168-172 | the last thread to leave gives the lock up |
| SandboxContext.Get | sio/workers/sandbox.py:292-362 | success means that the shared lock is held; each way of failing leaves the lock that the code leaves |

## Left out

- That waiting real-cpu tasks are started eventually: the code does not fix which workers are held back, so completions can keep each of them partly busy. The safety forms are proved instead.
- `prioritizing.py:558-562` says that the size of the worker queue is returned when no number suffices; the code returns the number of all any-cpu workers (line 594), and the model follows the code.
- `sandbox.py:281-286` describes a lock file inside the sandbox; it is outside now (line 161), and the note does not apply.
- Tasks and contests are values under their names in the class of the scheduler: that one `TaskInfo` or `ContestInfo` object is shared by several containers is not captured. Worker objects are shared and changed in place.
- Sorted containers are sequences with insertion and lookup by bisecting on the current keys; their own implementation is foreign code.
- The chaining of deferreds: the methods of `TaskManager` call each other in the order in which the callbacks fire. The order in which a lost worker's task set is iterated is a parameter.
- Results of a group are kept under the name of the task; `_collect` renames them to the key of the job, which is one to one with it.
- Two handlers that answer at once, and a handler that answers while its call is being received, are consecutive steps.
- Calls that time out before the handshake, connections lost before a worker is registered, and two registrations of one name under way at once.
- Environments of single tasks carry no `return_url`, so only groups have records.
- Groups that come through `xmlrpc_sync_run_group` (`siorpc.py:72-75`) carry no `return_url` either: one that did would be saved, and returned only after the next start.
- After a start that cannot sort its records the model stays down. In the source the exception stays in the deferred of `startService`, so the process lives on half started, without the callbacks for workers, and can still accept groups.
- A group with a contest weight below 1 fails an assertion in `updateContest`; the model assumes weights of at least 1.
- Returning a result is a success or a failure per attempt; HTTP, multipart encoding and the age of records are not modelled.
- The worker-side checks of `sio/protocol/worker.py`, which are weaker than those of the server.
- Netstrings, JSON, XML-RPC, Twisted and Berkeley DB: FIFO channels, values, and a volatile and a durable map stand for them.
- The shell beyond token recognition: expansions, and words with unquoted `$`, backquote, double quote, newline or a leading `#`, for which `Tokens` gives none.
- Whether a sandbox needs to be installed is an arbitrary answer, except that a positive one needs the directory; downloads, archives and fixups are one step each.
- Process execution, sio2jail and PRoot command lines, temporary directories, ELF patching, compilers, checkers and result tables.
- Amounts of RAM and limits are natural numbers; negative limits are not modelled.

/**
 The task manager as an object (taskmanager.py:104-269), with the worker manager and the scheduler that it
 moves. For each reactor event of `ServerInvariant` there is a method that takes the three objects from the
 value before the event to the value after it (`Reacts`), so what is proved of reachable servers holds of them.
 */
module TaskManager {
  import opened Types
  import M = ManagerModel
  import opened ManagerSteps
  import opened SchedulerState
  import opened Scheduling
  import Coupling
  import Matching
  import opened V = Server
  import SI = ServerInvariant
  import opened EventPlans
  import PS = PrioritizingScheduler
  import WM = WorkerManager

  class TaskManager {
    const workerm: WM.WorkerManager
    const scheduler: PS.PrioritizingScheduler
    var inProgress: Items
    var groups: Groups

    ghost predicate Valid()
      reads workerm, workerm.workerData.Values, scheduler`workers, scheduler`workerValues, scheduler.workers.Values
    {
      workerm.Valid() && scheduler.Valid() && scheduler.manager == workerm
    }

    /** The objects have the values of server `v`, and nothing has gone wrong. */
    ghost predicate Is(v: V.Server)
      reads this, workerm, scheduler, scheduler.virtualCpuTasks, scheduler.bothTasks, scheduler.waitingRealCpuTasks
    {
      && workerm.Model() == v.manager && scheduler.Model() == v.sched
      && inProgress == v.inProgress && groups == v.groups && v.fault == NoFault
    }

    constructor (manager: WM.WorkerManager, sched: PS.PrioritizingScheduler)
      requires manager.Valid() && sched.Valid() && sched.manager == manager
      ensures Valid() && inProgress == map[] && groups == map[]
      ensures workerm == manager && scheduler == sched
      ensures manager.Model() == NO_WORKERS && sched.Model() == SchedulerState.INITIAL ==> Is(SI.START)
    {
      workerm, scheduler, inProgress, groups := manager, sched, map[], map[];
    }

    /** The loop of `_tryExecute` over what `schedule` returned. */
    method SendAll(jobs: seq<Association>) returns (fault: Fault)
      requires workerm.Valid()
      modifies workerm, workerm.workerData.Values
      ensures workerm.Valid() && unchanged(workerm`workerData)
      ensures match Coupling.SendAll(old(workerm.Model()), jobs, KindsIn(inProgress))
              case SentAll(m) => fault == NoFault && workerm.Model() == m
              case Stopped(e) => fault == GuardRaised(e)
              case NoEnvironment(x) => fault == NoEnvironmentFor(x)
    {
      ghost var m, kinds := workerm.Model(), KindsIn(inProgress);
      ghost var all := Coupling.SendAll(m, jobs, kinds);
      for i := 0 to |jobs|
        invariant workerm.Valid() && unchanged(workerm`workerData)
        invariant all == Coupling.SendAll(workerm.Model(), jobs[i..], kinds)
      {
        var (x, w) := jobs[i];
        assert jobs[i..][0] == jobs[i] && jobs[i..][1..] == jobs[i + 1..];
        if x !in inProgress || !inProgress[x].Single? { return NoEnvironmentFor(x); }
        var error := workerm.RunTask(w, x, inProgress[x].job.realCpu);
        if error.Some? { return GuardRaised(error.value); }
      }
      return NoFault;
    }

    /** The table changes; the two other objects do not notice. */
    method SetItems(items: Items)
      requires Valid()
      modifies `inProgress
      ensures Valid() && inProgress == items
      ensures workerm.Model() == old(workerm.Model()) && scheduler.Model() == old(scheduler.Model())
    {
      inProgress := items;
      WM.Untouched(workerm);
      PS.Untouched(scheduler);
    }

    method SetGroup(gid: TaskId, g: Group)
      requires Valid()
      modifies `groups
      ensures Valid() && groups == old(groups)[gid := g]
      ensures workerm.Model() == old(workerm.Model()) && scheduler.Model() == old(scheduler.Model())
    {
      groups := groups[gid := g];
      WM.Untouched(workerm);
      PS.Untouched(scheduler);
    }

    method AddJob(job: Job, c: ContestId, group: TaskId)
      requires Valid() && c in scheduler.contests && job.id !in scheduler.tasks
      modifies this`inProgress, scheduler`tasks, scheduler`sequenceCounter, scheduler.virtualCpuTasks,
               scheduler.bothTasks
      ensures Valid() && scheduler.tasks.Keys == old(scheduler.tasks).Keys + {job.id}
      ensures scheduler.Model() == AddTask(old(scheduler.Model()), job, c)
      ensures inProgress == old(inProgress)[job.id := Single(job, c, group)]
    {
      AddToScheduler(job, c);
      SetItems(inProgress[job.id := Single(job, c, group)]);
    }

    /** `addTask`; the worker manager does not notice. */
    method AddToScheduler(job: Job, c: ContestId)
      requires Valid() && c in scheduler.contests && job.id !in scheduler.tasks
      modifies scheduler`tasks, scheduler`sequenceCounter, scheduler.virtualCpuTasks, scheduler.bothTasks
      ensures Valid() && scheduler.tasks.Keys == old(scheduler.tasks).Keys + {job.id}
      ensures scheduler.Model() == AddTask(old(scheduler.Model()), job, c)
    {
      scheduler.AddTask(job, c);
      assert scheduler.Model().tasks.Keys == old(scheduler.tasks).Keys + {job.id};
      WM.Untouched(workerm);
    }

    /** The loop of `_addGroup`: each job is given to the scheduler and to the table. */
    method AddGroupJobs(jobs: seq<Job>, c: ContestId, group: TaskId)
      requires Valid() && c in scheduler.contests
      requires forall i | 0 <= i < |jobs| :: jobs[i].id !in scheduler.tasks
      requires forall i, j | 0 <= i < j < |jobs| :: jobs[i].id != jobs[j].id
      modifies this`inProgress, scheduler`tasks, scheduler`sequenceCounter, scheduler.virtualCpuTasks,
               scheduler.bothTasks
      ensures Valid() && scheduler.Model() == AddJobs(old(scheduler.Model()), jobs, c)
      ensures inProgress == DeferJobs(old(inProgress), jobs, c, group)
    {
      ghost var s, items := AddJobs(scheduler.Model(), jobs, c), DeferJobs(inProgress, jobs, c, group);
      for i := 0 to |jobs|
        invariant Valid()
        invariant forall k | i <= k < |jobs| :: jobs[k].id !in scheduler.tasks
        invariant AddJobs(scheduler.Model(), jobs[i..], c) == s
        invariant DeferJobs(inProgress, jobs[i..], c, group) == items
      {
        assert jobs[i..][0] == jobs[i] && jobs[i..][1..] == jobs[i + 1..];
        AddJob(jobs[i], c, group);
      }
    }

    /** The task can be taken off its worker, if it has one. */
    ghost predicate Deletable(x: TaskId)
      reads scheduler
    {
      && x in scheduler.tasks && scheduler.tasks[x].id == x
      && (x in scheduler.assignedWorker ==>
            scheduler.assignedWorker[x] in scheduler.workers && scheduler.assignedWorker[x] in scheduler.workerValues
            && scheduler.workerValues[scheduler.assignedWorker[x]].CanDetach(scheduler.tasks[x]))
    }

    /** `_free`; the scheduler does not notice. */
    method FreeCall(x: TaskId) returns (impossible: bool)
      requires Valid() && x in workerm.deferreds
      modifies workerm`deferreds, workerm`records, workerm`calls, workerm.deferreds[x].wd
      ensures Valid()
      ensures workerm.Model() == Free(old(workerm.Model()), x)
      ensures impossible == Impossible(old(workerm.deferreds[x].wd.Model()), x)
      ensures old(workerm.deferreds[x].wd).Model() == FreeSlot(old(workerm.deferreds[x].wd.Model()), x)
      ensures workerm.deferreds == old(workerm.deferreds) - {x} && scheduler.Model() == old(scheduler.Model())
    {
      impossible := workerm.FreeTask(x);
      PS.Untouched(scheduler);
    }

    /** `delTask`; the worker manager does not notice. */
    method DropTask(x: TaskId)
      requires Valid() && Deletable(x)
      modifies scheduler, scheduler.workers.Values, scheduler.virtualCpuTasks, scheduler.bothTasks,
               scheduler.waitingRealCpuTasks
      ensures Valid() && unchanged(scheduler`workers) && scheduler.Model() == DelTask(old(scheduler.Model()), x)
    {
      scheduler.DelTask(x);
      WM.Untouched(workerm);
    }

    method CallOver(x: TaskId, ghost m: M.Manager, ghost s: State, ghost wd: M.WorkerData)
      returns (impossible: bool)
      requires Valid() && x in workerm.deferreds && Deletable(x)
      requires workerm.Model() == m && scheduler.Model() == s && workerm.deferreds[x].wd.Model() == wd
      modifies workerm, workerm.deferreds[x].wd, scheduler, scheduler.workers.Values,
               scheduler.virtualCpuTasks, scheduler.bothTasks, scheduler.waitingRealCpuTasks
      ensures Valid() && unchanged(workerm`workerData) && unchanged(scheduler`workers)
      ensures workerm.Model() == Free(m, x) && scheduler.Model() == DelTask(s, x)
      ensures impossible == Impossible(wd, x)
    {
      impossible := FreeCall(x);
      DropTask(x);
    }

    /** A call is over: `_free`, and what `_taskDone` does before it schedules again. */
    method TaskDone(x: TaskId, ghost m: M.Manager, ghost s: State, ghost wd: M.WorkerData)
      returns (impossible: bool)
      requires Valid() && x in workerm.deferreds && x in inProgress && Deletable(x)
      requires workerm.Model() == m && scheduler.Model() == s && workerm.deferreds[x].wd.Model() == wd
      modifies this`inProgress, workerm, workerm.deferreds[x].wd, scheduler, scheduler.workers.Values,
               scheduler.virtualCpuTasks, scheduler.bothTasks, scheduler.waitingRealCpuTasks
      ensures Valid() && unchanged(workerm`workerData) && unchanged(scheduler`workers)
      ensures workerm.Model() == Free(m, x) && scheduler.Model() == DelTask(s, x)
      ensures inProgress == old(inProgress) - {x}
      ensures impossible == Impossible(wd, x)
    {
      SetItems(inProgress - {x});
      impossible := CallOver(x, m, s, wd);
    }

    // ----- scheduling and sending

    lemma ManagerKnown(m: M.Manager)
      requires Valid() && workerm.Model() == m
      ensures scheduler.Valid() && scheduler.ManagerIs(m)
    {
      WM.ValidAnnounced(workerm);
    }

    /** `schedule` writes nothing of the worker manager. */
    method CallScheduler(ghost m: M.Manager, ghost s: State, ghost jobs: seq<Association>, ghost s': State)
      returns (result: seq<Association>)
      requires scheduler.Valid() && scheduler.ManagerIs(m) && scheduler.Model() == s
      requires Schedules(s, m, scheduler.random, jobs, s')
      modifies scheduler, scheduler.workers.Values, scheduler.virtualCpuTasks, scheduler.bothTasks,
               scheduler.waitingRealCpuTasks
      ensures scheduler.Valid() && unchanged(scheduler`workers) && result == jobs && scheduler.Model() == s'
      ensures unchanged(workerm) && unchanged(workerm.workerData.Values)
    {
      result := scheduler.Schedule(s, m, jobs, s');
    }

    method ScheduleJobs(ghost m: M.Manager, ghost s: State, ghost jobs: seq<Association>, ghost s': State)
      returns (result: seq<Association>)
      requires Valid() && workerm.Model() == m && scheduler.Model() == s
      requires Schedules(s, m, scheduler.random, jobs, s')
      modifies scheduler, scheduler.workers.Values, scheduler.virtualCpuTasks, scheduler.bothTasks,
               scheduler.waitingRealCpuTasks
      ensures Valid() && unchanged(scheduler`workers) && result == jobs && scheduler.Model() == s'
    {
      ManagerKnown(m);
      result := CallScheduler(m, s, jobs, s');
      WM.Untouched(workerm);
    }

    method SendJobs(jobs: seq<Association>, ghost m: M.Manager, ghost m': M.Manager)
      requires Valid() && workerm.Model() == m
      requires Coupling.SendAll(m, jobs, KindsIn(inProgress)) == Coupling.SentAll.SentAll(m')
      modifies workerm, workerm.workerData.Values
      ensures Valid() && unchanged(workerm`workerData) && workerm.Model() == m'
    {
      var fault := SendAll(jobs);
      assert fault == NoFault;
      PS.Untouched(scheduler);
    }

    /** `_tryExecute`, where nothing that it sends is refused. */
    method TryExecute(ghost m: M.Manager, ghost s: State, ghost jobs: seq<Association>, ghost m': M.Manager,
                      ghost s': State)
      requires Valid() && workerm.Model() == m && scheduler.Model() == s
      requires Schedules(s, m, scheduler.random, jobs, s')
      requires Coupling.SendAll(m, jobs, KindsIn(inProgress)) == Coupling.SentAll.SentAll(m')
      modifies workerm, workerm.workerData.Values, scheduler, scheduler.workers.Values,
               scheduler.virtualCpuTasks, scheduler.bothTasks, scheduler.waitingRealCpuTasks
      ensures Valid() && unchanged(workerm`workerData) && unchanged(scheduler`workers)
      ensures workerm.Model() == m' && scheduler.Model() == s'
    {
      var sent := ScheduleJobs(m, s, jobs, s');
      SendJobs(sent, m, m');
    }

    /** `_tryExecute`, from server to server. */
    method Execute(ghost v: V.Server, ghost v': V.Server)
      requires Valid() && Is(v) && Executes(v, scheduler.random, v')
      modifies workerm, workerm.workerData.Values, scheduler, scheduler.workers.Values,
               scheduler.virtualCpuTasks, scheduler.bothTasks, scheduler.waitingRealCpuTasks
      ensures Valid() && unchanged(workerm`workerData) && unchanged(scheduler`workers) && Is(v')
    {
      ghost var jobs, m', s' := ExecutePlan(v, scheduler.random, v');
      TryExecute(v.manager, v.sched, jobs, m', s');
    }

    // ----- a call ends

    /** `_collect`, and the group leaves the table. */
    method CloseGroup(gid: TaskId, ghost v: V.Server)
      requires Is(v) && gid in v.groups && Matching.Distinct(v.groups[gid].jobs) && AllFired(v.groups[gid])
      modifies `groups, `inProgress
      ensures Is(v.(groups := v.groups[gid := SI.WithCollected(v.groups[gid])], inProgress := v.inProgress - {gid}))
    {
      var g := groups[gid];
      var c := CollectGroup(g.jobs, g.outcomes);
      groups := groups[gid := g.(collected := Some(c))];
      inProgress := inProgress - {gid};
    }

    /** `_collect` and the `_taskDone` of the group. */
    method FinishGroup(gid: TaskId, ghost v: V.Server, ghost v': V.Server)
      requires Valid() && Is(v) && Finishes(v, gid, scheduler.random, v')
      modifies this, workerm, workerm.workerData.Values, scheduler, scheduler.workers.Values,
               scheduler.virtualCpuTasks, scheduler.bothTasks, scheduler.waitingRealCpuTasks
      ensures Valid() && unchanged(workerm`workerData) && unchanged(scheduler`workers) && Is(v')
    {
      ghost var u := FinishPlan(v, gid, scheduler.random, v');
      CloseGroup(gid, v);
      Execute(u, v');
    }

    /** The deferred of a task fires; the last one of its group finishes the group. */
    method Gather(gid: TaskId, x: TaskId, o: Outcome, ghost v: V.Server, ghost v': V.Server)
      requires Valid() && Is(v) && Gathers(v, gid, x, o, scheduler.random, v')
      modifies this, workerm, workerm.workerData.Values, scheduler, scheduler.workers.Values,
               scheduler.virtualCpuTasks, scheduler.bothTasks, scheduler.waitingRealCpuTasks
      ensures Valid() && unchanged(workerm`workerData) && unchanged(scheduler`workers) && Is(v')
    {
      ghost var u := GatherPlan(v, gid, x, o, scheduler.random, v');
      groups := groups[gid := groups[gid].(outcomes := groups[gid].outcomes[x := o])];
      if AllFired(groups[gid]) {
        FinishGroup(gid, u, v');
      }
    }

    /** All that happens before the tasks that are left are scheduled again. */
    method EndCall(x: TaskId, ghost v: V.Server)
      requires Valid() && Is(v) && x in inProgress && Deletable(x) && x in workerm.deferreds
      requires workerm.deferreds[x].wd in workerm.workerData.Values && !Impossible(workerm.deferreds[x].wd.Model(), x)
      modifies `inProgress, workerm, workerm.workerData.Values, scheduler, scheduler.workers.Values,
               scheduler.virtualCpuTasks, scheduler.bothTasks, scheduler.waitingRealCpuTasks
      ensures Valid() && unchanged(workerm`workerData) && unchanged(scheduler`workers)
      ensures workerm.Model() == Free(v.manager, x) && scheduler.Model() == DelTask(v.sched, x)
      ensures inProgress == v.inProgress - {x} && groups == v.groups
    {
      var impossible := TaskDone(x, v.manager, v.sched, workerm.deferreds[x].wd.Model());
      assert !impossible;
    }

    /** A reply, a remote error or a timeout. */
    method CallEnds(x: TaskId, o: Outcome, ghost v: V.Server, ghost v': V.Server)
      requires Valid() && Is(v) && Reacts(v, SI.CallEnds(x, o), scheduler.random, v')
      modifies this, workerm, workerm.workerData.Values, scheduler, scheduler.workers.Values,
               scheduler.virtualCpuTasks, scheduler.bothTasks, scheduler.waitingRealCpuTasks
      ensures Valid() && unchanged(workerm`workerData) && unchanged(scheduler`workers) && Is(v')
    {
      ghost var freed, t := CallPlan(v, x, o, scheduler.random, v');
      var gid := inProgress[x].group;
      CallKnown(x);
      EndCall(x, v);
      Execute(freed, t);
      Gather(gid, x, o, t, v');
    }

    // ----- a worker is lost

    /** All calls that were sent to worker `id` hold on to its record, which is not registered. */
    ghost predicate Detached(id: WorkerId, wd: WM.Worker)
      reads workerm
    {
      && wd !in workerm.workerData.Values
      && forall x | x in workerm.deferreds && workerm.deferreds[x].worker == id :: workerm.deferreds[x].wd == wd
    }

    method ForgetLost(id: WorkerId) returns (wd: WM.Worker)
      requires Valid() && id in workerm.workerData
      modifies workerm`order, workerm`workerData, workerm`records
      ensures Valid() && workerm.Model() == Forget(old(workerm.Model()), id)
      ensures scheduler.Model() == old(scheduler.Model())
      ensures wd == old(workerm.workerData[id]) && workerm.workerData == old(workerm.workerData) - {id}
      ensures Detached(id, wd)
    {
      wd := workerm.ForgetWorker(id);
      PS.Untouched(scheduler);
    }

    /** `_retry_on_disconnect`: the scheduler forgets the task and gets it anew; it stays in the table. */
    method Retry(x: TaskId, ghost s: State)
      requires Valid() && Deletable(x) && scheduler.Model() == s
      requires x in inProgress && inProgress[x].Single? && inProgress[x].job.id == x
      requires inProgress[x].contest in scheduler.contests
      modifies scheduler, scheduler.workers.Values, scheduler.virtualCpuTasks, scheduler.bothTasks,
               scheduler.waitingRealCpuTasks
      ensures Valid() && unchanged(scheduler`workers) && unchanged(workerm)
      ensures scheduler.Model() == AddTask(DelTask(s, x), inProgress[x].job, inProgress[x].contest)
    {
      DropTask(x);
      OnlyTaskDeleted(s, x);
      Readd(inProgress[x].job, inProgress[x].contest, DelTask(s, x));
    }

    method Readd(job: Job, c: ContestId, ghost s: State)
      requires Valid() && scheduler.Model() == s && c in s.contests && job.id !in s.tasks
      modifies scheduler`tasks, scheduler`sequenceCounter, scheduler.virtualCpuTasks, scheduler.bothTasks
      ensures Valid() && scheduler.Model() == AddTask(s, job, c)
    {
      AddToScheduler(job, c);
    }

    /** `_free` and `_retry_on_disconnect` for one of its calls. */
    method RetryCall(x: TaskId, id: WorkerId, wd: WM.Worker, ghost m: M.Manager, ghost s: State)
        returns (impossible: bool)
      requires Valid() && Detached(id, wd) && x in workerm.deferreds && workerm.deferreds[x].worker == id
      requires Deletable(x)
      requires workerm.Model() == m && id !in m.data && scheduler.Model() == s
      requires x in inProgress && inProgress[x].Single? && inProgress[x].job.id == x
      requires inProgress[x].contest in scheduler.contests
      modifies workerm`deferreds, workerm`records, workerm`calls, wd, scheduler, scheduler.workers.Values,
               scheduler.virtualCpuTasks, scheduler.bothTasks, scheduler.waitingRealCpuTasks
      ensures Valid() && Detached(id, wd) && unchanged(scheduler`workers)
      ensures workerm.Model() == m.(calls := m.calls - {x})
      ensures scheduler.Model() == AddTask(DelTask(s, x), inProgress[x].job, inProgress[x].contest)
      ensures impossible == Impossible(old(wd.Model()), x) && wd.Model() == FreeSlot(old(wd.Model()), x)
    {
      impossible := FreeCall(x);
      Retry(x, s);
    }

    /** The loop of `workerLost` over the tasks of the record, in the order in which the set yields them. */
    method RetryCalls(order: seq<TaskId>, id: WorkerId, wd: WM.Worker, ghost m: M.Manager, ghost r: V.Retry,
                      ghost r': V.Retry)
      returns (impossible: bool)
      requires Valid() && Detached(id, wd) && id !in m.data && workerm.Model() == m.(calls := r.calls)
      requires scheduler.Model() == r.s && wd.Model() == r.wd && !r.impossible && Retries(r, id, order, inProgress, r')
      modifies workerm`deferreds, workerm`records, workerm`calls, wd, scheduler, scheduler.workers.Values,
               scheduler.virtualCpuTasks, scheduler.bothTasks, scheduler.waitingRealCpuTasks
      ensures Valid() && unchanged(scheduler`workers)
      ensures workerm.Model() == m.(calls := r'.calls) && scheduler.Model() == r'.s && impossible == r'.impossible
    {
      impossible := false;
      ghost var now := r;
      assert order[0..] == order;
      for i := 0 to |order|
        invariant Valid() && unchanged(scheduler`workers) && Detached(id, wd)
        invariant workerm.Model() == m.(calls := now.calls)
        invariant scheduler.Model() == now.s && wd.Model() == now.wd && impossible == now.impossible
        invariant Retries(now, id, order[i..], inProgress, r')
      {
        var x := order[i];
        assert order[i..][0] == x && order[i..][1..] == order[i + 1..];
        ghost var next := RetryPlan(now, id, order[i..], inProgress, r');
        var amiss := RetryCall(x, id, wd, m.(calls := now.calls), now.s);
        impossible := impossible || amiss;
        now := next;
      }
      assert order[|order|..] == [];
      RetriesDone(now, id, inProgress, r');
    }

    /** `_updateWorkerStats` at the end of `workerLost`. */
    method RefreshStats(ghost m: M.Manager)
      requires Valid() && workerm.Model() == m
      modifies workerm`minAnyCpuWorkerRam, workerm`maxAnyCpuWorkerRam, workerm`minVcpuOnlyWorkerRam,
               workerm`maxVcpuOnlyWorkerRam
      ensures Valid() && workerm.Model() == M.UpdateStats(m) && scheduler.Model() == old(scheduler.Model())
    {
      workerm.UpdateWorkerStats();
      WM.CurrentIs(m, workerm.Model());
      PS.Untouched(scheduler);
    }

    /** `_lostWorker`, up to `_tryExecute`. */
    method DropWorker(id: WorkerId, ghost s: State)
      requires Valid() && scheduler.Model() == s && id in s.workers && s.workers[id].running == 0
      modifies scheduler`workers, scheduler`workerValues, scheduler`vcpuOnlyQueue, scheduler`anyCpuQueue
      ensures Valid() && scheduler.Model() == DelWorker(s, id) && scheduler.workers == old(scheduler.workers) - {id}
    {
      scheduler.DelWorker(id);
      WM.Untouched(workerm);
    }

    /** `workerLost`, up to the statistics. */
    method ReleaseWorker(id: WorkerId, order: seq<TaskId>, ghost v: V.Server, ghost r: V.Retry)
      requires Valid() && Is(v) && id in v.manager.data && Retries(SI.Loss(v, id), id, order, v.inProgress, r)
      requires !r.impossible
      modifies workerm, workerm.workerData.Values, scheduler, scheduler.workers.Values,
               scheduler.virtualCpuTasks, scheduler.bothTasks, scheduler.waitingRealCpuTasks
      ensures Valid() && workerm.workerData == old(workerm.workerData) - {id} && unchanged(scheduler`workers)
      ensures workerm.Model() == Forget(v.manager, id).(calls := r.calls) && scheduler.Model() == r.s
    {
      var wd := ForgetLost(id);
      var impossible := RetryCalls(order, id, wd, Forget(v.manager, id), SI.Loss(v, id), r);
      assert !impossible;
    }

    /** The end of `workerLost`, and `_lostWorker` up to `_tryExecute`. */
    method DismissWorker(id: WorkerId, ghost m: M.Manager, ghost s: State)
      requires Valid() && workerm.Model() == m && scheduler.Model() == s && id in s.workers
      requires s.workers[id].running == 0
      modifies workerm`minAnyCpuWorkerRam, workerm`maxAnyCpuWorkerRam, workerm`minVcpuOnlyWorkerRam,
               workerm`maxVcpuOnlyWorkerRam,
               scheduler`workers, scheduler`workerValues, scheduler`vcpuOnlyQueue, scheduler`anyCpuQueue
      ensures Valid() && unchanged(workerm`workerData) && scheduler.workers == old(scheduler.workers) - {id}
      ensures workerm.Model() == M.UpdateStats(m) && scheduler.Model() == DelWorker(s, id)
    {
      RefreshStats(m);
      DropWorker(id, s);
    }

    /** `workerLost` and `_lostWorker`, up to `_tryExecute`. */
    method LoseWorker(id: WorkerId, order: seq<TaskId>, ghost v: V.Server, ghost r: V.Retry)
      requires Valid() && Is(v) && id in v.manager.data && Retries(SI.Loss(v, id), id, order, v.inProgress, r)
      requires !r.impossible
      requires id in r.s.workers && r.s.workers[id].running == 0
      modifies workerm, workerm.workerData.Values, scheduler, scheduler.workers.Values,
               scheduler.virtualCpuTasks, scheduler.bothTasks, scheduler.waitingRealCpuTasks
      ensures Valid() && workerm.workerData == old(workerm.workerData) - {id}
      ensures scheduler.workers == old(scheduler.workers) - {id}
      ensures workerm.Model() == M.UpdateStats(Forget(v.manager, id).(calls := r.calls))
      ensures scheduler.Model() == DelWorker(r.s, id)
    {
      ReleaseWorker(id, order, v, r);
      DismissWorker(id, Forget(v.manager, id).(calls := r.calls), r.s);
    }

    /** A worker's connection is lost. */
    method WorkerLost(id: WorkerId, order: seq<TaskId>, ghost v: V.Server, ghost v': V.Server)
      requires Valid() && Is(v) && Reacts(v, SI.WorkerLost(id, order), scheduler.random, v')
      modifies workerm, workerm.workerData.Values, scheduler, scheduler.workers.Values,
               scheduler.virtualCpuTasks, scheduler.bothTasks, scheduler.waitingRealCpuTasks
      ensures Valid() && Is(v')
      ensures forall w | w in workerm.workerData.Values :: w in old(workerm.workerData.Values) || fresh(w)
      ensures forall w | w in scheduler.workers.Values :: w in old(scheduler.workers.Values) || fresh(w)
    {
      ghost var r, gone := LosePlan(v, id, order, scheduler.random, v');
      GoOnWithout(id, order, v, r, gone, v');
    }

    method GoOnWithout(id: WorkerId, order: seq<TaskId>, ghost v: V.Server, ghost r: V.Retry, ghost gone: V.Server,
                       ghost v': V.Server)
      requires Valid() && Is(v) && id in v.manager.data && Retries(SI.Loss(v, id), id, order, v.inProgress, r)
      requires !r.impossible && id in r.s.workers && r.s.workers[id].running == 0
      requires gone == v.(manager := M.UpdateStats(Forget(v.manager, id).(calls := r.calls)),
                          sched := DelWorker(r.s, id))
      requires Executes(gone, scheduler.random, v')
      modifies workerm, workerm.workerData.Values, scheduler, scheduler.workers.Values,
               scheduler.virtualCpuTasks, scheduler.bothTasks, scheduler.waitingRealCpuTasks
      ensures Valid() && Is(v')
      ensures forall w | w in workerm.workerData.Values :: w in old(workerm.workerData.Values) || fresh(w)
      ensures forall w | w in scheduler.workers.Values :: w in old(scheduler.workers.Values) || fresh(w)
    {
      LoseWorker(id, order, v, r);
      FewerObjects(old(workerm.workerData), id);
      FewerObjects(old(scheduler.workers), id);
      Execute(gone, v');
    }

    // ----- a worker joins

    method EnterWorker(id: WorkerId, ghost s: State)
      requires Valid() && scheduler.Model() == s && id !in s.workers && id in workerm.workerData
      requires workerm.workerData[id].concurrency > 0 && workerm.workerData[id].availableRam > 0
      modifies scheduler`workers, scheduler`workerValues, scheduler`vcpuOnlyQueue, scheduler`anyCpuQueue
      ensures Valid() && forall w | w in scheduler.workers.Values :: w in old(scheduler.workers.Values) || fresh(w)
      ensures var wd := workerm.workerData[id];
              scheduler.Model() == AddWorker(s, id, wd.concurrency, wd.availableRam, wd.canRunCpuExec)
    {
      ghost var infos := scheduler.workers;
      scheduler.AddWorker(id);
      OneMoreObject(infos, id, scheduler.workers[id]);
      WM.Untouched(workerm);
    }

    method RegisterWorker(id: WorkerId, concurrency: nat, ram: nat, cpu: bool, ghost m: M.Manager)
      requires Valid() && workerm.Model() == m && id !in m.data && forall x | x in m.calls :: m.calls[x] != id
      modifies workerm
      ensures Valid() && forall w | w in workerm.workerData.Values :: w in old(workerm.workerData.Values) || fresh(w)
      ensures workerm.Model() == NewWorker(m, id, concurrency, ram, cpu) && scheduler.Model() == old(scheduler.Model())
    {
      ghost var records := workerm.workerData;
      RegisterRecord(id, concurrency, ram, cpu, m);
      OneMoreObject(records, id, workerm.workerData[id]);
    }

    /** `newWorker` writes nothing of the scheduler. */
    method CallRegister(id: WorkerId, concurrency: nat, ram: nat, cpu: bool, ghost m: M.Manager)
      requires workerm.Valid() && workerm.Model() == m && id !in m.data && forall x | x in m.calls :: m.calls[x] != id
      modifies workerm
      ensures workerm.Valid() && id in workerm.workerData && fresh(workerm.workerData[id])
      ensures workerm.workerData == old(workerm.workerData)[id := workerm.workerData[id]]
      ensures workerm.Model() == NewWorker(m, id, concurrency, ram, cpu)
      ensures unchanged(scheduler) && unchanged(scheduler.workers.Values) && unchanged(scheduler.virtualCpuTasks)
      ensures unchanged(scheduler.bothTasks) && unchanged(scheduler.waitingRealCpuTasks)
    {
      workerm.Register(id, concurrency, ram, cpu);
    }

    method RegisterRecord(id: WorkerId, concurrency: nat, ram: nat, cpu: bool, ghost m: M.Manager)
      requires Valid() && workerm.Model() == m && id !in m.data && forall x | x in m.calls :: m.calls[x] != id
      modifies workerm
      ensures Valid() && id in workerm.workerData && fresh(workerm.workerData[id])
      ensures workerm.workerData == old(workerm.workerData)[id := workerm.workerData[id]]
      ensures workerm.Model() == NewWorker(m, id, concurrency, ram, cpu) && scheduler.Model() == old(scheduler.Model())
    {
      CallRegister(id, concurrency, ram, cpu, m);
      PS.Untouched(scheduler);
    }

    /** `newWorker` and `_newWorker`, up to `_tryExecute`. */
    method AdmitWorker(id: WorkerId, concurrency: nat, ram: nat, cpu: bool, ghost m: M.Manager, ghost s: State)
      requires Valid() && workerm.Model() == m && id !in m.data && forall x | x in m.calls :: m.calls[x] != id
      requires scheduler.Model() == s && id !in s.workers && concurrency > 0 && ram > 0
      modifies workerm, scheduler`workers, scheduler`workerValues, scheduler`vcpuOnlyQueue, scheduler`anyCpuQueue
      ensures Valid()
      ensures forall w | w in workerm.workerData.Values :: w in old(workerm.workerData.Values) || fresh(w)
      ensures forall w | w in scheduler.workers.Values :: w in old(scheduler.workers.Values) || fresh(w)
      ensures workerm.Model() == NewWorker(m, id, concurrency, ram, cpu)
      ensures scheduler.Model() == AddWorker(s, id, concurrency, ram, cpu)
    {
      RegisterWorker(id, concurrency, ram, cpu, m);
      NewWorkerIs(m, id, concurrency, ram, cpu);
      RecordKnown(id);
      EnterWorker(id, s);
    }

    /** A worker has registered. */
    method WorkerJoins(id: WorkerId, concurrency: nat, ram: nat, cpu: bool, ghost v: V.Server, ghost v': V.Server)
      requires Valid() && Is(v) && Reacts(v, SI.WorkerJoins(id, concurrency, ram, cpu), scheduler.random, v')
      modifies workerm, workerm.workerData.Values, scheduler, scheduler.workers.Values,
               scheduler.virtualCpuTasks, scheduler.bothTasks, scheduler.waitingRealCpuTasks
      ensures Valid() && Is(v')
      ensures forall w | w in workerm.workerData.Values :: w in old(workerm.workerData.Values) || fresh(w)
      ensures forall w | w in scheduler.workers.Values :: w in old(scheduler.workers.Values) || fresh(w)
    {
      ghost var joined := JoinPlan(v, id, concurrency, ram, cpu, scheduler.random, v');
      GoOnWith(id, concurrency, ram, cpu, v, joined, v');
    }

    method GoOnWith(id: WorkerId, concurrency: nat, ram: nat, cpu: bool, ghost v: V.Server, ghost joined: V.Server,
                    ghost v': V.Server)
      requires Valid() && Is(v) && id !in v.manager.data && id !in v.sched.workers && concurrency > 0 && ram > 0
      requires forall x | x in v.manager.calls :: v.manager.calls[x] != id
      requires joined == Join(v, id, concurrency, ram, cpu) && Executes(joined, scheduler.random, v')
      modifies workerm, workerm.workerData.Values, scheduler, scheduler.workers.Values,
               scheduler.virtualCpuTasks, scheduler.bothTasks, scheduler.waitingRealCpuTasks
      ensures Valid() && Is(v')
      ensures forall w | w in workerm.workerData.Values :: w in old(workerm.workerData.Values) || fresh(w)
      ensures forall w | w in scheduler.workers.Values :: w in old(scheduler.workers.Values) || fresh(w)
    {
      AdmitWorker(id, concurrency, ram, cpu, v.manager, v.sched);
      Execute(joined, v');
    }

    // ----- a group is submitted

    /** `updateContest`; the worker manager does not notice. */
    method EnterContest(c: ContestId, priority: int, weight: nat)
      requires Valid() && weight >= 1
      modifies scheduler`contests
      ensures Valid() && c in scheduler.contests && workerm.Model() == old(workerm.Model())
      ensures scheduler.Model() == UpdateContest(old(scheduler.Model()), c, priority, weight)
    {
      scheduler.UpdateContest(c, priority, weight);
      WM.Untouched(workerm);
    }

    /** `_addGroup`, up to `_tryExecute`. */
    method EnterGroup(gid: TaskId, jobs: seq<Job>, c: ContestId, priority: int, weight: nat, ghost v: V.Server)
      requires Valid() && Is(v) && weight >= 1 && forall i | 0 <= i < |jobs| :: jobs[i].id !in v.sched.tasks
      requires forall i, j | 0 <= i < j < |jobs| :: jobs[i].id != jobs[j].id
      modifies this, scheduler`contests, scheduler`tasks, scheduler`sequenceCounter, scheduler.virtualCpuTasks,
               scheduler.bothTasks
      ensures Valid() && Is(Submitted(v, gid, jobs, c, priority, weight))
    {
      EnterContest(c, priority, weight);
      AddGroupJobs(jobs, c, gid);
      SetItems(inProgress[gid := Whole]);
      SetGroup(gid, Group(JobIds(jobs), map[], None));
    }

    /** A group is submitted; one without jobs is finished at once. */
    method SubmitGroup(gid: TaskId, jobs: seq<Job>, c: ContestId, priority: int, weight: nat, ghost v: V.Server,
                       ghost v': V.Server)
      requires Valid() && Is(v) && Reacts(v, SI.SubmitGroup(gid, jobs, c, priority, weight), scheduler.random, v')
      modifies this, workerm, workerm.workerData.Values, scheduler, scheduler.workers.Values,
               scheduler.virtualCpuTasks, scheduler.bothTasks, scheduler.waitingRealCpuTasks
      ensures Valid() && Is(v') && unchanged(workerm`workerData) && unchanged(scheduler`workers)
    {
      ghost var t := SubmitPlan(v, gid, jobs, c, priority, weight, scheduler.random, v');
      EnterGroup(gid, jobs, c, priority, weight, v);
      GoOnWithGroup(gid, jobs, Submitted(v, gid, jobs, c, priority, weight), t, v');
    }

    method GoOnWithGroup(gid: TaskId, jobs: seq<Job>, ghost v: V.Server, ghost t: V.Server, ghost v': V.Server)
      requires Valid() && Is(v) && Executes(v, scheduler.random, t)
      requires if jobs == [] then Finishes(t, gid, scheduler.random, v') else v' == t
      modifies this, workerm, workerm.workerData.Values, scheduler, scheduler.workers.Values,
               scheduler.virtualCpuTasks, scheduler.bothTasks, scheduler.waitingRealCpuTasks
      ensures Valid() && Is(v') && unchanged(workerm`workerData) && unchanged(scheduler`workers)
    {
      Execute(v, t);
      if jobs == [] {
        FinishGroup(gid, t, v');
      }
    }

    // ----- all events

    method React(e: SI.Event, ghost v: V.Server, ghost v': V.Server)
      requires Valid() && Is(v) && Reacts(v, e, scheduler.random, v')
      modifies this, workerm, workerm.workerData.Values, scheduler, scheduler.workers.Values,
               scheduler.virtualCpuTasks, scheduler.bothTasks, scheduler.waitingRealCpuTasks
      ensures Valid() && Is(v')
      ensures forall w | w in workerm.workerData.Values :: w in old(workerm.workerData.Values) || fresh(w)
      ensures forall w | w in scheduler.workers.Values :: w in old(scheduler.workers.Values) || fresh(w)
    {
      match e {
        case SubmitGroup(gid, jobs, c, priority, weight) => SubmitGroup(gid, jobs, c, priority, weight, v, v');
        case CallEnds(x, o) => CallEnds(x, o, v, v');
        case WorkerJoins(w, concurrency, ram, cpu) => WorkerJoins(w, concurrency, ram, cpu, v, v');
        case WorkerLost(id, order) => WorkerLost(id, order, v, v');
      }
    }

    lemma RecordKnown(id: WorkerId)
      requires Valid() && id in workerm.Model().data
      ensures id in workerm.workerData && workerm.workerData[id].Model() == workerm.Model().data[id]
    {
    }

    /** The call of a registered worker refers to its record. */
    lemma CallKnown(x: TaskId)
      requires Valid() && x in workerm.Model().calls && workerm.Model().calls[x] in workerm.Model().data
      ensures x in workerm.deferreds && workerm.deferreds[x].wd in workerm.workerData.Values
      ensures workerm.deferreds[x].wd.Model() == workerm.Model().data[workerm.Model().calls[x]]
    {
      assert workerm.deferreds[x].worker in workerm.workerData;
    }
  }

  lemma LastApart<T>(before: seq<T>, e: T, es: seq<T>)
    requires es != [] && before == es[..|es| - 1] && e == es[|es| - 1]
    ensures es == before + [e] && |before| < |es|
  {
  }

  /** The three objects, as they are before the first event. */
  method StartServer(generator: Generator) returns (tm: TaskManager)
    ensures tm.Valid() && tm.Is(SI.START) && tm.scheduler.random == generator
    ensures fresh(tm) && fresh(tm.workerm) && fresh(tm.workerm.workerData.Values)
    ensures fresh(tm.scheduler) && fresh(tm.scheduler.workers.Values) && fresh(tm.scheduler.virtualCpuTasks)
    ensures fresh(tm.scheduler.bothTasks) && fresh(tm.scheduler.waitingRealCpuTasks)
  {
    var manager := new WM.WorkerManager();
    var sched := new PS.PrioritizingScheduler(manager, generator);
    tm := new TaskManager(manager, sched);
  }

  /** Objects that are built and then go through any run of events have the value that the run leads to. */
  method Serve(es: seq<SI.Event>, generator: Generator) returns (tm: TaskManager)
    requires CanRun(es, generator)
    ensures tm.Valid() && tm.Is(SI.RunServer(es, generator)) && tm.scheduler.random == generator
    ensures fresh(tm) && fresh(tm.workerm) && fresh(tm.workerm.workerData.Values)
    ensures fresh(tm.scheduler) && fresh(tm.scheduler.workers.Values) && fresh(tm.scheduler.virtualCpuTasks)
    ensures fresh(tm.scheduler.bothTasks) && fresh(tm.scheduler.waitingRealCpuTasks)
    decreases |es|
  {
    if es == [] {
      tm := StartServer(generator);
    } else {
      var before, e := es[..|es| - 1], es[|es| - 1];
      LastApart(before, e, es);
      ghost var v, v' := LastReacts(before, e, es, generator);
      tm := Serve(before, generator);
      ghost var records, infos := tm.workerm.workerData.Values, tm.scheduler.workers.Values;
      tm.React(e, v, v');
      assert forall w | w in tm.workerm.workerData.Values :: w in records || fresh(w);
      assert forall w | w in tm.scheduler.workers.Values :: w in infos || fresh(w);
    }
  }

  lemma OnlyTaskDeleted(s: State, x: TaskId)
    requires Droppable(s, x)
    ensures x !in DelTask(s, x).tasks && DelTask(s, x).contests == s.contests
  {
    var rest, t := s.(tasks := s.tasks - {x}), s.tasks[x];
    if x in s.runsOn {
      assert DetachTask(rest, t).tasks == rest.tasks && DetachTask(rest, t).contests == s.contests;
    } else if t in s.waiting {
      assert RemoveWaiting(rest, t).tasks == rest.tasks && RemoveWaiting(rest, t).contests == s.contests;
    } else {
      assert RemoveTaskFromQueues(rest, t).tasks == rest.tasks && RemoveTaskFromQueues(rest, t).contests == s.contests;
    }
  }

  lemma OneMoreObject<T>(ws: map<WorkerId, T>, id: WorkerId, w: T)
    ensures ws[id := w].Values - ws.Values <= {w}
  {
  }

  lemma FewerObjects<T>(ws: map<WorkerId, T>, id: WorkerId)
    ensures (ws - {id}).Values <= ws.Values
  {
    forall w | w in (ws - {id}).Values ensures w in ws.Values {
      var k :| k in ws - {id} && (ws - {id})[k] == w;
      assert ws[k] == w;
    }
  }

  /** The loop of `_collect`: each job goes to the results or to the failures. */
  method CollectGroup(jobs: seq<TaskId>, outcomes: map<TaskId, Outcome>) returns (c: Collected)
    requires Matching.Distinct(jobs) && forall i | 0 <= i < |jobs| :: jobs[i] in outcomes
    ensures c == Collect(jobs, outcomes)
    ensures forall x :: x in c.results <==> x in jobs && outcomes[x].Done?
    ensures |c.results| + |c.failed| == |jobs|
  {
    var results: map<TaskId, int> := map[];
    var failed: seq<int> := [];
    for i := 0 to |jobs|
      invariant Collected(results, failed) == Collect(jobs[..i], outcomes)
    {
      assert jobs[..i + 1][..i] == jobs[..i];
      match outcomes[jobs[i]]
      case Done(r) => results := results[jobs[i] := r];
      case Failed(e) => failed := failed + [e];
    }
    assert jobs[..|jobs|] == jobs;
    CollectSplits(jobs, outcomes);
    c := Collected(results, failed);
  }
}

/**
 The server as a whole: task manager, worker manager and scheduler, moved by one reactor event at a
 time (taskmanager.py:149-269, workermanager.py:108-172).
 */
module Server {
  import opened Types
  import opened Matching
  import opened TaskQueues
  import M = ManagerModel
  import opened ManagerSteps
  import opened SchedulerState
  import opened SchedulerInvariant
  import opened Scheduling
  import opened SchedulerProperties
  import opened Coupling

  /** An entry of `inProgress`: a task with its environment, or a whole group. */
  datatype Item = Single(job: Job, contest: ContestId, group: TaskId) | Whole

  /** What a task's deferred fires with. */
  datatype Outcome = Done(result: int) | Failed(error: int)

  datatype Collected = Collected(results: map<TaskId, int>, failed: seq<int>)

  datatype Group = Group(jobs: seq<TaskId>, outcomes: map<TaskId, Outcome>, collected: Option<Collected>)

  /** Everything that would end in an exception or in the "impossible" branch. */
  datatype Fault =
    | NoFault | GuardRaised(error: RunError) | NoEnvironmentFor(x: TaskId) | ImpossibleHappened | FiredTwice

  type Items = map<TaskId, Item>
  type Groups = map<TaskId, Group>

  datatype Server = Server(manager: M.Manager, sched: State, inProgress: Items, groups: Groups, fault: Fault)

  function KindsIn(items: Items): Kinds {
    map x | x in items && items[x].Single? :: items[x].job.realCpu
  }

  // ----- _tryExecute

  function TryExecute(v: Server, rnd: Generator): (v': Server)
    requires Inv(v.sched)
    ensures Inv(v'.sched) && v'.inProgress == v.inProgress && v'.groups == v.groups
  {
    var (sent, s') := Execute(v.manager, v.sched, KindsIn(v.inProgress), rnd);
    match sent
    case SentAll(m) => v.(manager := m, sched := s')
    case Stopped(e) => v.(sched := s', fault := GuardRaised(e))
    case NoEnvironment(x) => v.(sched := s', fault := NoEnvironmentFor(x))
  }

  // ----- collecting a group

  function Collect(jobs: seq<TaskId>, outcomes: map<TaskId, Outcome>): Collected
    requires forall i | 0 <= i < |jobs| :: jobs[i] in outcomes
  {
    if jobs == [] then Collected(map[], [])
    else
      var n := |jobs| - 1;
      var c := Collect(jobs[..n], outcomes);
      match outcomes[jobs[n]]
      case Done(r) => c.(results := c.results[jobs[n] := r])
      case Failed(e) => c.(failed := c.failed + [e])
  }

  lemma {:induction false} CollectResults(jobs: seq<TaskId>, outcomes: map<TaskId, Outcome>)
    requires forall i | 0 <= i < |jobs| :: jobs[i] in outcomes
    ensures var c := Collect(jobs, outcomes);
            && (forall x :: x in c.results <==> x in jobs && outcomes[x].Done?)
            && (forall x | x in c.results :: c.results[x] == outcomes[x].result)
  {
    if jobs != [] {
      var n := |jobs| - 1;
      CollectResults(jobs[..n], outcomes);
      assert jobs == jobs[..n] + [jobs[n]];
    }
  }

  lemma {:induction false} CollectCount(jobs: seq<TaskId>, outcomes: map<TaskId, Outcome>)
    requires Distinct(jobs) && forall i | 0 <= i < |jobs| :: jobs[i] in outcomes
    ensures var c := Collect(jobs, outcomes); |c.results| + |c.failed| == |jobs|
  {
    if jobs != [] {
      var n := |jobs| - 1;
      CollectCount(jobs[..n], outcomes);
      CollectResults(jobs[..n], outcomes);
      assert jobs[n] !in jobs[..n];
    }
  }

  lemma {:induction false} CollectFailures(jobs: seq<TaskId>, outcomes: map<TaskId, Outcome>, e: int)
    requires forall i | 0 <= i < |jobs| :: jobs[i] in outcomes
    ensures e in Collect(jobs, outcomes).failed <==> exists i :: 0 <= i < |jobs| && outcomes[jobs[i]] == Failed(e)
  {
    if jobs != [] {
      var n := |jobs| - 1;
      CollectFailures(jobs[..n], outcomes, e);
      if i :| 0 <= i < |jobs| && outcomes[jobs[i]] == Failed(e) {
        if i < n { assert outcomes[jobs[..n][i]] == Failed(e); }
      }
      if i :| 0 <= i < n && outcomes[jobs[..n][i]] == Failed(e) { assert outcomes[jobs[i]] == Failed(e); }
    }
  }

  /** Each job of the group is in exactly one of the results and the failures. */
  lemma CollectSplits(jobs: seq<TaskId>, outcomes: map<TaskId, Outcome>)
    requires Distinct(jobs) && forall i | 0 <= i < |jobs| :: jobs[i] in outcomes
    ensures var c := Collect(jobs, outcomes);
            && (forall x :: x in c.results <==> x in jobs && outcomes[x].Done?)
            && (forall x | x in c.results :: c.results[x] == outcomes[x].result)
            && (forall e :: e in c.failed <==> exists i :: 0 <= i < |jobs| && outcomes[jobs[i]] == Failed(e))
            && |c.results| + |c.failed| == |jobs|
  {
    CollectResults(jobs, outcomes);
    CollectCount(jobs, outcomes);
    forall e
      ensures e in Collect(jobs, outcomes).failed <==> exists i :: 0 <= i < |jobs| && outcomes[jobs[i]] == Failed(e) {
      CollectFailures(jobs, outcomes, e);
    }
  }

  predicate AllFired(g: Group) {
    forall i | 0 <= i < |g.jobs| :: g.jobs[i] in g.outcomes
  }

  /** `_collect` and the `_taskDone` of the group, once the last of its deferreds has fired. */
  function FinishGroup(v: Server, gid: TaskId, rnd: Generator): Server
    requires Inv(v.sched) && gid in v.groups && AllFired(v.groups[gid])
  {
    var g := v.groups[gid];
    TryExecute(v.(groups := v.groups[gid := g.(collected := Some(Collect(g.jobs, g.outcomes)))],
                  inProgress := v.inProgress - {gid}), rnd)
  }

  /** One deferred of a group fires. */
  function Gather(v: Server, gid: TaskId, x: TaskId, o: Outcome, rnd: Generator): Server
    requires Inv(v.sched) && gid in v.groups
  {
    var g := v.groups[gid];
    if x in g.outcomes then v.(fault := FiredTwice)
    else
      var g' := g.(outcomes := g.outcomes[x := o]);
      var v' := v.(groups := v.groups[gid := g']);
      if AllFired(g') then FinishGroup(v', gid, rnd) else v'
  }

  // ----- events

  /** A reply, a remote error or a timeout ends the call for task `x`. */
  ghost function FinishCall(v: Server, x: TaskId, o: Outcome, rnd: Generator): Server
    requires Linked(v.manager, v.sched) && x in v.manager.calls
    requires x in v.inProgress && v.inProgress[x].Single? && v.inProgress[x].group in v.groups
  {
    LinkedFinish(v.manager, v.sched, x);
    var w := v.manager.calls[x];
    if Impossible(v.manager.data[w], x) then v.(fault := ImpossibleHappened)
    else
      var freed := v.(manager := Free(v.manager, x), sched := DelTask(v.sched, x), inProgress := v.inProgress - {x});
      Gather(TryExecute(freed, rnd), v.inProgress[x].group, x, o, rnd)
  }

  function AddJobs(s: State, jobs: seq<Job>, c: ContestId): State
    decreases |jobs|
  {
    if jobs == [] then s else AddJobs(AddTask(s, jobs[0], c), jobs[1..], c)
  }

  function JobIds(jobs: seq<Job>): (ids: seq<TaskId>)
    ensures |ids| == |jobs| && forall i | 0 <= i < |jobs| :: ids[i] == jobs[i].id
  {
    seq(|jobs|, i requires 0 <= i < |jobs| => jobs[i].id)
  }

  function DeferJobs(items: Items, jobs: seq<Job>, c: ContestId, gid: TaskId): Items
    decreases |jobs|
  {
    if jobs == [] then items else DeferJobs(items[jobs[0].id := Single(jobs[0], c, gid)], jobs[1..], c, gid)
  }

  /** `_addGroup`: a group without jobs is collected at once. */
  ghost function Submit(v: Server, gid: TaskId, jobs: seq<Job>, c: ContestId, priority: int, weight: nat,
                        rnd: Generator): Server
    requires Inv(AddJobs(UpdateContest(v.sched, c, priority, weight), jobs, c))
  {
    var v1 := v.(sched := AddJobs(UpdateContest(v.sched, c, priority, weight), jobs, c),
                 inProgress := DeferJobs(v.inProgress, jobs, c, gid)[gid := Whole],
                 groups := v.groups[gid := Group(JobIds(jobs), map[], None)]);
    var v2 := TryExecute(v1, rnd);
    if jobs == [] then FinishGroup(v2, gid, rnd) else v2
  }

  /** A worker that says it is idle is registered and offered to the scheduler. */
  function Join(v: Server, id: WorkerId, concurrency: nat, ram: nat, cpu: bool): Server {
    v.(manager := NewWorker(v.manager, id, concurrency, ram, cpu),
       sched := AddWorker(v.sched, id, concurrency, ram, cpu))
  }

  /** The state of the loop over the calls of a lost worker; `wd` is its detached record. */
  datatype Retry = Retry(s: State, calls: map<TaskId, WorkerId>, wd: M.WorkerData, impossible: bool)

  /** `_free` and `_retry_on_disconnect` for one call. */
  ghost function RetryOne(r: Retry, x: TaskId, item: Item): Retry
    requires Inv(r.s) && x in r.s.tasks && item.Single?
  {
    DelTaskInv(r.s, x);
    Retry(AddTask(DelTask(r.s, x), item.job, item.contest), r.calls - {x}, FreeSlot(r.wd, x),
          r.impossible || Impossible(r.wd, x))
  }

  ghost predicate Retryable(r: Retry, order: seq<TaskId>, items: Items) {
    && Inv(r.s)
    && (forall i | 0 <= i < |order| :: order[i] in r.s.tasks && order[i] in items && items[order[i]].Single?
          && items[order[i]].job.id == order[i] && items[order[i]].contest in r.s.contests)
  }

  lemma RetryOneInv(r: Retry, x: TaskId, item: Item)
    requires Inv(r.s) && x in r.s.tasks && item.Single? && item.job.id == x && item.contest in r.s.contests
    ensures var r' := RetryOne(r, x, item);
            Inv(r'.s) && r'.s.tasks.Keys == r.s.tasks.Keys && r'.s.contests == r.s.contests
  {
    DelTaskInv(r.s, x);
    DelThenAdd(r.s, x, item.job, item.contest);
  }

  lemma DelThenAdd(s: State, x: TaskId, job: Job, c: ContestId)
    requires Inv(s) && x in s.tasks && job.id == x && c in s.contests
    requires x in s.runsOn ==> s.runsOn[x] in s.workers && s.workers[s.runsOn[x]].CanDetach(s.tasks[x])
    requires s.tasks[x].id == x
    ensures var s' := AddTask(DelTask(s, x), job, c);
            Inv(s') && s'.tasks.Keys == s.tasks.Keys && s'.contests == s.contests
  {
    DelTaskInv(s, x);
    DelTaskIs(s, x);
    KeysBack(s.tasks, x);
    ReaddInv(DelTask(s, x), job, c, s.tasks.Keys, s.contests);
  }

  lemma KeysBack(tasks: map<TaskId, Task>, x: TaskId)
    requires x in tasks
    ensures (tasks - {x}).Keys + {x} == tasks.Keys
  {
  }

  lemma ReaddInv(s: State, job: Job, c: ContestId, known: set<TaskId>, contests: Contests)
    requires Inv(s) && job.id !in s.tasks && c in s.contests && s.tasks.Keys + {job.id} == known
    requires s.contests == contests
    ensures var s' := AddTask(s, job, c);
            Inv(s') && s'.tasks.Keys == known && s'.contests == contests
  {
    AddTaskInv(s, job, c);
  }

  lemma DelTaskIs(s: State, x: TaskId)
    requires Inv(s) && x in s.tasks
    ensures x in s.runsOn ==> s.runsOn[x] in s.workers && s.workers[s.runsOn[x]].CanDetach(s.tasks[x])
    ensures s.tasks[x].id == x
    ensures var s' := DelTask(s, x);
            && s'.tasks == s.tasks - {x} && s'.runsOn == s.runsOn - {x}
            && s'.contests == s.contests && s'.lastSequence == s.lastSequence && SameWorkers(s.workers, s'.workers)
  {
    DelTaskInv(s, x);
    if x in s.runsOn { FinishState(s, x); } else { DelIdleIs(s, x); }
  }

  lemma DelIdleIs(s: State, x: TaskId)
    requires x in s.tasks && x !in s.runsOn
    ensures var s' := DelTask(s, x);
            && s'.tasks == s.tasks - {x} && s'.runsOn == s.runsOn == s.runsOn - {x}
            && s'.contests == s.contests && s'.lastSequence == s.lastSequence && s'.workers == s.workers
  {
    assert s.runsOn - {x} == s.runsOn;
  }

  ghost function RetryAll(r: Retry, order: seq<TaskId>, items: Items): (r': Retry)
    requires Retryable(r, order, items)
    ensures Inv(r'.s)
    decreases |order|
  {
    if order == [] then r
    else
      RetryOneInv(r, order[0], items[order[0]]);
      RetryAll(RetryOne(r, order[0], items[order[0]]), order[1..], items)
  }

  /** `workerLost` and `_lostWorker`, up to the final `_tryExecute`; `order` is the order of its task set. */
  ghost function Lose(v: Server, id: WorkerId, order: seq<TaskId>): Server
    requires id in v.manager.data && id in v.sched.workers
    requires Retryable(Retry(v.sched, v.manager.calls, v.manager.data[id], false), order, v.inProgress)
    requires id in RetryAll(Retry(v.sched, v.manager.calls, v.manager.data[id], false), order, v.inProgress).s.workers
  {
    var r := RetryAll(Retry(v.sched, v.manager.calls, v.manager.data[id], false), order, v.inProgress);
    v.(manager := M.UpdateStats(Forget(v.manager, id).(calls := r.calls)), sched := DelWorker(r.s, id),
       fault := if r.impossible then ImpossibleHappened else v.fault)
  }
}

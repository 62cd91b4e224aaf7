/**
 The reactor events of `ServerInvariant` taken apart into the steps of the objects. What is known of the state
 between two steps is kept closed (`Scheduling.UnfoldKey`); each lemma opens it and says what the next step needs.
 */
module EventPlans {
  import opened Types
  import opened Matching
  import M = ManagerModel
  import opened ManagerSteps
  import opened SchedulerState
  import opened Scheduling
  import Coupling
  import opened V = Server
  import SI = ServerInvariant

  /** In a server whose records agree, `_tryExecute` leads to `v'`. */
  ghost predicate Executes(v: V.Server, rnd: Generator, v': V.Server) {
    forall n: nat :: UnfoldKey(n) ==> SI.Running(v) && TryExecute(v, rnd) == v'
  }

  lemma ToExecute(v: V.Server, rnd: Generator) returns (v': V.Server)
    requires SI.Running(v)
    ensures v' == TryExecute(v, rnd) && Executes(v, rnd, v')
  {
    v' := TryExecute(v, rnd);
  }

  lemma ExecutePlan(v: V.Server, rnd: Generator, v': V.Server)
      returns (jobs: seq<Association>, m': M.Manager, s': State)
    requires Executes(v, rnd, v')
    ensures Schedules(v.sched, v.manager, rnd, jobs, s')
    ensures Coupling.SendAll(v.manager, jobs, KindsIn(v.inProgress)) == Coupling.SentAll.SentAll(m')
    ensures v' == v.(manager := m', sched := s')
  {
    assert UnfoldKey(0);
    SI.TrackedKinds(v.inProgress, v.sched.tasks);
    Coupling.ExecuteOk(v.manager, v.sched, KindsIn(v.inProgress), rnd);
    jobs, s' := Schedule(v.sched, v.manager, rnd).0, Schedule(v.sched, v.manager, rnd).1;
    m' := Coupling.SendAll(v.manager, jobs, KindsIn(v.inProgress)).m;
  }

  // ----- groups

  ghost predicate Finishable(v: V.Server, gid: TaskId) {
    && SI.Running(v) && gid in v.groups && Distinct(v.groups[gid].jobs)
    && (gid in v.inProgress ==> v.inProgress[gid].Whole?)
  }

  ghost predicate Finishes(v: V.Server, gid: TaskId, rnd: Generator, v': V.Server) {
    forall n: nat :: UnfoldKey(n) ==>
      Finishable(v, gid) && AllFired(v.groups[gid]) && FinishGroup(v, gid, rnd) == v'
  }

  lemma FinishPlan(v: V.Server, gid: TaskId, rnd: Generator, v': V.Server) returns (u: V.Server)
    requires Finishes(v, gid, rnd, v')
    ensures gid in v.groups && Distinct(v.groups[gid].jobs) && AllFired(v.groups[gid])
    ensures u == v.(groups := v.groups[gid := SI.WithCollected(v.groups[gid])], inProgress := v.inProgress - {gid})
    ensures Executes(u, rnd, v')
  {
    assert UnfoldKey(0);
    u := v.(groups := v.groups[gid := SI.WithCollected(v.groups[gid])], inProgress := v.inProgress - {gid});
    SI.TrackedWithoutGroup(v.inProgress, v.sched.tasks, gid);
  }

  ghost predicate Gathers(v: V.Server, gid: TaskId, x: TaskId, o: Outcome, rnd: Generator, v': V.Server) {
    forall n: nat :: UnfoldKey(n) ==>
      Finishable(v, gid) && x !in v.groups[gid].outcomes && Gather(v, gid, x, o, rnd) == v'
  }

  lemma GatherPlan(v: V.Server, gid: TaskId, x: TaskId, o: Outcome, rnd: Generator, v': V.Server) returns (u: V.Server)
    requires Gathers(v, gid, x, o, rnd, v')
    ensures gid in v.groups
    ensures var g := v.groups[gid].(outcomes := v.groups[gid].outcomes[x := o]);
            && u == v.(groups := v.groups[gid := g])
            && if AllFired(g) then Finishes(u, gid, rnd, v') else v' == u
  {
    assert UnfoldKey(0);
    u := v.(groups := v.groups[gid := v.groups[gid].(outcomes := v.groups[gid].outcomes[x := o])]);
  }

  // ----- events

  /** In a coupled server event `e` can happen and leads to `v'`. */
  ghost predicate Reacts(v: V.Server, e: SI.Event, rnd: Generator, v': V.Server) {
    forall n: nat :: UnfoldKey(n) ==> SI.Coupled(v) && SI.Enabled(v, e) && SI.React(v, e, rnd) == v'
  }

  lemma ToReact(v: V.Server, e: SI.Event, rnd: Generator) returns (v': V.Server)
    requires SI.Coupled(v) && SI.Enabled(v, e)
    ensures v' == SI.React(v, e, rnd) && Reacts(v, e, rnd, v') && SI.Coupled(v')
  {
    v' := SI.React(v, e, rnd);
    SI.ReactCoupled(v, e, rnd);
  }

  /** Objects that have gone through the first events of a run are ready for the next one. */
  lemma NextReacts(es: seq<SI.Event>, e: SI.Event, rnd: Generator)
    requires SI.Enabled(SI.RunServer(es, rnd), e)
    ensures Reacts(SI.RunServer(es, rnd), e, rnd, SI.RunServer(es + [e], rnd))
  {
    SI.RunCoupled(es, rnd);
    var v' := ToReact(SI.RunServer(es, rnd), e, rnd);
    SI.RunMore(es, e, rnd);
  }

  /** Every event of the run can happen when its turn comes. */
  ghost predicate CanRun(es: seq<SI.Event>, rnd: Generator) {
    es == [] || (CanRun(es[..|es| - 1], rnd) && SI.Enabled(SI.RunServer(es[..|es| - 1], rnd), es[|es| - 1]))
  }

  lemma CanRunLess(before: seq<SI.Event>, e: SI.Event, es: seq<SI.Event>, rnd: Generator)
    requires es == before + [e] && CanRun(es, rnd)
    ensures CanRun(before, rnd) && SI.Enabled(SI.RunServer(before, rnd), e)
  {
    assert es[..|es| - 1] == before;
  }

  /** The last event of a run. */
  lemma LastReacts(before: seq<SI.Event>, e: SI.Event, es: seq<SI.Event>, rnd: Generator)
    returns (v: V.Server, v': V.Server)
    requires es == before + [e] && CanRun(es, rnd)
    ensures CanRun(before, rnd) && v == SI.RunServer(before, rnd) && v' == SI.RunServer(es, rnd)
    ensures Reacts(v, e, rnd, v')
  {
    CanRunLess(before, e, es, rnd);
    NextReacts(before, e, rnd);
    v, v' := SI.RunServer(before, rnd), SI.RunServer(es, rnd);
  }

  /** The scheduler can take the task off its worker. */
  ghost predicate Droppable(s: State, x: TaskId) {
    && x in s.tasks && s.tasks[x].id == x
    && (x in s.runsOn ==> s.runsOn[x] in s.workers && s.workers[s.runsOn[x]].CanDetach(s.tasks[x]))
  }

  lemma CallPlan(v: V.Server, x: TaskId, o: Outcome, rnd: Generator, v': V.Server)
      returns (freed: V.Server, t: V.Server)
    requires Reacts(v, SI.CallEnds(x, o), rnd, v')
    ensures x in v.inProgress && v.inProgress[x].Single? && Droppable(v.sched, x)
    ensures x in v.manager.calls && v.manager.calls[x] in v.manager.data
    ensures !Impossible(v.manager.data[v.manager.calls[x]], x)
    ensures freed == v.(manager := Free(v.manager, x), sched := DelTask(v.sched, x), inProgress := v.inProgress - {x})
    ensures Executes(freed, rnd, t) && Gathers(t, v.inProgress[x].group, x, o, rnd, v')
  {
    assert UnfoldKey(0);
    SI.CallIsTracked(v, x);
    Coupling.LinkedFinish(v.manager, v.sched, x);
    freed := v.(manager := Free(v.manager, x), sched := DelTask(v.sched, x), inProgress := v.inProgress - {x});
    FreedRuns(v, x);
    t := ToExecute(freed, rnd);
    SI.TryExecuteRuns(freed, rnd);
    SI.FiredGroups(v.inProgress, v.groups, v.inProgress[x].group, x, o);
  }

  lemma FreedRuns(v: V.Server, x: TaskId)
    requires SI.Coupled(v) && x in v.manager.calls
    ensures x in v.sched.tasks && Droppable(v.sched, x)
    ensures SI.Running(v.(manager := Free(v.manager, x),
                          sched := DelTask(v.sched, x), inProgress := v.inProgress - {x}))
  {
    Coupling.LinkedFinish(v.manager, v.sched, x);
    Coupling.FinishState(v.sched, x);
    SI.TrackedFinish(v.inProgress, v.sched.tasks, x);
  }

  // ----- a worker is lost

  /** What is left of retrying the tasks of a lost worker leads from `r` to `r'`. */
  ghost predicate Retries(r: Retry, id: WorkerId, order: seq<TaskId>, items: Items, r': Retry) {
    forall n: nat :: UnfoldKey(n) ==>
      Retryable(r, order, items) && AllSent(r.calls, id, order) && RetryAll(r, order, items) == r'
  }

  lemma RetryPlan(r: Retry, id: WorkerId, order: seq<TaskId>, items: Items, r': Retry) returns (r1: Retry)
    requires order != [] && Retries(r, id, order, items, r')
    ensures var x := order[0];
            && Droppable(r.s, x) && x in r.calls && r.calls[x] == id
            && x in items && items[x].Single? && items[x].job.id == x && items[x].contest in r.s.contests
            && r1 == Retry(AddTask(DelTask(r.s, x), items[x].job, items[x].contest), r.calls - {x}, FreeSlot(r.wd, x),
                           r.impossible || Impossible(r.wd, x))
    ensures Retries(r1, id, order[1..], items, r')
  {
    assert UnfoldKey(0);
    r1 := RetryOne(r, order[0], items[order[0]]);
    RetryDrops(r, order[0]);
    RetryRest(r, id, order, items);
  }

  lemma RetryDrops(r: Retry, x: TaskId)
    requires Inv(r.s) && x in r.s.tasks
    ensures Droppable(r.s, x)
  {
    DelTaskIs(r.s, x);
  }

  ghost predicate AllSent(calls: map<TaskId, WorkerId>, id: WorkerId, order: seq<TaskId>) {
    Distinct(order) && forall i | 0 <= i < |order| :: order[i] in calls && calls[order[i]] == id
  }

  lemma AllSentRest(calls: map<TaskId, WorkerId>, id: WorkerId, order: seq<TaskId>)
    requires order != [] && AllSent(calls, id, order)
    ensures AllSent(calls - {order[0]}, id, order[1..])
  {
    forall i | 0 <= i < |order[1..]| ensures order[1..][i] == order[i + 1] != order[0] {}
  }

  lemma RetryRest(r: Retry, id: WorkerId, order: seq<TaskId>, items: Items)
    requires order != [] && Retryable(r, order, items) && AllSent(r.calls, id, order)
    ensures Retries(RetryOne(r, order[0], items[order[0]]), id, order[1..], items, RetryAll(r, order, items))
  {
    AllSentRest(r.calls, id, order);
    RetryableRest(r, order, items);
  }

  lemma RetryableRest(r: Retry, order: seq<TaskId>, items: Items)
    requires order != [] && Retryable(r, order, items)
    ensures Retryable(RetryOne(r, order[0], items[order[0]]), order[1..], items)
  {
    RetryOneInv(r, order[0], items[order[0]]);
    forall i | 0 <= i < |order[1..]| ensures order[1..][i] == order[i + 1] {}
  }

  lemma RetriesDone(r: Retry, id: WorkerId, items: Items, r': Retry)
    requires Retries(r, id, [], items, r')
    ensures r' == r
  {
    assert UnfoldKey(0);
  }

  lemma LosePlan(v: V.Server, id: WorkerId, order: seq<TaskId>, rnd: Generator, v': V.Server)
      returns (r: Retry, gone: V.Server)
    requires Reacts(v, SI.WorkerLost(id, order), rnd, v')
    ensures id in v.manager.data && Retries(SI.Loss(v, id), id, order, v.inProgress, r) && !r.impossible
    ensures id in r.s.workers && r.s.workers[id].running == 0
    ensures gone == v.(manager := M.UpdateStats(Forget(v.manager, id).(calls := r.calls)), sched := DelWorker(r.s, id))
    ensures Executes(gone, rnd, v')
  {
    assert UnfoldKey(0);
    SI.LossEmptied(v, id, order);
    r := RetryAll(SI.Loss(v, id), order, v.inProgress);
    assert AllSent(v.manager.calls, id, order) by { LossSent(v, id, order); }
    assert r.s.workers[id].running == 0 by { EmptiedIdle(v.manager, r, id, v.inProgress); }
    SI.LoseCoupled(v, id, order);
    gone := Lose(v, id, order);
  }

  lemma LossSent(v: V.Server, id: WorkerId, order: seq<TaskId>)
    requires SI.Coupled(v) && SI.OrderOf(v, id, order)
    ensures AllSent(v.manager.calls, id, order)
  {
    SI.LossOutstanding(v, id, order);
    SI.OutstandingRetryable(SI.Loss(v, id), id, order, v.inProgress);
  }

  lemma EmptiedIdle(m: M.Manager, r: Retry, id: WorkerId, items: Items)
    requires SI.Emptied(m, r, id, items) && id in r.s.workers
    ensures r.s.workers[id].running == 0
  {
    SI.LinkedLeave(SI.StillThere(m, r, id), r.s, id);
  }

  // ----- a worker joins

  lemma JoinPlan(v: V.Server, id: WorkerId, concurrency: nat, ram: nat, cpu: bool, rnd: Generator, v': V.Server)
      returns (joined: V.Server)
    requires Reacts(v, SI.WorkerJoins(id, concurrency, ram, cpu), rnd, v')
    ensures id !in v.manager.data && id !in v.sched.workers && concurrency > 0 && ram > 0
    ensures forall x | x in v.manager.calls :: v.manager.calls[x] != id
    ensures joined == Join(v, id, concurrency, ram, cpu) && Executes(joined, rnd, v')
  {
    assert UnfoldKey(0);
    NewNameUnused(v, id);
    SI.JoinCoupled(v, id, concurrency, ram, cpu);
    joined := Join(v, id, concurrency, ram, cpu);
  }

  lemma NewNameUnused(v: V.Server, id: WorkerId)
    requires SI.Coupled(v) && id !in v.manager.data
    ensures id !in v.sched.workers && forall x | x in v.manager.calls :: v.manager.calls[x] != id
  {
    Coupling.RunningIsKnown(v.manager, v.sched);
  }

  // ----- a group is submitted

  /** The group is in the tables and its tasks are in the scheduler, but nothing is scheduled yet. */
  function Submitted(v: V.Server, gid: TaskId, jobs: seq<Job>, c: ContestId, priority: int, weight: nat): V.Server {
    v.(sched := AddJobs(UpdateContest(v.sched, c, priority, weight), jobs, c),
       inProgress := DeferJobs(v.inProgress, jobs, c, gid)[gid := Whole],
       groups := v.groups[gid := Group(JobIds(jobs), map[], None)])
  }

  lemma SubmitPlan(v: V.Server, gid: TaskId, jobs: seq<Job>, c: ContestId, priority: int, weight: nat,
                   rnd: Generator, v': V.Server) returns (t: V.Server)
    requires Reacts(v, SI.SubmitGroup(gid, jobs, c, priority, weight), rnd, v')
    ensures weight >= 1 && forall i | 0 <= i < |jobs| :: jobs[i].id !in v.sched.tasks
    ensures forall i, j | 0 <= i < j < |jobs| :: jobs[i].id != jobs[j].id
    ensures Executes(Submitted(v, gid, jobs, c, priority, weight), rnd, t)
    ensures if jobs == [] then Finishes(t, gid, rnd, v') else v' == t
  {
    assert UnfoldKey(0);
    JobsDiffer(jobs);
    JobsUnknown(v, gid, jobs);
    SI.SubmitRuns(v, gid, jobs, c, priority, weight);
    t := ToExecute(Submitted(v, gid, jobs, c, priority, weight), rnd);
    if jobs == [] {
      SI.TryExecuteRuns(Submitted(v, gid, jobs, c, priority, weight), rnd);
      EmptyGroupFires(t, gid);
    }
  }

  /** A group without jobs is complete as soon as it is there. */
  lemma EmptyGroupFires(v: V.Server, gid: TaskId)
    requires SI.Running(v) && gid in v.groups && v.groups[gid] == Group([], map[], None)
    requires gid in v.inProgress && v.inProgress[gid].Whole?
    ensures Finishable(v, gid) && AllFired(v.groups[gid])
  {
  }

  lemma JobsUnknown(v: V.Server, gid: TaskId, jobs: seq<Job>)
    requires SI.Coupled(v) && SI.FreshNames(v, gid, jobs)
    ensures forall i | 0 <= i < |jobs| :: jobs[i].id !in v.sched.tasks
  {
  }

  lemma JobsDiffer(jobs: seq<Job>)
    requires Distinct(JobIds(jobs))
    ensures forall i, j | 0 <= i < j < |jobs| :: jobs[i].id != jobs[j].id
  {
    forall i, j | 0 <= i < j < |jobs| ensures jobs[i].id != jobs[j].id {
      assert JobIds(jobs)[i] != JobIds(jobs)[j];
    }
  }
}

/** What every reactor event keeps: the three components stay coupled, and no task is lost or finished twice. */
module ServerInvariant {
  import opened Types
  import opened Matching
  import opened TaskQueues
  import M = ManagerModel
  import opened ManagerSteps
  import opened SchedulerState
  import opened SchedulerInvariant
  import opened Scheduling
  import opened SchedulerProperties
  import opened Coupling
  import opened Server
  import Runs = SchedulerRuns

  function JobOf(t: Task): Job {
    Job(t.id, t.realCpu, t.ram, t.priority)
  }

  /** The scheduler knows exactly the single tasks in progress, with the data of their environments. */
  ghost predicate Tracked(items: Items, tasks: map<TaskId, Task>) {
    && (forall x :: x in tasks <==> x in items && items[x].Single?)
    && (forall x | x in tasks :: items[x].job == JobOf(tasks[x]) && items[x].contest == tasks[x].contest)
  }

  /** A job of a group is in progress until its deferred fires; it fires at most once. */
  ghost predicate GroupOk(items: Items, gid: TaskId, g: Group) {
    && Distinct(g.jobs)
    && (forall x | x in g.outcomes :: x in g.jobs)
    && (forall x | x in g.jobs :: x in g.outcomes <==> !(x in items && items[x].Single?))
    && (forall x | x in g.jobs && x in items :: items[x].Single? && items[x].group == gid)
  }

  /** A group is in progress until all its jobs have fired; then it is collected, once and completely. */
  ghost predicate GroupClosed(items: Items, gid: TaskId, g: Group) {
    && (gid in items <==> g.collected.None?)
    && (gid in items ==> items[gid].Whole?)
    && (AllFired(g) <==> g.collected.Some?)
    && (AllFired(g) ==> g.collected == Some(Collect(g.jobs, g.outcomes)))
  }

  /** Identifiers are never reused. */
  ghost predicate NamesUnique(groups: Groups) {
    && (forall g, h, x | g in groups && h in groups && x in groups[g].jobs && x in groups[h].jobs :: g == h)
    && (forall g, x | g in groups && x in groups[g].jobs :: x !in groups)
  }

  ghost predicate EachOk(items: Items, groups: Groups) {
    forall g | g in groups :: GroupOk(items, g, groups[g]) && GroupClosed(items, g, groups[g])
  }

  ghost predicate OwnersOk(items: Items, groups: Groups) {
    && (forall x | x in items && items[x].Single? :: items[x].group in groups && x in groups[items[x].group].jobs)
    && (forall x | x in items && items[x].Whole? :: x in groups)
  }

  ghost predicate GroupsOk(items: Items, groups: Groups) {
    NamesUnique(groups) && EachOk(items, groups) && OwnersOk(items, groups)
  }

  ghost predicate Coupled(v: Server) {
    && v.fault == NoFault
    && Linked(v.manager, v.sched)
    && Tracked(v.inProgress, v.sched.tasks)
    && GroupsOk(v.inProgress, v.groups)
  }

  // ----- executing

  ghost predicate Running(v: Server) {
    v.fault == NoFault && Linked(v.manager, v.sched) && Tracked(v.inProgress, v.sched.tasks)
  }

  lemma TrackedKinds(items: Items, tasks: map<TaskId, Task>)
    requires Tracked(items, tasks)
    ensures KindsOf(KindsIn(items), tasks)
  {
  }

  lemma TryExecuteRuns(v: Server, rnd: Generator)
    requires Running(v)
    ensures Running(TryExecute(v, rnd))
    ensures TryExecute(v, rnd).sched.tasks == v.sched.tasks && TryExecute(v, rnd).sched.contests == v.sched.contests
  {
    TrackedKinds(v.inProgress, v.sched.tasks);
    ExecuteOk(v.manager, v.sched, KindsIn(v.inProgress), rnd);
  }

  lemma TryExecuteCoupled(v: Server, rnd: Generator)
    requires Coupled(v)
    ensures Coupled(TryExecute(v, rnd))
  {
    TryExecuteRuns(v, rnd);
  }

  // ----- a call ends

  lemma TrackedFinish(items: Items, tasks: map<TaskId, Task>, x: TaskId)
    requires Tracked(items, tasks)
    ensures Tracked(items - {x}, tasks - {x})
  {
  }

  /** What happens to a group only depends on its own entries of `inProgress`. */
  lemma GroupElsewhere(items: Items, items': Items, gid: TaskId, g: Group)
    requires GroupOk(items, gid, g) && GroupClosed(items, gid, g)
    requires forall y | y == gid || y in g.jobs ::
               (y in items' <==> y in items) && (y in items ==> items'[y] == items[y])
    ensures GroupOk(items', gid, g) && GroupClosed(items', gid, g)
  {
  }

  /** The group of a deferred that fires, and the entries of `inProgress` that remain. */
  function Fired(g: Group, x: TaskId, o: Outcome): Group {
    var g' := g.(outcomes := g.outcomes[x := o]);
    if AllFired(g') then g'.(collected := Some(Collect(g'.jobs, g'.outcomes))) else g'
  }

  function ItemsAfter(items: Items, gid: TaskId, g: Group, x: TaskId, o: Outcome): Items {
    if AllFired(g.(outcomes := g.outcomes[x := o])) then items - {x} - {gid} else items - {x}
  }

  lemma FiredGroup(items: Items, gid: TaskId, g: Group, x: TaskId, o: Outcome)
    requires GroupOk(items, gid, g) && GroupClosed(items, gid, g)
    requires x in g.jobs && x in items && items[x].Single? && gid !in g.jobs
    ensures x !in g.outcomes && gid in items
    ensures GroupOk(ItemsAfter(items, gid, g, x, o), gid, Fired(g, x, o))
    ensures GroupClosed(ItemsAfter(items, gid, g, x, o), gid, Fired(g, x, o))
  {
    var i :| 0 <= i < |g.jobs| && g.jobs[i] == x;
    assert !AllFired(g);
  }

  lemma FiredEach(items: Items, groups: Groups, gid: TaskId, x: TaskId, o: Outcome)
    requires EachOk(items, groups) && gid in groups && x in groups[gid].jobs
    requires x in items && items[x].Single? && gid !in groups[gid].jobs
    requires forall h | h in groups && h != gid :: x !in groups[h].jobs && gid !in groups[h].jobs
    requires x !in groups
    ensures EachOk(ItemsAfter(items, gid, groups[gid], x, o), groups[gid := Fired(groups[gid], x, o)])
  {
    var items', groups' := ItemsAfter(items, gid, groups[gid], x, o), groups[gid := Fired(groups[gid], x, o)];
    forall h | h in groups' ensures GroupOk(items', h, groups'[h]) && GroupClosed(items', h, groups'[h]) {
      assert GroupOk(items, h, groups[h]) && GroupClosed(items, h, groups[h]);
      if h == gid { FiredGroup(items, gid, groups[gid], x, o); } else { GroupElsewhere(items, items', h, groups[h]); }
    }
  }

  lemma OwnersKept(items: Items, items': Items, groups: Groups, gid: TaskId, g: Group)
    requires OwnersOk(items, groups) && gid in groups && g.jobs == groups[gid].jobs
    requires forall y | y in items' :: y in items && items'[y] == items[y]
    ensures OwnersOk(items', groups[gid := g])
  {
  }

  /** The record of groups after task `x` of group `gid` has left `inProgress` and its deferred has fired. */
  lemma FiredGroups(items: Items, groups: Groups, gid: TaskId, x: TaskId, o: Outcome)
    requires GroupsOk(items, groups) && x in items && items[x].Single? && items[x].group == gid
    ensures gid in groups && x !in groups[gid].outcomes
    ensures GroupsOk(ItemsAfter(items, gid, groups[gid], x, o), groups[gid := Fired(groups[gid], x, o)])
  {
    FiredEach(items, groups, gid, x, o);
    FiredGroup(items, gid, groups[gid], x, o);
    OwnersKept(items, ItemsAfter(items, gid, groups[gid], x, o), groups, gid, Fired(groups[gid], x, o));
    NamesKept(groups, gid, Fired(groups[gid], x, o));
  }

  lemma NamesKept(groups: Groups, gid: TaskId, g: Group)
    requires NamesUnique(groups) && gid in groups && g.jobs == groups[gid].jobs
    ensures NamesUnique(groups[gid := g])
  {
  }

  lemma TrackedWithoutGroup(items: Items, tasks: map<TaskId, Task>, gid: TaskId)
    requires Tracked(items, tasks) && (gid in items ==> items[gid].Whole?)
    ensures Tracked(items - {gid}, tasks)
  {
  }

  function WithCollected(g: Group): Group
    requires AllFired(g)
  {
    g.(collected := Some(Collect(g.jobs, g.outcomes)))
  }

  lemma FinishGroupResult(v: Server, gid: TaskId, rnd: Generator)
    requires Running(v) && gid in v.groups && AllFired(v.groups[gid])
    requires gid in v.inProgress ==> v.inProgress[gid].Whole?
    ensures var v' := FinishGroup(v, gid, rnd);
            && Running(v')
            && v'.groups == v.groups[gid := WithCollected(v.groups[gid])]
            && v'.inProgress == v.inProgress - {gid}
  {
    TrackedWithoutGroup(v.inProgress, v.sched.tasks, gid);
    TryExecuteRuns(v.(groups := v.groups[gid := WithCollected(v.groups[gid])],
                      inProgress := v.inProgress - {gid}), rnd);
  }

  lemma UpdatedTwice(groups: Groups, gid: TaskId, a: Group, b: Group)
    ensures groups[gid := a][gid := b] == groups[gid := b]
  {
  }

  lemma GatherResult(v: Server, gid: TaskId, x: TaskId, o: Outcome, rnd: Generator)
    requires Running(v) && gid in v.groups && x !in v.groups[gid].outcomes
    requires gid in v.inProgress ==> v.inProgress[gid].Whole?
    ensures var v' := Gather(v, gid, x, o, rnd);
            && Running(v')
            && v'.groups == v.groups[gid := Fired(v.groups[gid], x, o)]
            && v'.inProgress == if AllFired(v.groups[gid].(outcomes := v.groups[gid].outcomes[x := o]))
                                then v.inProgress - {gid} else v.inProgress
  {
    var g := v.groups[gid].(outcomes := v.groups[gid].outcomes[x := o]);
    if AllFired(g) {
      FinishGroupResult(v.(groups := v.groups[gid := g]), gid, rnd);
      UpdatedTwice(v.groups, gid, g, WithCollected(g));
    }
  }

  /** The entries the events rely on exist: a pending call belongs to a task in progress of a known group. */
  lemma CallIsTracked(v: Server, x: TaskId)
    requires Coupled(v) && x in v.manager.calls
    ensures x in v.sched.tasks && x in v.inProgress && v.inProgress[x].Single?
    ensures v.inProgress[x].group in v.groups && v.inProgress[x].group != x
    ensures v.inProgress[x].group in v.inProgress ==> v.inProgress[v.inProgress[x].group].Whole?
  {
    RunningIsKnown(v.manager, v.sched);
    var gid := v.inProgress[x].group;
    assert GroupClosed(v.inProgress, gid, v.groups[gid]);
  }

  /** A reply, an error or a timeout fires exactly the deferred of its task and finishes a complete group. */
  lemma FinishCallCoupled(v: Server, x: TaskId, o: Outcome, rnd: Generator)
    requires Coupled(v) && x in v.manager.calls
    ensures x in v.inProgress && v.inProgress[x].Single? && v.inProgress[x].group in v.groups
    ensures var v' := FinishCall(v, x, o, rnd);
            var gid := v.inProgress[x].group;
            && Coupled(v')
            && v'.groups == v.groups[gid := Fired(v.groups[gid], x, o)]
  {
    CallIsTracked(v, x);
    var gid := v.inProgress[x].group;
    LinkedFinish(v.manager, v.sched, x);
    FinishState(v.sched, x);
    TrackedFinish(v.inProgress, v.sched.tasks, x);
    var freed := v.(manager := Free(v.manager, x), sched := DelTask(v.sched, x), inProgress := v.inProgress - {x});
    TryExecuteRuns(freed, rnd);
    FiredGroups(v.inProgress, v.groups, gid, x, o);
    GatherResult(TryExecute(freed, rnd), gid, x, o, rnd);
  }

  // ----- a worker joins

  lemma JoinCoupled(v: Server, id: WorkerId, concurrency: nat, ram: nat, cpu: bool)
    requires Coupled(v) && id !in v.manager.data && concurrency > 0 && ram > 0
    ensures Coupled(Join(v, id, concurrency, ram, cpu))
  {
    LinkedJoin(v.manager, v.sched, id, concurrency, ram, cpu);
    AddWorkerIs(v.sched, id, concurrency, ram, cpu);
  }

  /**
   `newWorker` registers any worker, but the scheduler refuses one without slots or without RAM
   (prioritizing.py:115-116), and then the worker stays registered with the manager alone.
   */
  function Register(v: Server, id: WorkerId, concurrency: nat, ram: nat, cpu: bool): Server {
    if concurrency > 0 && ram > 0 then Join(v, id, concurrency, ram, cpu)
    else v.(manager := NewWorker(v.manager, id, concurrency, ram, cpu))
  }

  /** The records agree after a worker has registered exactly when it has both slots and RAM. */
  lemma RegisterKeepsCoupling(v: Server, id: WorkerId, concurrency: nat, ram: nat, cpu: bool)
    requires Coupled(v) && id !in v.manager.data
    ensures Coupled(Register(v, id, concurrency, ram, cpu)) <==> concurrency > 0 && ram > 0
  {
    if concurrency > 0 && ram > 0 {
      JoinCoupled(v, id, concurrency, ram, cpu);
    } else {
      var v' := Register(v, id, concurrency, ram, cpu);
      NewWorkerIs(v.manager, id, concurrency, ram, cpu);
      assert id in v'.manager.data && id !in v'.sched.workers;
    }
  }

  // ----- a group is submitted

  lemma TrackedSubmit(items: Items, tasks: map<TaskId, Task>, t: Task, gid: TaskId)
    requires Tracked(items, tasks) && t.id !in items
    ensures Tracked(items[t.id := Single(JobOf(t), t.contest, gid)], tasks[t.id := t])
  {
  }

  ghost predicate FreshJobs(items: Items, jobs: seq<Job>) {
    && Distinct(JobIds(jobs))
    && (forall i | 0 <= i < |jobs| :: jobs[i].id !in items)
  }

  lemma FreshRest(items: Items, jobs: seq<Job>, item: Item)
    requires jobs != [] && FreshJobs(items, jobs)
    ensures FreshJobs(items[jobs[0].id := item], jobs[1..])
  {
    assert JobIds(jobs)[1..] == JobIds(jobs[1..]);
    forall i | 0 <= i < |jobs[1..]| ensures jobs[1..][i].id != jobs[0].id {
      assert JobIds(jobs)[0] != JobIds(jobs)[i + 1];
    }
    forall i, j | 0 <= i < j < |jobs[1..]| ensures JobIds(jobs[1..])[i] != JobIds(jobs[1..])[j] {
      assert JobIds(jobs)[i + 1] != JobIds(jobs)[j + 1];
    }
  }

  lemma {:induction false} AddJobsLinked(m: M.Manager, s: State, items: Items, jobs: seq<Job>, c: ContestId,
                                         gid: TaskId)
    requires Linked(m, s) && Tracked(items, s.tasks) && c in s.contests && FreshJobs(items, jobs)
    ensures Linked(m, AddJobs(s, jobs, c)) && Tracked(DeferJobs(items, jobs, c, gid), AddJobs(s, jobs, c).tasks)
    decreases |jobs|
  {
    if jobs != [] {
      var t := NewTask(s, jobs[0], c);
      LinkedSubmit(m, s, jobs[0], c);
      TrackedSubmit(items, s.tasks, t, gid);
      FreshRest(items, jobs, Single(jobs[0], c, gid));
      AddJobsLinked(m, AddTask(s, jobs[0], c), items[jobs[0].id := Single(jobs[0], c, gid)], jobs[1..], c, gid);
    }
  }

  lemma {:induction false} DeferredItems(items: Items, jobs: seq<Job>, c: ContestId, gid: TaskId)
    requires FreshJobs(items, jobs)
    ensures var items' := DeferJobs(items, jobs, c, gid);
            && (forall x :: x in items' <==> x in items || x in JobIds(jobs))
            && (forall x | x in items :: items'[x] == items[x])
            && (forall x | x in JobIds(jobs) :: items'[x].Single? && items'[x].group == gid)
    decreases |jobs|
  {
    if jobs != [] {
      FreshRest(items, jobs, Single(jobs[0], c, gid));
      DeferredItems(items[jobs[0].id := Single(jobs[0], c, gid)], jobs[1..], c, gid);
      assert JobIds(jobs) == [jobs[0].id] + JobIds(jobs[1..]);
    }
  }

  /** Group and task identifiers are new (they are fresh UUIDs, siorpc.py:57-63). */
  ghost predicate FreshNames(v: Server, gid: TaskId, jobs: seq<Job>) {
    && FreshJobs(v.inProgress, jobs) && gid !in JobIds(jobs)
    && (forall x | x == gid || x in JobIds(jobs) :: x !in v.inProgress && x !in v.groups)
    && (forall x, g | (x == gid || x in JobIds(jobs)) && g in v.groups :: x !in v.groups[g].jobs)
  }

  /** The record of a group right after submission: a group without jobs is complete at once. */
  function FirstGroup(jobs: seq<Job>): Group {
    var g := Group(JobIds(jobs), map[], None);
    if jobs == [] then g.(collected := Some(Collected(map[], []))) else g
  }

  lemma SubmittedEach(v: Server, gid: TaskId, jobs: seq<Job>, items': Items)
    requires EachOk(v.inProgress, v.groups) && FreshNames(v, gid, jobs)
    requires forall x :: x in items' <==> x in v.inProgress || x in JobIds(jobs) || (x == gid && jobs != [])
    requires forall x | x in v.inProgress :: items'[x] == v.inProgress[x]
    requires forall x | x in JobIds(jobs) :: items'[x].Single? && items'[x].group == gid
    requires jobs != [] ==> items'[gid].Whole?
    ensures EachOk(items', v.groups[gid := FirstGroup(jobs)])
  {
    var groups' := v.groups[gid := FirstGroup(jobs)];
    forall h | h in groups' ensures GroupOk(items', h, groups'[h]) && GroupClosed(items', h, groups'[h]) {
      if h != gid {
        assert GroupOk(v.inProgress, h, v.groups[h]) && GroupClosed(v.inProgress, h, v.groups[h]);
        GroupElsewhere(v.inProgress, items', h, v.groups[h]);
      } else if jobs != [] {
        assert JobIds(jobs)[0] !in groups'[gid].outcomes;
      }
    }
  }

  lemma SubmittedOwners(v: Server, gid: TaskId, jobs: seq<Job>, items': Items)
    requires OwnersOk(v.inProgress, v.groups) && FreshNames(v, gid, jobs)
    requires forall x :: x in items' <==> x in v.inProgress || x in JobIds(jobs) || (x == gid && jobs != [])
    requires forall x | x in v.inProgress :: items'[x] == v.inProgress[x]
    requires forall x | x in JobIds(jobs) :: items'[x].Single? && items'[x].group == gid
    requires jobs != [] ==> items'[gid].Whole?
    ensures OwnersOk(items', v.groups[gid := FirstGroup(jobs)])
  {
  }

  lemma SubmittedNames(groups: Groups, gid: TaskId, g: Group)
    requires NamesUnique(groups) && gid !in groups && gid !in g.jobs
    requires forall x, h | (x == gid || x in g.jobs) && h in groups :: x !in groups[h].jobs && x != h
    ensures NamesUnique(groups[gid := g])
  {
  }

  lemma SubmittedGroups(v: Server, gid: TaskId, jobs: seq<Job>, items': Items)
    requires GroupsOk(v.inProgress, v.groups) && FreshNames(v, gid, jobs)
    requires forall x :: x in items' <==> x in v.inProgress || x in JobIds(jobs) || (x == gid && jobs != [])
    requires forall x | x in v.inProgress :: items'[x] == v.inProgress[x]
    requires forall x | x in JobIds(jobs) :: items'[x].Single? && items'[x].group == gid
    requires jobs != [] ==> items'[gid].Whole?
    ensures GroupsOk(items', v.groups[gid := FirstGroup(jobs)])
  {
    SubmittedEach(v, gid, jobs, items');
    SubmittedOwners(v, gid, jobs, items');
    SubmittedNames(v.groups, gid, FirstGroup(jobs));
  }

  lemma SubmitItems(v: Server, gid: TaskId, jobs: seq<Job>, c: ContestId)
    requires FreshNames(v, gid, jobs)
    ensures var items' := DeferJobs(v.inProgress, jobs, c, gid)[gid := Whole];
            && (forall x :: x in items' <==> x in v.inProgress || x in JobIds(jobs) || x == gid)
            && (forall x | x in v.inProgress :: items'[x] == v.inProgress[x])
            && (forall x | x in JobIds(jobs) :: items'[x].Single? && items'[x].group == gid)
  {
    DeferredItems(v.inProgress, jobs, c, gid);
  }

  lemma TrackedWhole(items: Items, tasks: map<TaskId, Task>, gid: TaskId)
    requires Tracked(items, tasks) && gid !in items
    ensures Tracked(items[gid := Whole], tasks)
  {
  }

  lemma SubmitRuns(v: Server, gid: TaskId, jobs: seq<Job>, c: ContestId, priority: int, weight: nat)
    requires Coupled(v) && FreshNames(v, gid, jobs) && weight >= 1
    ensures var s1 := AddJobs(UpdateContest(v.sched, c, priority, weight), jobs, c);
            && Linked(v.manager, s1)
            && Tracked(DeferJobs(v.inProgress, jobs, c, gid)[gid := Whole], s1.tasks)
  {
    LinkedContest(v.manager, v.sched, c, priority, weight);
    AddJobsLinked(v.manager, UpdateContest(v.sched, c, priority, weight), v.inProgress, jobs, c, gid);
    DeferredItems(v.inProgress, jobs, c, gid);
    TrackedWhole(DeferJobs(v.inProgress, jobs, c, gid),
                 AddJobs(UpdateContest(v.sched, c, priority, weight), jobs, c).tasks, gid);
  }

  lemma SubmitResult(v: Server, gid: TaskId, jobs: seq<Job>, c: ContestId, priority: int, weight: nat, rnd: Generator)
    requires Coupled(v) && FreshNames(v, gid, jobs) && weight >= 1
    ensures Inv(AddJobs(UpdateContest(v.sched, c, priority, weight), jobs, c))
    ensures var v' := Submit(v, gid, jobs, c, priority, weight, rnd);
            var items' := DeferJobs(v.inProgress, jobs, c, gid)[gid := Whole];
            && Running(v')
            && v'.groups == v.groups[gid := FirstGroup(jobs)]
            && v'.inProgress == if jobs == [] then items' - {gid} else items'
  {
    SubmitRuns(v, gid, jobs, c, priority, weight);
    var g := Group(JobIds(jobs), map[], None);
    var v1 := v.(sched := AddJobs(UpdateContest(v.sched, c, priority, weight), jobs, c),
                 inProgress := DeferJobs(v.inProgress, jobs, c, gid)[gid := Whole],
                 groups := v.groups[gid := g]);
    TryExecuteRuns(v1, rnd);
    if jobs == [] {
      FinishGroupResult(TryExecute(v1, rnd), gid, rnd);
      UpdatedTwice(v.groups, gid, g, WithCollected(g));
    }
  }

  /** A submitted group is in progress with all its tasks, known to the scheduler. */
  lemma SubmitCoupled(v: Server, gid: TaskId, jobs: seq<Job>, c: ContestId, priority: int, weight: nat, rnd: Generator)
    requires Coupled(v) && FreshNames(v, gid, jobs) && weight >= 1
    ensures Inv(AddJobs(UpdateContest(v.sched, c, priority, weight), jobs, c))
    ensures var v' := Submit(v, gid, jobs, c, priority, weight, rnd);
            Coupled(v') && v'.groups == v.groups[gid := FirstGroup(jobs)]
  {
    SubmitResult(v, gid, jobs, c, priority, weight, rnd);
    SubmitGroups(v, gid, jobs, c);
  }

  lemma SubmitGroups(v: Server, gid: TaskId, jobs: seq<Job>, c: ContestId)
    requires GroupsOk(v.inProgress, v.groups) && FreshNames(v, gid, jobs)
    ensures var items' := DeferJobs(v.inProgress, jobs, c, gid)[gid := Whole];
            GroupsOk(if jobs == [] then items' - {gid} else items', v.groups[gid := FirstGroup(jobs)])
  {
    var items' := DeferJobs(v.inProgress, jobs, c, gid)[gid := Whole];
    SubmitItems(v, gid, jobs, c);
    SubmittedGroups(v, gid, jobs, if jobs == [] then items' - {gid} else items');
  }

  // ----- a worker is lost

  /** The manager as it would look if the lost worker's record were still registered. */
  ghost function StillThere(m: M.Manager, r: Retry, id: WorkerId): M.Manager {
    m.(data := m.data[id := r.wd], calls := r.calls)
  }

  /** The new task has the data of the old one, except for its arrival number. */
  ghost predicate SameJobs(tasks: map<TaskId, Task>, tasks': map<TaskId, Task>) {
    && tasks'.Keys == tasks.Keys
    && (forall y | y in tasks :: JobOf(tasks'[y]) == JobOf(tasks[y]) && tasks'[y].contest == tasks[y].contest)
  }

  lemma RenewedTask(tasks: map<TaskId, Task>, t: Task, x: TaskId)
    requires x in tasks && t.id == x && JobOf(t) == JobOf(tasks[x]) && t.contest == tasks[x].contest
    ensures SameJobs(tasks, (tasks - {x})[x := t])
  {
  }

  lemma RetryState(r: Retry, x: TaskId, item: Item)
    requires Inv(r.s) && x in r.s.runsOn && x in r.s.tasks
    requires item.Single? && item.job == JobOf(r.s.tasks[x]) && item.contest == r.s.tasks[x].contest
    ensures var s' := RetryOne(r, x, item).s;
            && s'.runsOn == r.s.runsOn - {x} && s'.contests == r.s.contests
            && SameJobs(r.s.tasks, s'.tasks) && SameWorkers(r.s.workers, s'.workers)
  {
    FinishState(r.s, x);
    assert r.s.tasks[x].id == x by { KnownContest(r.s, x); }
    var s1 := DelTask(r.s, x);
    AddTaskIs(s1, item.job, item.contest);
    RenewedTask(r.s.tasks, NewTask(s1, item.job, item.contest), x);
  }

  lemma RetryOneLinked(m: M.Manager, r: Retry, id: WorkerId, x: TaskId, item: Item)
    requires Linked(StillThere(m, r, id), r.s) && x in r.s.runsOn && r.s.runsOn[x] == id
    requires x in r.s.tasks && item.Single? && item.job == JobOf(r.s.tasks[x]) && item.contest == r.s.tasks[x].contest
    ensures var r' := RetryOne(r, x, item);
            Linked(StillThere(m, r', id), r'.s) && r'.impossible == r.impossible
  {
    var m0 := StillThere(m, r, id);
    LinkedFinish(m0, r.s, x);
    assert Free(m0, x) == StillThere(m, RetryOne(r, x, item), id) by { FreeStillThere(m, r, id, x, item); }
    KnownContest(r.s, x);
    FinishState(r.s, x);
    LinkedSubmit(Free(m0, x), DelTask(r.s, x), item.job, item.contest);
  }

  lemma FreeStillThere(m: M.Manager, r: Retry, id: WorkerId, x: TaskId, item: Item)
    requires x in r.calls && r.calls[x] == id && Inv(r.s) && x in r.s.tasks && item.Single?
    ensures Free(StillThere(m, r, id), x) == StillThere(m, RetryOne(r, x, item), id)
  {
    FreedAtWorker(m, r.calls, r.wd, id, x);
  }

  lemma FreedAtWorker(m: M.Manager, calls: map<TaskId, WorkerId>, wd: M.WorkerData, id: WorkerId, x: TaskId)
    requires x in calls && calls[x] == id
    ensures Free(m.(data := m.data[id := wd], calls := calls), x)
            == m.(data := m.data[id := FreeSlot(wd, x)], calls := calls - {x})
  {
    assert m.data[id := wd][id := FreeSlot(wd, x)] == m.data[id := FreeSlot(wd, x)];
  }

  lemma KnownContest(s: State, x: TaskId)
    requires Inv(s) && x in s.tasks
    ensures s.tasks[x].contest in s.contests && s.tasks[x].id == x
  {
  }

  /** `order` lists the tasks still attached to the lost worker, each with its environment in progress. */
  ghost predicate Outstanding(r: Retry, id: WorkerId, order: seq<TaskId>, items: Items) {
    && Distinct(order) && Elements(order) == On(r.s.runsOn, id)
    && Tracked(items, r.s.tasks)
  }

  lemma OutstandingRetryable(r: Retry, id: WorkerId, order: seq<TaskId>, items: Items)
    requires Inv(r.s) && Outstanding(r, id, order, items)
    ensures Retryable(r, order, items)
    ensures forall i | 0 <= i < |order| :: order[i] in r.s.runsOn && r.s.runsOn[order[i]] == id
  {
    forall i | 0 <= i < |order| ensures order[i] in On(r.s.runsOn, id) { assert order[i] in Elements(order); }
    forall i | 0 <= i < |order|
      ensures order[i] in r.s.tasks && items[order[i]].job.id == order[i] && items[order[i]].contest in r.s.contests
    {
      KnownContest(r.s, order[i]);
    }
  }

  lemma TrackedSame(items: Items, tasks: map<TaskId, Task>, tasks': map<TaskId, Task>)
    requires Tracked(items, tasks) && SameJobs(tasks, tasks')
    ensures Tracked(items, tasks')
  {
  }

  lemma OutstandingRest(r: Retry, r': Retry, id: WorkerId, order: seq<TaskId>, items: Items)
    requires Outstanding(r, id, order, items) && order != []
    requires r'.s.runsOn == r.s.runsOn - {order[0]} && SameJobs(r.s.tasks, r'.s.tasks)
    ensures Outstanding(r', id, order[1..], items)
  {
    TrackedSame(items, r.s.tasks, r'.s.tasks);
    assert Elements(order[1..]) == Elements(order) - {order[0]} by {
      forall x | x in order && x != order[0] ensures x in order[1..] {
        var i :| 0 <= i < |order| && order[i] == x;
        assert order[1..][i - 1] == x;
      }
      forall i | 0 <= i < |order[1..]| ensures order[1..][i] != order[0] { assert order[i + 1] != order[0]; }
    }
    assert On(r'.s.runsOn, id) == On(r.s.runsOn, id) - {order[0]};
  }

  ghost predicate Emptied(m: M.Manager, r: Retry, id: WorkerId, items: Items) {
    && Linked(StillThere(m, r, id), r.s) && Tracked(items, r.s.tasks)
    && On(r.s.runsOn, id) == {} && !r.impossible
  }

  /** Every call of the lost worker is freed without trouble, and its task is queued again. */
  lemma {:induction false} RetryAllLinked(m: M.Manager, r: Retry, id: WorkerId, order: seq<TaskId>, items: Items)
    requires Linked(StillThere(m, r, id), r.s) && Outstanding(r, id, order, items) && !r.impossible && id in r.s.workers
    ensures Retryable(r, order, items)
    ensures var r' := RetryAll(r, order, items);
            Emptied(m, r', id, items) && id in r'.s.workers && r'.s.tasks.Keys == r.s.tasks.Keys
    decreases |order|
  {
    OutstandingRetryable(r, id, order, items);
    if order == [] {
      assert Elements(order) == {};
    } else {
      var x := order[0];
      var r1 := RetryOne(r, x, items[x]);
      RetryOneLinked(m, r, id, x, items[x]);
      RetryState(r, x, items[x]);
      OutstandingRest(r, r1, id, order, items);
      RetryAllLinked(m, r1, id, order[1..], items);
    }
  }

  // the worker itself goes

  lemma LeaveAnnounced(m: M.Manager, ws: Workers, id: WorkerId)
    requires Announced(m, ws)
    ensures Announced(Forget(m, id), ws - {id})
  {
  }

  lemma StatsKeep(m: M.Manager)
    ensures M.UpdateStats(m).data == m.data && M.UpdateStats(m).calls == m.calls
  {
  }

  lemma LeaveAgrees(m: M.Manager, ws: Workers, id: WorkerId)
    requires Agrees(m, ws)
    ensures Agrees(M.UpdateStats(Forget(m, id)), ws - {id})
  {
    ForgetOk(m, id);
    LeaveAnnounced(m, ws, id);
    StatsKeep(Forget(m, id));
  }

  lemma LeaveMirrors(m: M.Manager, runsOn: map<TaskId, WorkerId>, tasks: map<TaskId, Task>, id: WorkerId)
    requires Mirrors(m, runsOn, tasks)
    ensures Mirrors(M.UpdateStats(Forget(m, id)), runsOn, tasks)
  {
    StatsKeep(Forget(m, id));
  }

  lemma LinkedLeave(m: M.Manager, s: State, id: WorkerId)
    requires Linked(m, s) && id in s.workers && On(s.runsOn, id) == {}
    ensures s.workers[id].running == 0
    ensures Linked(M.UpdateStats(Forget(m, id)), DelWorker(s, id)) && DelWorker(s, id).tasks == s.tasks
  {
    assert WorkerLoad(s.workers[id], s.tasks, On(s.runsOn, id));
    DelWorkerInv(s, id);
    DelWorkerIs(s, id);
    LeaveAgrees(m, s.workers, id);
    LeaveMirrors(m, s.runsOn, s.tasks, id);
  }

  lemma ForgetStillThere(m: M.Manager, r: Retry, id: WorkerId)
    ensures Forget(StillThere(m, r, id), id) == Forget(m, id).(calls := r.calls)
  {
    assert m.data[id := r.wd] - {id} == m.data - {id};
  }

  /** `order` is some order of the lost worker's task set. */
  ghost predicate OrderOf(v: Server, id: WorkerId, order: seq<TaskId>) {
    id in v.manager.data && Distinct(order) && Elements(order) == v.manager.data[id].tasks
  }

  function Loss(v: Server, id: WorkerId): Retry
    requires id in v.manager.data
  {
    Retry(v.sched, v.manager.calls, v.manager.data[id], false)
  }

  lemma RecordKept(m: M.Manager, r: Retry, id: WorkerId)
    requires id in m.data && r.wd == m.data[id] && r.calls == m.calls
    ensures StillThere(m, r, id) == m
  {
    assert m.data[id := m.data[id]] == m.data;
  }

  lemma LossOutstanding(v: Server, id: WorkerId, order: seq<TaskId>)
    requires Mirrors(v.manager, v.sched.runsOn, v.sched.tasks) && Tracked(v.inProgress, v.sched.tasks)
    requires OrderOf(v, id, order)
    ensures Outstanding(Loss(v, id), id, order, v.inProgress)
  {
  }

  lemma LossEmptied(v: Server, id: WorkerId, order: seq<TaskId>)
    requires Running(v) && OrderOf(v, id, order)
    ensures id in v.sched.workers && Retryable(Loss(v, id), order, v.inProgress)
    ensures var r' := RetryAll(Loss(v, id), order, v.inProgress);
            id in r'.s.workers && Emptied(v.manager, r', id, v.inProgress) && r'.s.tasks.Keys == v.sched.tasks.Keys
  {
    assert id in v.sched.workers;
    RecordKept(v.manager, Loss(v, id), id);
    LossOutstanding(v, id, order);
    RetryAllLinked(v.manager, Loss(v, id), id, order, v.inProgress);
  }

  lemma EmptiedLeaves(m: M.Manager, r: Retry, id: WorkerId, items: Items)
    requires Emptied(m, r, id, items) && id in r.s.workers
    ensures Linked(M.UpdateStats(Forget(m, id).(calls := r.calls)), DelWorker(r.s, id))
    ensures Tracked(items, DelWorker(r.s, id).tasks) && DelWorker(r.s, id).tasks == r.s.tasks
  {
    LinkedLeave(StillThere(m, r, id), r.s, id);
    ForgetStillThere(m, r, id);
  }

  /** Losing a worker queues its tasks again and fires no deferred. */
  lemma LoseCoupled(v: Server, id: WorkerId, order: seq<TaskId>)
    requires Coupled(v) && OrderOf(v, id, order)
    ensures id in v.sched.workers && Retryable(Loss(v, id), order, v.inProgress)
    ensures id in RetryAll(Loss(v, id), order, v.inProgress).s.workers
    ensures var v' := Lose(v, id, order);
            && Coupled(v') && v'.groups == v.groups && v'.inProgress == v.inProgress
            && v'.sched.tasks.Keys == v.sched.tasks.Keys
  {
    LossEmptied(v, id, order);
    EmptiedLeaves(v.manager, RetryAll(Loss(v, id), order, v.inProgress), id, v.inProgress);
  }

  // ----- runs

  datatype Event =
    | SubmitGroup(gid: TaskId, jobs: seq<Job>, c: ContestId, priority: int, weight: nat)
    | CallEnds(x: TaskId, o: Outcome)
    | WorkerJoins(w: WorkerId, concurrency: nat, ram: nat, cpu: bool)
    | WorkerLost(id: WorkerId, order: seq<TaskId>)

  /**
   What the environment guarantees: identifiers are fresh, weights positive, worker names not already
   connected, announced amounts positive; a call ends only while it is pending.
   */
  ghost predicate Enabled(v: Server, e: Event) {
    match e
    case SubmitGroup(gid, jobs, c, priority, weight) => FreshNames(v, gid, jobs) && weight >= 1
    case CallEnds(x, o) => x in v.manager.calls
    case WorkerJoins(w, concurrency, ram, cpu) => w !in v.manager.data && concurrency > 0 && ram > 0
    case WorkerLost(id, order) => OrderOf(v, id, order)
  }

  /** One reactor event, including the `_tryExecute` at its end. */
  ghost function React(v: Server, e: Event, rnd: Generator): (v': Server)
    requires Coupled(v) && Enabled(v, e)
  {
    match e
    case SubmitGroup(gid, jobs, c, priority, weight) =>
      SubmitCoupled(v, gid, jobs, c, priority, weight, rnd);
      Submit(v, gid, jobs, c, priority, weight, rnd)
    case CallEnds(x, o) =>
      FinishCallCoupled(v, x, o, rnd);
      FinishCall(v, x, o, rnd)
    case WorkerJoins(w, concurrency, ram, cpu) =>
      JoinCoupled(v, w, concurrency, ram, cpu);
      TryExecute(Join(v, w, concurrency, ram, cpu), rnd)
    case WorkerLost(id, order) =>
      LoseCoupled(v, id, order);
      TryExecute(Lose(v, id, order), rnd)
  }

  /** Outcomes are only ever added, one per event, and never change; collected groups stay as they are. */
  ghost predicate Grows(groups: Groups, groups': Groups) {
    forall g | g in groups ::
      && g in groups' && groups'[g].jobs == groups[g].jobs
      && (forall x | x in groups[g].outcomes ::
            x in groups'[g].outcomes && groups'[g].outcomes[x] == groups[g].outcomes[x])
      && (groups[g].collected.Some? ==> groups'[g] == groups[g])
  }

  lemma FiredGrows(items: Items, groups: Groups, gid: TaskId, x: TaskId, o: Outcome)
    requires EachOk(items, groups) && gid in groups && x in groups[gid].jobs && x in items && items[x].Single?
    ensures Grows(groups, groups[gid := Fired(groups[gid], x, o)])
  {
    assert GroupOk(items, gid, groups[gid]) && GroupClosed(items, gid, groups[gid]);
    var i :| 0 <= i < |groups[gid].jobs| && groups[gid].jobs[i] == x;
    assert !AllFired(groups[gid]);
  }

  lemma FinishCallGrows(v: Server, x: TaskId, o: Outcome, rnd: Generator)
    requires Coupled(v) && x in v.manager.calls
    ensures x in v.inProgress && v.inProgress[x].Single? && v.inProgress[x].group in v.groups
    ensures Grows(v.groups, FinishCall(v, x, o, rnd).groups)
  {
    CallIsTracked(v, x);
    FinishCallCoupled(v, x, o, rnd);
    assert EachOk(v.inProgress, v.groups) && OwnersOk(v.inProgress, v.groups);
    FiredGrows(v.inProgress, v.groups, v.inProgress[x].group, x, o);
  }

  lemma NewGroupGrows(groups: Groups, gid: TaskId, g: Group)
    requires gid !in groups
    ensures Grows(groups, groups[gid := g])
  {
  }

  lemma WorkersComeAndGo(v: Server, e: Event, rnd: Generator)
    requires Coupled(v) && Enabled(v, e) && (e.WorkerLost? || e.WorkerJoins?)
    ensures Coupled(React(v, e, rnd)) && React(v, e, rnd).groups == v.groups
  {
    match e
    case WorkerJoins(w, concurrency, ram, cpu) =>
      JoinCoupled(v, w, concurrency, ram, cpu);
      TryExecuteCoupled(Join(v, w, concurrency, ram, cpu), rnd);
    case WorkerLost(id, order) =>
      LoseCoupled(v, id, order);
      TryExecuteCoupled(Lose(v, id, order), rnd);
  }

  lemma GroupComes(v: Server, e: Event, rnd: Generator)
    requires Coupled(v) && Enabled(v, e) && e.SubmitGroup?
    ensures Coupled(React(v, e, rnd)) && Grows(v.groups, React(v, e, rnd).groups)
  {
    SubmitCoupled(v, e.gid, e.jobs, e.c, e.priority, e.weight, rnd);
    NewGroupGrows(v.groups, e.gid, FirstGroup(e.jobs));
  }

  lemma CallGoes(v: Server, e: Event, rnd: Generator)
    requires Coupled(v) && Enabled(v, e) && e.CallEnds?
    ensures Coupled(React(v, e, rnd)) && Grows(v.groups, React(v, e, rnd).groups)
  {
    FinishCallCoupled(v, e.x, e.o, rnd);
    FinishCallGrows(v, e.x, e.o, rnd);
  }

  /**
   Every event keeps the components coupled: no guard of `runOnWorker` raises, the "impossible" branch is
   not taken, no deferred fires twice, and what has fired stays as it is.
   */
  lemma ReactCoupled(v: Server, e: Event, rnd: Generator)
    requires Coupled(v) && Enabled(v, e)
    ensures Coupled(React(v, e, rnd)) && Grows(v.groups, React(v, e, rnd).groups)
    ensures e.WorkerLost? || e.WorkerJoins? ==> React(v, e, rnd).groups == v.groups
  {
    match e
    case SubmitGroup(gid, jobs, c, priority, weight) => GroupComes(v, e, rnd);
    case CallEnds(x, o) => CallGoes(v, e, rnd);
    case WorkerJoins(w, concurrency, ram, cpu) => WorkersComeAndGo(v, e, rnd);
    case WorkerLost(id, order) => WorkersComeAndGo(v, e, rnd);
  }

  const START := Server(NO_WORKERS, SchedulerState.INITIAL, map[], map[], NoFault)

  lemma StartCoupled()
    ensures Coupled(START)
  {
    InitialInv();
  }

  /**
   The state after a sequence of events; events that are not enabled do not happen. `React` is defined for
   coupled servers, and by `RunCoupled` there are no others.
   */
  ghost function RunServer(es: seq<Event>, rnd: Generator): Server {
    if es == [] then START
    else
      var v, e := RunServer(es[..|es| - 1], rnd), es[|es| - 1];
      if Coupled(v) && Enabled(v, e) then React(v, e, rnd) else v
  }

  lemma {:induction false} RunCoupled(es: seq<Event>, rnd: Generator)
    ensures Coupled(RunServer(es, rnd))
  {
    if es == [] {
      StartCoupled();
    } else {
      var v, e := RunServer(es[..|es| - 1], rnd), es[|es| - 1];
      RunCoupled(es[..|es| - 1], rnd);
      if Enabled(v, e) { ReactCoupled(v, e, rnd); }
    }
  }

  lemma RunMore(es: seq<Event>, e: Event, rnd: Generator)
    requires Coupled(RunServer(es, rnd)) && Enabled(RunServer(es, rnd), e)
    ensures RunServer(es + [e], rnd) == React(RunServer(es, rnd), e, rnd)
  {
    assert (es + [e])[..|es + [e]| - 1] == es;
  }

  /**
   In every reachable state, between two events: the manager's view of each worker is the scheduler's, and
   nothing has gone wrong.
   */
  lemma ReachableCoupling(es: seq<Event>, rnd: Generator)
    ensures var v := RunServer(es, rnd);
            && v.fault == NoFault
            && v.manager == M.UpdateStats(v.manager)
            && v.manager.calls == v.sched.runsOn
            && v.manager.data.Keys == v.sched.workers.Keys
            && (forall w | w in v.manager.data :: SameView(v, w))
  {
    RunCoupled(es, rnd);
    var v := RunServer(es, rnd);
    forall w | w in v.manager.data ensures SameView(v, w) {
      assert WorkerLoad(v.sched.workers[w], v.sched.tasks, On(v.sched.runsOn, w));
    }
  }

  /** What the manager believes of a worker is what the scheduler knows. */
  ghost predicate SameView(v: Server, w: WorkerId) {
    && w in v.manager.data && w in v.sched.workers
    && v.manager.data[w].tasks == On(v.sched.runsOn, w)
    && v.manager.data[w].runningCpuExec == v.sched.workers[w].realBusy
  }

  /**
   In every reachable state a submitted job has either fired its deferred or is in progress, known to the
   scheduler and in exactly one of its places; its group is collected exactly when all its jobs have fired,
   and then each job is in exactly one of results and failures.
   */
  lemma NoTaskLost(es: seq<Event>, rnd: Generator, gid: TaskId, x: TaskId)
    ensures var v := RunServer(es, rnd);
            gid in v.groups && x in v.groups[gid].jobs ==> Accounted(v, gid, v.groups[gid], x)
  {
    RunCoupled(es, rnd);
    var v := RunServer(es, rnd);
    if gid in v.groups && x in v.groups[gid].jobs {
      assert GroupOk(v.inProgress, gid, v.groups[gid]) && GroupClosed(v.inProgress, gid, v.groups[gid]);
      if x in v.sched.tasks { KnownPlace(v.sched, x); }
      JobAccounted(v, gid, v.groups[gid], x);
    }
  }

  lemma KnownPlace(s: State, x: TaskId)
    requires Inv(s) && x in s.tasks
    ensures Runs.InOnePlace(s, x)
  {
  }

  lemma JobAccounted(v: Server, gid: TaskId, g: Group, x: TaskId)
    requires Tracked(v.inProgress, v.sched.tasks) && GroupOk(v.inProgress, gid, g) && GroupClosed(v.inProgress, gid, g)
    requires x in g.jobs && (x in v.sched.tasks ==> Runs.InOnePlace(v.sched, x))
    ensures Accounted(v, gid, g, x)
  {
    assert AllFired(g) <==> forall y | y in g.jobs :: y in g.outcomes;
    if AllFired(g) { CollectSplits(g.jobs, g.outcomes); }
  }

  /** Where job `x` of group `gid` is, and how far its group is. */
  ghost predicate Accounted(v: Server, gid: TaskId, g: Group, x: TaskId) {
    && (x in g.outcomes <==> x !in v.inProgress)
    && (x !in g.outcomes <==> x in v.sched.tasks)
    && (x in v.sched.tasks ==>
          x in v.inProgress && v.inProgress[x].Single?
          && v.inProgress[x].job == JobOf(v.sched.tasks[x]) && v.inProgress[x].group == gid
          && Runs.InOnePlace(v.sched, x))
    && (g.collected.Some? <==> forall y | y in g.jobs :: y in g.outcomes)
    && (g.collected.Some? <==> gid !in v.inProgress)
    && (g.collected.Some? ==> |g.collected.value.results| + |g.collected.value.failed| == |g.jobs|)
    && (g.collected.Some? ==> x in g.outcomes && Sorted(g.collected.value, x, g.outcomes[x]))
  }

  /** A job is in the results with its result, or its error is among the failures. */
  ghost predicate Sorted(c: Collected, x: TaskId, o: Outcome) {
    match o
    case Done(r) => x in c.results && c.results[x] == r
    case Failed(e) => x !in c.results && e in c.failed
  }
}

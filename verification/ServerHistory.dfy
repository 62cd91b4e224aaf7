/**
 What the server knows, told by the events of a run (taskmanager.py:149-269, workermanager.py:91-172,
 prioritizing.py:490-503): the settings of contests, the workers, the jobs of groups and their outcomes are those of
 the last events that set them.
 */
module ServerHistory {
  import opened Types
  import opened Matching
  import opened TaskQueues
  import M = ManagerModel
  import opened ManagerSteps
  import opened SchedulerState
  import opened SchedulerInvariant
  import opened Scheduling
  import opened SchedulerProperties
  import opened Coupling
  import opened Server
  import opened ServerInvariant
  import Runs = SchedulerRuns

  /** What an event can be about. */
  datatype Topic =
    | OfContest(c: ContestId) | OfWorker(w: WorkerId) | OfGroup(gid: TaskId) | OfJob(x: TaskId) | OfCall(x: TaskId)

  predicate Concerns(e: Event, topic: Topic) {
    match topic
    case OfContest(c) => e.SubmitGroup? && e.c == c
    case OfWorker(w) => (e.WorkerJoins? && e.w == w) || (e.WorkerLost? && e.id == w)
    case OfGroup(gid) => e.SubmitGroup? && e.gid == gid
    case OfJob(x) => e.SubmitGroup? && x in JobIds(e.jobs)
    case OfCall(x) => e.CallEnds? && e.x == x
  }

  /** The last event on the topic. */
  function LastOn(history: seq<Event>, topic: Topic): (e: Option<Event>)
    ensures e.Some? ==> e.value in history && Concerns(e.value, topic)
  {
    if history == [] then None
    else
      var e := history[|history| - 1];
      if Concerns(e, topic) then Some(e) else LastOn(history[..|history| - 1], topic)
  }

  /** The events of a run that have happened; the others were not enabled when their turn came. */
  ghost function History(es: seq<Event>, rnd: Generator): seq<Event> {
    if es == [] then []
    else
      var n := |es| - 1;
      History(es[..n], rnd) + if Enabled(RunServer(es[..n], rnd), es[n]) then [es[n]] else []
  }

  /** The next event, if there is one, leads from `v` to `v'`. */
  ghost predicate Leads(v: Server, next: seq<Event>, rnd: Generator, v': Server) {
    && Coupled(v)
    && if next == [] then v' == v
       else |next| == 1 && Enabled(v, next[0]) && v' == React(v, next[0], rnd)
  }

  lemma RunLeads(es: seq<Event>, rnd: Generator) returns (next: seq<Event>)
    requires es != []
    ensures History(es, rnd) == History(es[..|es| - 1], rnd) + next
    ensures Leads(RunServer(es[..|es| - 1], rnd), next, rnd, RunServer(es, rnd))
  {
    RunCoupled(es[..|es| - 1], rnd);
    var v, e := RunServer(es[..|es| - 1], rnd), es[|es| - 1];
    next := if Enabled(v, e) then [e] else [];
  }

  function NewLast(was: Option<Event>, next: seq<Event>, topic: Topic): Option<Event> {
    if next != [] && Concerns(next[0], topic) then Some(next[0]) else was
  }

  lemma LastGoesOn(history: seq<Event>, next: seq<Event>, topic: Topic)
    requires |next| <= 1
    ensures LastOn(history + next, topic) == NewLast(LastOn(history, topic), next, topic)
  {
    if next == [] {
      assert history + next == history;
    } else {
      assert (history + next)[..|history|] == history;
    }
  }

  // ----- contests and workers

  /** Contests and what is known of workers stay the same. */
  ghost predicate Keeps(s: State, s': State) {
    s'.contests == s.contests && SameWorkers(s.workers, s'.workers)
  }

  lemma ExecuteKeeps(v: Server, rnd: Generator)
    requires Running(v)
    ensures Keeps(v.sched, TryExecute(v, rnd).sched)
  {
    TrackedKinds(v.inProgress, v.sched.tasks);
    ExecuteOk(v.manager, v.sched, KindsIn(v.inProgress), rnd);
  }

  lemma FinishGroupKeeps(v: Server, gid: TaskId, rnd: Generator)
    requires Running(v) && gid in v.groups && AllFired(v.groups[gid])
    requires gid in v.inProgress ==> v.inProgress[gid].Whole?
    ensures Keeps(v.sched, FinishGroup(v, gid, rnd).sched)
  {
    TrackedWithoutGroup(v.inProgress, v.sched.tasks, gid);
    ExecuteKeeps(v.(groups := v.groups[gid := WithCollected(v.groups[gid])], inProgress := v.inProgress - {gid}), rnd);
  }

  lemma GatherKeeps(v: Server, gid: TaskId, x: TaskId, o: Outcome, rnd: Generator)
    requires Running(v) && gid in v.groups && x !in v.groups[gid].outcomes
    requires gid in v.inProgress ==> v.inProgress[gid].Whole?
    ensures Keeps(v.sched, Gather(v, gid, x, o, rnd).sched)
  {
    var g := v.groups[gid].(outcomes := v.groups[gid].outcomes[x := o]);
    if AllFired(g) { FinishGroupKeeps(v.(groups := v.groups[gid := g]), gid, rnd); }
  }

  lemma KeepsTwice(s: State, s1: State, s2: State)
    requires Keeps(s, s1) && Keeps(s1, s2)
    ensures Keeps(s, s2)
  {
  }

  lemma FinishCallKeeps(v: Server, x: TaskId, o: Outcome, rnd: Generator)
    requires Coupled(v) && x in v.manager.calls
    ensures x in v.inProgress && v.inProgress[x].Single? && v.inProgress[x].group in v.groups
    ensures Keeps(v.sched, FinishCall(v, x, o, rnd).sched)
  {
    CallIsTracked(v, x);
    var gid := v.inProgress[x].group;
    LinkedFinish(v.manager, v.sched, x);
    FinishState(v.sched, x);
    TrackedFinish(v.inProgress, v.sched.tasks, x);
    var freed := v.(manager := Free(v.manager, x), sched := DelTask(v.sched, x), inProgress := v.inProgress - {x});
    ExecuteKeeps(freed, rnd);
    TryExecuteRuns(freed, rnd);
    FiredGroups(v.inProgress, v.groups, gid, x, o);
    GatherKeeps(TryExecute(freed, rnd), gid, x, o, rnd);
    KeepsTwice(v.sched, freed.sched, TryExecute(freed, rnd).sched);
    KeepsTwice(v.sched, TryExecute(freed, rnd).sched, FinishCall(v, x, o, rnd).sched);
  }

  lemma {:induction false} AddJobsKeeps(s: State, jobs: seq<Job>, c: ContestId)
    ensures Keeps(s, AddJobs(s, jobs, c))
    decreases |jobs|
  {
    if jobs != [] {
      AddJobsKeeps(AddTask(s, jobs[0], c), jobs[1..], c);
    }
  }

  lemma SubmitSets(v: Server, gid: TaskId, jobs: seq<Job>, c: ContestId, priority: int, weight: nat, rnd: Generator)
    requires Coupled(v) && FreshNames(v, gid, jobs) && weight >= 1
    ensures Inv(AddJobs(UpdateContest(v.sched, c, priority, weight), jobs, c))
    ensures var v' := Submit(v, gid, jobs, c, priority, weight, rnd);
            && v'.sched.contests == v.sched.contests[c := Contest(priority, weight)]
            && SameWorkers(v.sched.workers, v'.sched.workers)
  {
    SubmitRuns(v, gid, jobs, c, priority, weight);
    AddJobsKeeps(UpdateContest(v.sched, c, priority, weight), jobs, c);
    var v1 := v.(sched := AddJobs(UpdateContest(v.sched, c, priority, weight), jobs, c),
                 inProgress := DeferJobs(v.inProgress, jobs, c, gid)[gid := Whole],
                 groups := v.groups[gid := Group(JobIds(jobs), map[], None)]);
    ExecuteKeeps(v1, rnd);
    TryExecuteRuns(v1, rnd);
    if jobs == [] { FinishGroupKeeps(TryExecute(v1, rnd), gid, rnd); }
  }

  lemma RetryKeeps(r: Retry, x: TaskId, item: Item)
    requires Inv(r.s) && x in r.s.tasks && item.Single?
    ensures Keeps(r.s, RetryOne(r, x, item).s)
  {
    DelTaskIs(r.s, x);
    AddTaskIs(DelTask(r.s, x), item.job, item.contest);
  }

  lemma {:induction false} RetryAllKeeps(r: Retry, order: seq<TaskId>, items: Items)
    requires Retryable(r, order, items)
    ensures Keeps(r.s, RetryAll(r, order, items).s)
    decreases |order|
  {
    if order != [] {
      var r1 := RetryOne(r, order[0], items[order[0]]);
      RetryOneInv(r, order[0], items[order[0]]);
      RetryKeeps(r, order[0], items[order[0]]);
      RetryAllKeeps(r1, order[1..], items);
      KeepsTwice(r.s, r1.s, RetryAll(r, order, items).s);
    }
  }

  lemma GoneWorker(ws: Workers, ws': Workers, id: WorkerId)
    requires SameWorkers(ws, ws')
    ensures SameWorkers(ws - {id}, ws' - {id})
  {
  }

  lemma LoseSets(v: Server, id: WorkerId, order: seq<TaskId>, rnd: Generator)
    requires Coupled(v) && OrderOf(v, id, order)
    ensures id in v.sched.workers && Retryable(Loss(v, id), order, v.inProgress)
    ensures id in RetryAll(Loss(v, id), order, v.inProgress).s.workers
    ensures Coupled(Lose(v, id, order))
    ensures var v' := TryExecute(Lose(v, id, order), rnd);
            v'.sched.contests == v.sched.contests && SameWorkers(v.sched.workers - {id}, v'.sched.workers)
  {
    LoseCoupled(v, id, order);
    var r := RetryAll(Loss(v, id), order, v.inProgress);
    RetryAllKeeps(Loss(v, id), order, v.inProgress);
    DelWorkerIs(r.s, id);
    GoneWorker(v.sched.workers, r.s.workers, id);
    ExecuteKeeps(Lose(v, id, order), rnd);
  }

  lemma JoinSets(v: Server, id: WorkerId, concurrency: nat, ram: nat, cpu: bool, rnd: Generator)
    requires Coupled(v) && id !in v.manager.data && concurrency > 0 && ram > 0
    ensures Coupled(Join(v, id, concurrency, ram, cpu))
    ensures var v' := TryExecute(Join(v, id, concurrency, ram, cpu), rnd);
            && v'.sched.contests == v.sched.contests
            && SameWorkers(v.sched.workers[id := Worker(id, concurrency, ram, cpu, false, 0, 0)], v'.sched.workers)
  {
    JoinCoupled(v, id, concurrency, ram, cpu);
    AddWorkerIs(v.sched, id, concurrency, ram, cpu);
    ExecuteKeeps(Join(v, id, concurrency, ram, cpu), rnd);
  }

  /** What an event does to the settings of contests and to the workers. */
  ghost predicate Sets(s: State, e: Event, s': State) {
    match e
    case SubmitGroup(gid, jobs, c, priority, weight) =>
      s'.contests == s.contests[c := Contest(priority, weight)] && SameWorkers(s.workers, s'.workers)
    case CallEnds(x, o) => Keeps(s, s')
    case WorkerJoins(w, concurrency, ram, cpu) =>
      && s'.contests == s.contests
      && SameWorkers(s.workers[w := Worker(w, concurrency, ram, cpu, false, 0, 0)], s'.workers)
    case WorkerLost(id, order) => s'.contests == s.contests && SameWorkers(s.workers - {id}, s'.workers)
  }

  lemma ReactSets(v: Server, e: Event, rnd: Generator)
    requires Coupled(v) && Enabled(v, e)
    ensures Sets(v.sched, e, React(v, e, rnd).sched)
  {
    match e
    case SubmitGroup(gid, jobs, c, priority, weight) => SubmitSets(v, gid, jobs, c, priority, weight, rnd);
    case CallEnds(x, o) => FinishCallKeeps(v, x, o, rnd);
    case WorkerJoins(w, concurrency, ram, cpu) => JoinSets(v, w, concurrency, ram, cpu, rnd);
    case WorkerLost(id, order) => LoseSets(v, id, order, rnd);
  }

  ghost predicate SetsNext(s: State, next: seq<Event>, s': State) {
    if next == [] then s' == s else |next| == 1 && Sets(s, next[0], s')
  }

  lemma LeadsSets(v: Server, next: seq<Event>, rnd: Generator, v': Server)
    requires Leads(v, next, rnd, v')
    ensures SetsNext(v.sched, next, v'.sched)
  {
    if next != [] { ReactSets(v, next[0], rnd); }
  }

  lemma StepSets(es: seq<Event>, rnd: Generator, topic: Topic) returns (s: State, next: seq<Event>, s': State)
    requires es != []
    ensures s == RunServer(es[..|es| - 1], rnd).sched && s' == RunServer(es, rnd).sched && SetsNext(s, next, s')
    ensures LastOn(History(es, rnd), topic) == NewLast(LastOn(History(es[..|es| - 1], rnd), topic), next, topic)
  {
    next := RunLeads(es, rnd);
    LeadsSets(RunServer(es[..|es| - 1], rnd), next, rnd, RunServer(es, rnd));
    LastGoesOn(History(es[..|es| - 1], rnd), next, topic);
    s, s' := RunServer(es[..|es| - 1], rnd).sched, RunServer(es, rnd).sched;
  }

  /** The settings of a contest, if it has any. */
  ghost predicate HasSettings(contests: Contests, c: ContestId, e: Option<Event>) {
    if e.Some? && e.value.SubmitGroup? then
      c in contests && contests[c].priority == e.value.priority && contests[c].weight == e.value.weight
    else c !in contests
  }

  lemma SettingsStep(s: State, next: seq<Event>, s': State, c: ContestId, was: Option<Event>)
    requires HasSettings(s.contests, c, was) && SetsNext(s, next, s')
    ensures HasSettings(s'.contests, c, NewLast(was, next, OfContest(c)))
  {
  }

  /**
   In every reachable server a contest has the priority and the weight of the last group that was submitted for it,
   and there are no other contests.
   */
  lemma {:induction false} ContestsAreSubmitted(es: seq<Event>, rnd: Generator, c: ContestId)
    ensures HasSettings(RunServer(es, rnd).sched.contests, c, LastOn(History(es, rnd), OfContest(c)))
  {
    if es != [] {
      ContestsAreSubmitted(es[..|es| - 1], rnd, c);
      var s, next, s' := StepSets(es, rnd, OfContest(c));
      SettingsStep(s, next, s', c, LastOn(History(es[..|es| - 1], rnd), OfContest(c)));
    }
  }

  /** What the scheduler knows of a worker is what it announced when it joined, if it is still there. */
  ghost predicate HasAnnounced(ws: Workers, w: WorkerId, e: Option<Event>) {
    if e.Some? && e.value.WorkerJoins? then
      && w in ws && ws[w].concurrency == e.value.concurrency && ws[w].totalRam == e.value.ram
      && ws[w].cpuEnabled == e.value.cpu
    else w !in ws
  }

  lemma AnnouncedStep(s: State, next: seq<Event>, s': State, w: WorkerId, was: Option<Event>)
    requires HasAnnounced(s.workers, w, was) && SetsNext(s, next, s')
    ensures HasAnnounced(s'.workers, w, NewLast(was, next, OfWorker(w)))
  {
  }

  /** In every reachable server the workers are those that joined and have not been lost since. */
  lemma {:induction false} WorkersHaveJoined(es: seq<Event>, rnd: Generator, w: WorkerId)
    ensures HasAnnounced(RunServer(es, rnd).sched.workers, w, LastOn(History(es, rnd), OfWorker(w)))
  {
    if es != [] {
      WorkersHaveJoined(es[..|es| - 1], rnd, w);
      var s, next, s' := StepSets(es, rnd, OfWorker(w));
      AnnouncedStep(s, next, s', w, LastOn(History(es[..|es| - 1], rnd), OfWorker(w)));
    }
  }

  // ----- jobs, groups and outcomes

  /** The table has no tasks but those of `items`. */
  ghost predicate Shrinks(items: Items, items': Items) {
    forall x | x in items' && items'[x].Single? :: x in items && items'[x] == items[x]
  }

  /** What an event does to the records of groups and to the table. */
  ghost predicate Records(groups: Groups, items: Items, e: Event, groups': Groups, items': Items) {
    match e
    case SubmitGroup(gid, jobs, c, priority, weight) =>
      && gid !in groups && groups' == groups[gid := FirstGroup(jobs)]
      && (forall x, g | x in JobIds(jobs) && g in groups :: x !in groups[g].jobs)
      && (forall x | x in items' && items'[x].Single? ::
            if x in JobIds(jobs) then IsSubmitted(items'[x], x, e) else x in items && items'[x] == items[x])
    case CallEnds(x, o) =>
      && x in items && items[x].Single? && items[x].group in groups && x in groups[items[x].group].jobs
      && (forall g | g in groups && x in groups[g].jobs :: g == items[x].group)
      && groups' == groups[items[x].group := Fired(groups[items[x].group], x, o)]
      && Shrinks(items, items')
    case _ => groups' == groups && Shrinks(items, items')
  }

  /** The entry of the table is what the event submitted. */
  ghost predicate IsSubmitted(item: Item, x: TaskId, e: Event) {
    && item.Single? && e.SubmitGroup?
    && item.job in e.jobs && item.job.id == x && item.contest == e.c && item.group == e.gid
  }

  lemma {:induction false} DeferredAre(items: Items, jobs: seq<Job>, c: ContestId, gid: TaskId, x: TaskId)
    requires FreshJobs(items, jobs)
    ensures var items' := DeferJobs(items, jobs, c, gid);
            && (x in items' <==> x in items || x in JobIds(jobs))
            && (x in items && x !in JobIds(jobs) ==> items'[x] == items[x])
            && (x in JobIds(jobs) ==>
                  items'[x].Single? && items'[x].job in jobs && items'[x].job.id == x
                  && items'[x].contest == c && items'[x].group == gid)
    decreases |jobs|
  {
    if jobs != [] {
      var item := Single(jobs[0], c, gid);
      ServerInvariant.FreshRest(items, jobs, item);
      DeferredAre(items[jobs[0].id := item], jobs[1..], c, gid, x);
      assert JobIds(jobs) == [jobs[0].id] + JobIds(jobs[1..]);
      assert jobs == [jobs[0]] + jobs[1..];
      if x == jobs[0].id { assert x !in JobIds(jobs[1..]); }
    }
  }

  lemma SubmitRecords(v: Server, e: Event, rnd: Generator)
    requires Coupled(v) && Enabled(v, e) && e.SubmitGroup?
    ensures Records(v.groups, v.inProgress, e, React(v, e, rnd).groups, React(v, e, rnd).inProgress)
  {
    var v' := React(v, e, rnd);
    SubmitResult(v, e.gid, e.jobs, e.c, e.priority, e.weight, rnd);
    forall x | x in v'.inProgress && v'.inProgress[x].Single?
      ensures if x in JobIds(e.jobs) then IsSubmitted(v'.inProgress[x], x, e)
              else x in v.inProgress && v'.inProgress[x] == v.inProgress[x]
    {
      DeferredAre(v.inProgress, e.jobs, e.c, e.gid, x);
    }
  }

  lemma FinishRecords(v: Server, e: Event, rnd: Generator)
    requires Coupled(v) && Enabled(v, e) && e.CallEnds?
    ensures Records(v.groups, v.inProgress, e, React(v, e, rnd).groups, React(v, e, rnd).inProgress)
  {
    FinishCallCoupled(v, e.x, e.o, rnd);
    FinishShrinks(v, e.x, e.o, rnd);
    Owner(v, e.x);
  }

  lemma Owner(v: Server, x: TaskId)
    requires Coupled(v) && x in v.inProgress && v.inProgress[x].Single?
    ensures v.inProgress[x].group in v.groups && x in v.groups[v.inProgress[x].group].jobs
    ensures forall g | g in v.groups && x in v.groups[g].jobs :: g == v.inProgress[x].group
  {
  }

  lemma FinishShrinks(v: Server, x: TaskId, o: Outcome, rnd: Generator)
    requires Coupled(v) && x in v.manager.calls
    ensures x in v.inProgress && v.inProgress[x].Single? && v.inProgress[x].group in v.groups
    ensures Shrinks(v.inProgress, FinishCall(v, x, o, rnd).inProgress)
  {
    CallIsTracked(v, x);
    var gid := v.inProgress[x].group;
    LinkedFinish(v.manager, v.sched, x);
    FinishState(v.sched, x);
    TrackedFinish(v.inProgress, v.sched.tasks, x);
    var freed := v.(manager := Free(v.manager, x), sched := DelTask(v.sched, x), inProgress := v.inProgress - {x});
    TryExecuteRuns(freed, rnd);
    FiredGroups(v.inProgress, v.groups, gid, x, o);
    GatherResult(TryExecute(freed, rnd), gid, x, o, rnd);
  }

  lemma ReactRecords(v: Server, e: Event, rnd: Generator)
    requires Coupled(v) && Enabled(v, e)
    ensures Records(v.groups, v.inProgress, e, React(v, e, rnd).groups, React(v, e, rnd).inProgress)
  {
    match e
    case SubmitGroup(gid, jobs, c, priority, weight) => SubmitRecords(v, e, rnd);
    case CallEnds(x, o) => FinishRecords(v, e, rnd);
    case WorkerJoins(w, concurrency, ram, cpu) => WorkersComeAndGo(v, e, rnd);
    case WorkerLost(id, order) => WorkersComeAndGo(v, e, rnd); LoseCoupled(v, id, order);
  }

  ghost predicate RecordsNext(v: Server, next: seq<Event>, v': Server) {
    if next == [] then v' == v
    else |next| == 1 && Records(v.groups, v.inProgress, next[0], v'.groups, v'.inProgress)
  }

  lemma LeadsRecords(v: Server, next: seq<Event>, rnd: Generator, v': Server)
    requires Leads(v, next, rnd, v')
    ensures RecordsNext(v, next, v')
  {
    if next != [] { ReactRecords(v, next[0], rnd); }
  }

  lemma StepRecords(es: seq<Event>, rnd: Generator) returns (v: Server, next: seq<Event>, v': Server)
    requires es != []
    ensures v == RunServer(es[..|es| - 1], rnd) && v' == RunServer(es, rnd) && RecordsNext(v, next, v')
    ensures |next| <= 1 && History(es, rnd) == History(es[..|es| - 1], rnd) + next
  {
    next := RunLeads(es, rnd);
    LeadsRecords(RunServer(es[..|es| - 1], rnd), next, rnd, RunServer(es, rnd));
    v, v' := RunServer(es[..|es| - 1], rnd), RunServer(es, rnd);
  }

  /** What is known of a group: its jobs are those that were submitted with it. */
  ghost predicate HasJobs(groups: Groups, gid: TaskId, e: Option<Event>) {
    if e.Some? && e.value.SubmitGroup? then gid in groups && groups[gid].jobs == JobIds(e.value.jobs)
    else gid !in groups
  }

  lemma JobsStep(v: Server, next: seq<Event>, v': Server, gid: TaskId, was: Option<Event>)
    requires HasJobs(v.groups, gid, was) && RecordsNext(v, next, v')
    ensures HasJobs(v'.groups, gid, NewLast(was, next, OfGroup(gid)))
  {
  }

  /** In every reachable server the groups are those that were submitted, with their jobs. */
  lemma {:induction false} GroupsAreSubmitted(es: seq<Event>, rnd: Generator, gid: TaskId)
    ensures HasJobs(RunServer(es, rnd).groups, gid, LastOn(History(es, rnd), OfGroup(gid)))
  {
    if es != [] {
      var n := |es| - 1;
      GroupsAreSubmitted(es[..n], rnd, gid);
      var v, next, v' := StepRecords(es, rnd);
      LastGoesOn(History(es[..n], rnd), next, OfGroup(gid));
      JobsStep(v, next, v', gid, LastOn(History(es[..n], rnd), OfGroup(gid)));
    }
  }

  /** A single entry of the table is what was submitted last under its name. */
  ghost predicate HasItem(items: Items, x: TaskId, e: Option<Event>) {
    x in items && items[x].Single? ==> e.Some? && IsSubmitted(items[x], x, e.value)
  }

  lemma ItemStep(v: Server, next: seq<Event>, v': Server, x: TaskId, was: Option<Event>)
    requires HasItem(v.inProgress, x, was) && RecordsNext(v, next, v')
    ensures HasItem(v'.inProgress, x, NewLast(was, next, OfJob(x)))
  {
  }

  lemma {:induction false} ItemsAreSubmitted(es: seq<Event>, rnd: Generator, x: TaskId)
    ensures HasItem(RunServer(es, rnd).inProgress, x, LastOn(History(es, rnd), OfJob(x)))
  {
    if es != [] {
      var n := |es| - 1;
      ItemsAreSubmitted(es[..n], rnd, x);
      var v, next, v' := StepRecords(es, rnd);
      LastGoesOn(History(es[..n], rnd), next, OfJob(x));
      ItemStep(v, next, v', x, LastOn(History(es[..n], rnd), OfJob(x)));
    }
  }

  /** What the scheduler knows of a task is what the event submitted. */
  ghost predicate HasTask(tasks: map<TaskId, Task>, x: TaskId, e: Option<Event>) {
    x in tasks ==>
      e.Some? && e.value.SubmitGroup? && tasks[x].contest == e.value.c
      && Job(x, tasks[x].realCpu, tasks[x].ram, tasks[x].priority) in e.value.jobs
  }

  lemma TrackedTask(items: Items, tasks: map<TaskId, Task>, x: TaskId, e: Option<Event>)
    requires Tracked(items, tasks) && HasItem(items, x, e)
    ensures HasTask(tasks, x, e)
  {
  }

  lemma CoupledTask(v: Server, x: TaskId, e: Option<Event>)
    requires Coupled(v) && HasItem(v.inProgress, x, e)
    ensures HasTask(v.sched.tasks, x, e)
  {
    TrackedTask(v.inProgress, v.sched.tasks, x, e);
  }

  /**
   In every reachable server a task of the scheduler, however often it was retried, has the kind, the RAM and the
   priority of the job that was submitted under its name, and belongs to the contest of that submission.
   */
  lemma TasksAreSubmitted(es: seq<Event>, rnd: Generator, x: TaskId)
    ensures HasTask(RunServer(es, rnd).sched.tasks, x, LastOn(History(es, rnd), OfJob(x)))
  {
    ItemsAreSubmitted(es, rnd, x);
    RunCoupled(es, rnd);
    CoupledTask(RunServer(es, rnd), x, LastOn(History(es, rnd), OfJob(x)));
  }

  // outcomes

  ghost predicate HasOwner(groups: Groups, x: TaskId, e: Option<Event>) {
    e.Some? ==> exists g :: g in groups && x in groups[g].jobs
  }

  lemma OwnerStep(v: Server, next: seq<Event>, v': Server, x: TaskId, was: Option<Event>)
    requires HasOwner(v.groups, x, was) && RecordsNext(v, next, v')
    ensures HasOwner(v'.groups, x, NewLast(was, next, OfCall(x)))
  {
    var now := NewLast(was, next, OfCall(x));
    if now.Some? {
      var g :| g in v.groups && x in v.groups[g].jobs;
      assert g in v'.groups && v'.groups[g].jobs == v.groups[g].jobs;
    }
  }

  /** The deferred of a job has fired if and only if its call has ended, and with the outcome of the call. */
  ghost predicate HasOutcome(groups: Groups, gid: TaskId, x: TaskId, e: Option<Event>) {
    gid in groups && x in groups[gid].jobs ==>
      if e.Some? && e.value.CallEnds? then x in groups[gid].outcomes && groups[gid].outcomes[x] == e.value.o
      else x !in groups[gid].outcomes
  }

  lemma OutcomeStep(v: Server, next: seq<Event>, v': Server, gid: TaskId, x: TaskId, was: Option<Event>)
    requires HasOutcome(v.groups, gid, x, was) && HasOwner(v.groups, x, was) && RecordsNext(v, next, v')
    ensures HasOutcome(v'.groups, gid, x, NewLast(was, next, OfCall(x)))
  {
  }

  lemma {:induction false} OutcomesFrom(es: seq<Event>, rnd: Generator, gid: TaskId, x: TaskId)
    ensures HasOwner(RunServer(es, rnd).groups, x, LastOn(History(es, rnd), OfCall(x)))
    ensures HasOutcome(RunServer(es, rnd).groups, gid, x, LastOn(History(es, rnd), OfCall(x)))
  {
    if es != [] {
      var n := |es| - 1;
      OutcomesFrom(es[..n], rnd, gid, x);
      var v, next, v' := StepRecords(es, rnd);
      LastGoesOn(History(es[..n], rnd), next, OfCall(x));
      OwnerStep(v, next, v', x, LastOn(History(es[..n], rnd), OfCall(x)));
      OutcomeStep(v, next, v', gid, x, LastOn(History(es[..n], rnd), OfCall(x)));
    }
  }

  /**
   In every reachable server the deferred of a job has fired if and only if an event has ended its call, and it has
   fired with the result, the error or the timeout of that event.
   */
  lemma OutcomesAreReplies(es: seq<Event>, rnd: Generator, gid: TaskId, x: TaskId)
    ensures HasOutcome(RunServer(es, rnd).groups, gid, x, LastOn(History(es, rnd), OfCall(x)))
  {
    OutcomesFrom(es, rnd, gid, x);
  }

  // ----- the order of arrival

  lemma {:induction false} AddJobsElsewhere(s: State, jobs: seq<Job>, c: ContestId, x: TaskId)
    requires forall i | 0 <= i < |jobs| :: jobs[i].id != x
    ensures x in s.tasks ==> x in AddJobs(s, jobs, c).tasks && AddJobs(s, jobs, c).tasks[x] == s.tasks[x]
    decreases |jobs|
  {
    if jobs != [] {
      AddTaskIs(s, jobs[0], c);
      AddJobsElsewhere(AddTask(s, jobs[0], c), jobs[1..], c, x);
    }
  }

  /** The jobs of a group arrive one after another, in their order. */
  lemma {:induction false} JobsArriveInOrder(s: State, jobs: seq<Job>, c: ContestId, i: nat)
    requires i < |jobs| && forall j, k | 0 <= j < k < |jobs| :: jobs[j].id != jobs[k].id
    ensures var tasks := AddJobs(s, jobs, c).tasks;
            jobs[i].id in tasks && tasks[jobs[i].id].sequence == s.lastSequence + 1 + i
    decreases |jobs|
  {
    AddTaskIs(s, jobs[0], c);
    if i == 0 {
      AddJobsElsewhere(AddTask(s, jobs[0], c), jobs[1..], c, jobs[0].id);
    } else {
      JobsArriveInOrder(AddTask(s, jobs[0], c), jobs[1..], c, i - 1);
    }
  }

  // ----- work conservation between two events

  lemma RoomyBefore(s: State, s': State, large: nat)
    requires Roomy(s', large) && s'.tasks == s.tasks && SameWorkers(s.workers, s'.workers)
    ensures Roomy(s, large)
  {
  }

  ghost predicate Busy(s: State, large: nat) { Roomy(s, large) ==> Conserved(s) }

  lemma ScheduleConserves(s: State, m: M.Manager, rnd: Generator, large: nat)
    requires Inv(s) && Agrees(m, s.workers)
    ensures Busy(Schedule(s, m, rnd).1, large)
  {
    var s' := Schedule(s, m, rnd).1;
    if Roomy(s', large) {
      assert s'.tasks == s.tasks && SameWorkers(s.workers, s'.workers) by { Runs.ScheduleLaunches(s, m, rnd); }
      RoomyBefore(s, s', large);
      WorkConservation(s, m, rnd, large);
    }
  }

  lemma ExecuteSchedules(v: Server, rnd: Generator)
    requires Running(v)
    ensures TryExecute(v, rnd).sched == Schedule(v.sched, v.manager, rnd).1
  {
    TrackedKinds(v.inProgress, v.sched.tasks);
    ExecuteOk(v.manager, v.sched, KindsIn(v.inProgress), rnd);
  }

  lemma RunningAgrees(v: Server)
    requires Running(v)
    ensures Inv(v.sched) && Agrees(v.manager, v.sched.workers)
  {
  }

  lemma ExecuteConserves(v: Server, rnd: Generator, large: nat)
    requires Running(v)
    ensures Busy(TryExecute(v, rnd).sched, large)
  {
    RunningAgrees(v);
    ExecuteSchedules(v, rnd);
    ScheduleConserves(v.sched, v.manager, rnd, large);
  }

  lemma FinishGroupConserves(v: Server, gid: TaskId, rnd: Generator, large: nat)
    requires Running(v) && gid in v.groups && AllFired(v.groups[gid])
    requires gid in v.inProgress ==> v.inProgress[gid].Whole?
    ensures Busy(FinishGroup(v, gid, rnd).sched, large)
  {
    TrackedWithoutGroup(v.inProgress, v.sched.tasks, gid);
    ExecuteConserves(v.(groups := v.groups[gid := WithCollected(v.groups[gid])], inProgress := v.inProgress - {gid}),
                     rnd, large);
  }

  lemma GatherConserves(v: Server, gid: TaskId, x: TaskId, o: Outcome, rnd: Generator, large: nat)
    requires Running(v) && gid in v.groups && x !in v.groups[gid].outcomes && Busy(v.sched, large)
    requires gid in v.inProgress ==> v.inProgress[gid].Whole?
    ensures Busy(Gather(v, gid, x, o, rnd).sched, large)
  {
    var g := v.groups[gid].(outcomes := v.groups[gid].outcomes[x := o]);
    if AllFired(g) { FinishGroupConserves(v.(groups := v.groups[gid := g]), gid, rnd, large); }
  }

  lemma FinishCallConserves(v: Server, x: TaskId, o: Outcome, rnd: Generator, large: nat)
    requires Coupled(v) && x in v.manager.calls
    ensures x in v.inProgress && v.inProgress[x].Single? && v.inProgress[x].group in v.groups
    ensures Busy(FinishCall(v, x, o, rnd).sched, large)
  {
    CallIsTracked(v, x);
    var gid := v.inProgress[x].group;
    LinkedFinish(v.manager, v.sched, x);
    FinishState(v.sched, x);
    TrackedFinish(v.inProgress, v.sched.tasks, x);
    var freed := v.(manager := Free(v.manager, x), sched := DelTask(v.sched, x), inProgress := v.inProgress - {x});
    ExecuteConserves(freed, rnd, large);
    TryExecuteRuns(freed, rnd);
    FiredGroups(v.inProgress, v.groups, gid, x, o);
    GatherConserves(TryExecute(freed, rnd), gid, x, o, rnd, large);
  }

  lemma SubmitConserves(v: Server, gid: TaskId, jobs: seq<Job>, c: ContestId, priority: int, weight: nat,
                        rnd: Generator, large: nat)
    requires Coupled(v) && FreshNames(v, gid, jobs) && weight >= 1
    ensures Inv(AddJobs(UpdateContest(v.sched, c, priority, weight), jobs, c))
    ensures Busy(Submit(v, gid, jobs, c, priority, weight, rnd).sched, large)
  {
    SubmitRuns(v, gid, jobs, c, priority, weight);
    var v1 := v.(sched := AddJobs(UpdateContest(v.sched, c, priority, weight), jobs, c),
                 inProgress := DeferJobs(v.inProgress, jobs, c, gid)[gid := Whole],
                 groups := v.groups[gid := Group(JobIds(jobs), map[], None)]);
    ExecuteConserves(v1, rnd, large);
    TryExecuteRuns(v1, rnd);
    if jobs == [] { FinishGroupConserves(TryExecute(v1, rnd), gid, rnd, large); }
  }

  lemma ReactConserves(v: Server, e: Event, rnd: Generator, large: nat)
    requires Coupled(v) && Enabled(v, e)
    ensures Busy(React(v, e, rnd).sched, large)
  {
    match e
    case SubmitGroup(gid, jobs, c, priority, weight) => SubmitConserves(v, gid, jobs, c, priority, weight, rnd, large);
    case CallEnds(x, o) => FinishCallConserves(v, x, o, rnd, large);
    case WorkerJoins(w, concurrency, ram, cpu) =>
      JoinCoupled(v, w, concurrency, ram, cpu);
      ExecuteConserves(Join(v, w, concurrency, ram, cpu), rnd, large);
    case WorkerLost(id, order) =>
      LoseCoupled(v, id, order);
      ExecuteConserves(Lose(v, id, order), rnd, large);
  }

  lemma LeadsConserves(v: Server, next: seq<Event>, rnd: Generator, v': Server, large: nat)
    requires Leads(v, next, rnd, v') && Busy(v.sched, large)
    ensures Busy(v'.sched, large)
  {
    if next != [] { ReactConserves(v, next[0], rnd, large); }
  }

  /**
   In every reachable server, between two events, all work that can be done is being done (`Conserved`), if every
   worker has RAM for as many of the largest tasks as it has slots.
   */
  lemma {:induction false} NoIdleWorkers(es: seq<Event>, rnd: Generator, large: nat)
    ensures Roomy(RunServer(es, rnd).sched, large) ==> Conserved(RunServer(es, rnd).sched)
  {
    if es != [] {
      NoIdleWorkers(es[..|es| - 1], rnd, large);
      var next := RunLeads(es, rnd);
      LeadsConserves(RunServer(es[..|es| - 1], rnd), next, rnd, RunServer(es, rnd), large);
    }
  }
}

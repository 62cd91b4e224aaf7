/**
 The manager and the scheduler keep separate records of what runs where. This module says when the two
 agree, and that sending out what `schedule` returned never trips a guard of `runOnWorker`.
 */
module Coupling {
  import opened Types
  import opened Matching
  import opened TaskQueues
  import M = ManagerModel
  import opened ManagerSteps
  import opened SchedulerState
  import opened SchedulerInvariant
  import opened Scheduling
  import opened SchedulerProperties
  import opened SchedulerRuns

  ghost predicate RealOn(on: set<TaskId>, tasks: map<TaskId, Task>) {
    exists x :: x in on && x in tasks && tasks[x].realCpu
  }

  /** The manager's task sets, cpu-exec flags and pending calls are those of the scheduler. */
  ghost predicate Mirrors(m: M.Manager, runsOn: map<TaskId, WorkerId>, tasks: map<TaskId, Task>) {
    && m.calls == runsOn
    && (forall w | w in m.data :: m.data[w].tasks == On(runsOn, w)
                                  && m.data[w].runningCpuExec == RealOn(On(runsOn, w), tasks))
  }

  ghost predicate Linked(m: M.Manager, s: State) {
    Inv(s) && Agrees(m, s.workers) && Mirrors(m, s.runsOn, s.tasks)
  }

  // ----- sending one task

  /** The worker of a final load that includes the task accepts the task now. */
  lemma Accepts(w: Worker, tasks: map<TaskId, Task>, final: set<TaskId>, on: set<TaskId>, x: TaskId)
    requires WorkerLoad(w, tasks, final) && x in tasks && x !in on && on + {x} <= final
    ensures |on| < w.concurrency && !RealOn(on, tasks)
    ensures tasks[x].realCpu ==> on == {} && w.cpuEnabled
  {
    SubsetCardinality(on + {x}, final);
    assert forall y | y in on :: y in final;
  }

  lemma SendOne(m: M.Manager, ws: Workers, tasks: map<TaskId, Task>, runsOn: map<TaskId, WorkerId>,
                final: set<TaskId>, x: TaskId, w: WorkerId)
    requires Mirrors(m, runsOn, tasks) && Announced(m, ws) && w in ws
    requires x in tasks && x !in runsOn
    requires On(runsOn, w) + {x} <= final && WorkerLoad(ws[w], tasks, final)
    ensures RunOnWorker(m, w, x, tasks[x].realCpu).Sent?
    ensures var m' := RunOnWorker(m, w, x, tasks[x].realCpu).m;
            Mirrors(m', runsOn[x := w], tasks) && SameAnnounced(m, m')
  {
    Accepts(ws[w], tasks, final, On(runsOn, w), x);
    MirrorsAfterSend(m, tasks, runsOn, x, w);
  }

  lemma MirrorsAfterSend(m: M.Manager, tasks: map<TaskId, Task>, runsOn: map<TaskId, WorkerId>, x: TaskId, w: WorkerId)
    requires Mirrors(m, runsOn, tasks) && w in m.data && x in tasks && x !in runsOn
    requires !RealOn(On(runsOn, w), tasks)
    ensures var wd := m.data[w].(tasks := m.data[w].tasks + {x}, runningCpuExec := tasks[x].realCpu);
            Mirrors(m.(data := m.data[w := wd], calls := m.calls[x := w]), runsOn[x := w], tasks)
  {
    var runsOn' := runsOn[x := w];
    assert On(runsOn', w) == On(runsOn, w) + {x};
    assert RealOn(On(runsOn', w), tasks) <==> tasks[x].realCpu by {
      if tasks[x].realCpu { assert x in On(runsOn', w); }
    }
    forall k | k in m.data && k != w ensures On(runsOn', k) == On(runsOn, k) {}
  }

  // ----- sending all

  /** The real-cpu flag under which each task is sent. */
  type Kinds = map<TaskId, bool>

  datatype SentAll = SentAll(m: M.Manager) | Stopped(error: RunError) | NoEnvironment(x: TaskId)

  /** The loop of `_tryExecute`; an exception ends it. */
  function SendAll(m: M.Manager, pairs: seq<Association>, kinds: Kinds): SentAll
    decreases |pairs|
  {
    if pairs == [] then SentAll(m)
    else
      var (x, w) := pairs[0];
      if x !in kinds then NoEnvironment(x)
      else match RunOnWorker(m, w, x, kinds[x])
        case Refused(e) => Stopped(e)
        case Sent(m') => SendAll(m', pairs[1..], kinds)
  }

  ghost predicate KindsOf(kinds: Kinds, tasks: map<TaskId, Task>) {
    forall x | x in tasks :: x in kinds && kinds[x] == tasks[x].realCpu
  }

  lemma {:induction false} ExtendIncludes(runsOn: map<TaskId, WorkerId>, pairs: seq<Association>)
    requires forall i | 0 <= i < |pairs| :: pairs[i].0 !in runsOn
    requires forall i, j | 0 <= i < j < |pairs| :: pairs[i].0 != pairs[j].0
    ensures forall x | x in runsOn :: x in Extend(runsOn, pairs) && Extend(runsOn, pairs)[x] == runsOn[x]
    decreases |pairs|
  {
    if pairs != [] { ExtendIncludes(runsOn[pairs[0].0 := pairs[0].1], pairs[1..]); }
  }

  ghost predicate Fresh(pairs: seq<Association>, ws: Workers, tasks: map<TaskId, Task>, runsOn: map<TaskId, WorkerId>) {
    && (forall i | 0 <= i < |pairs| :: pairs[i].0 in tasks && pairs[i].0 !in runsOn && pairs[i].1 in ws)
    && (forall i, j | 0 <= i < j < |pairs| :: pairs[i].0 != pairs[j].0)
  }

  lemma FreshRest(pairs: seq<Association>, ws: Workers, tasks: map<TaskId, Task>, runsOn: map<TaskId, WorkerId>)
    requires Fresh(pairs, ws, tasks, runsOn) && pairs != []
    ensures Fresh(pairs[1..], ws, tasks, runsOn[pairs[0].0 := pairs[0].1])
  {
  }

  lemma FinalIncludes(runsOn: map<TaskId, WorkerId>, pairs: seq<Association>)
    requires pairs != [] && pairs[0].0 !in runsOn
    requires forall i | 0 <= i < |pairs| :: pairs[i].0 !in runsOn
    requires forall i, j | 0 <= i < j < |pairs| :: pairs[i].0 != pairs[j].0
    ensures On(runsOn, pairs[0].1) + {pairs[0].0} <= On(Extend(runsOn, pairs), pairs[0].1)
  {
    ExtendIncludes(runsOn[pairs[0].0 := pairs[0].1], pairs[1..]);
  }

  lemma {:induction false} SendAllOk(m: M.Manager, ws: Workers, tasks: map<TaskId, Task>,
                                     runsOn: map<TaskId, WorkerId>, pairs: seq<Association>, kinds: Kinds)
    requires Mirrors(m, runsOn, tasks) && Announced(m, ws) && KindsOf(kinds, tasks)
    requires LoadOk(ws, tasks, Extend(runsOn, pairs)) && Fresh(pairs, ws, tasks, runsOn)
    ensures SendAll(m, pairs, kinds).SentAll?
    ensures var m' := SendAll(m, pairs, kinds).m;
            Mirrors(m', Extend(runsOn, pairs), tasks) && SameAnnounced(m, m')
    decreases |pairs|
  {
    if pairs != [] {
      var (x, w) := pairs[0];
      FinalIncludes(runsOn, pairs);
      SendOne(m, ws, tasks, runsOn, On(Extend(runsOn, pairs), w), x, w);
      FreshRest(pairs, ws, tasks, runsOn);
      var m1 := RunOnWorker(m, w, x, kinds[x]).m;
      SendAllOk(m1, ws, tasks, runsOn[x := w], pairs[1..], kinds);
    }
  }

  /** `schedule` followed by sending out its result. */
  function Execute(m: M.Manager, s: State, kinds: Kinds, rnd: Generator): (r: (SentAll, State))
    requires Inv(s)
    ensures Inv(r.1)
  {
    var (pairs, s') := Schedule(s, m, rnd);
    (SendAll(m, pairs, kinds), s')
  }

  /** No guard of `runOnWorker` raises for a pair returned by `schedule`, and the records stay equal. */
  lemma ExecuteOk(m: M.Manager, s: State, kinds: Kinds, rnd: Generator)
    requires Linked(m, s) && KindsOf(kinds, s.tasks)
    ensures var (sent, s') := Execute(m, s, kinds, rnd);
            && sent.SentAll? && Linked(sent.m, s') && s'.tasks == s.tasks && s'.contests == s.contests
            && s'.lastSequence == s.lastSequence && SameWorkers(s.workers, s'.workers)
  {
    var (pairs, s') := Schedule(s, m, rnd);
    ScheduleLaunches(s, m, rnd);
    AgreesAfter(m, s.workers, s'.workers);
    SendAllOk(m, s'.workers, s.tasks, s.runsOn, pairs, kinds);
    var m' := SendAll(m, pairs, kinds).m;
    StillAgrees(m, m', s'.workers);
  }

  lemma StillAgrees(m: M.Manager, m': M.Manager, ws: Workers)
    requires Agrees(m, ws) && SameAnnounced(m, m')
    ensures Agrees(m', ws)
  {
    SameStats(m, m');
  }

  // ----- the other events

  lemma MirrorsTasks(m: M.Manager, runsOn: map<TaskId, WorkerId>, tasks: map<TaskId, Task>, tasks': map<TaskId, Task>)
    requires Mirrors(m, runsOn, tasks)
    requires forall x | x in runsOn :: x in tasks && x in tasks' && tasks'[x].realCpu == tasks[x].realCpu
    ensures Mirrors(m, runsOn, tasks')
  {
    forall w | w in m.data ensures RealOn(On(runsOn, w), tasks') <==> RealOn(On(runsOn, w), tasks) {
      if RealOn(On(runsOn, w), tasks) {
        var x :| x in On(runsOn, w) && tasks[x].realCpu;
        assert tasks'[x].realCpu;
      }
      if RealOn(On(runsOn, w), tasks') {
        var x :| x in On(runsOn, w) && tasks'[x].realCpu;
        assert tasks[x].realCpu;
      }
    }
  }

  lemma LinkedContest(m: M.Manager, s: State, c: ContestId, priority: int, weight: nat)
    requires Linked(m, s) && weight >= 1
    ensures Linked(m, UpdateContest(s, c, priority, weight))
  {
    UpdateContestInv(s, c, priority, weight);
  }

  lemma LinkedSubmit(m: M.Manager, s: State, job: Job, c: ContestId)
    requires Linked(m, s) && c in s.contests && job.id !in s.tasks
    ensures Linked(m, AddTask(s, job, c))
  {
    AddTaskInv(s, job, c);
    MirrorsTasks(m, s.runsOn, s.tasks, AddTask(s, job, c).tasks);
  }

  lemma MirrorsJoin(m: M.Manager, runsOn: map<TaskId, WorkerId>, tasks: map<TaskId, Task>, id: WorkerId,
                    wd: M.WorkerData)
    requires Mirrors(m, runsOn, tasks) && id !in m.data && wd.tasks == {} && !wd.runningCpuExec
    requires forall x | x in runsOn :: runsOn[x] in m.data
    ensures Mirrors(m.(data := m.data[id := wd]), runsOn, tasks)
  {
    assert On(runsOn, id) == {};
  }

  lemma LinkedJoin(m: M.Manager, s: State, id: WorkerId, concurrency: nat, ram: nat, cpu: bool)
    requires Linked(m, s) && id !in m.data && concurrency > 0 && ram > 0
    ensures Linked(NewWorker(m, id, concurrency, ram, cpu), AddWorker(s, id, concurrency, ram, cpu))
  {
    var m', s' := NewWorker(m, id, concurrency, ram, cpu), AddWorker(s, id, concurrency, ram, cpu);
    assert Inv(s') by { AddWorkerInv(s, id, concurrency, ram, cpu); }
    AddWorkerIs(s, id, concurrency, ram, cpu);
    NewWorkerIs(m, id, concurrency, ram, cpu);
    JoinAgrees(m, s, id, concurrency, ram, cpu);
    assert Mirrors(m', s'.runsOn, s'.tasks) by {
      RunningIsKnown(m, s);
      MirrorsJoin(m, s.runsOn, s.tasks, id, m'.data[id]);
    }
  }

  lemma RunningIsKnown(m: M.Manager, s: State)
    requires Linked(m, s)
    ensures forall x | x in s.runsOn :: s.runsOn[x] in m.data && x in s.tasks
  {
  }

  lemma JoinAnnounced(data: map<WorkerId, M.WorkerData>, m: M.Manager, ws: Workers, w: Worker)
    requires Announced(m, ws)
    requires data == m.data[w.id := M.WorkerData(w.concurrency, w.totalRam, w.cpuEnabled, {}, false)]
    ensures Announced(m.(data := data), ws[w.id := w])
  {
  }

  lemma JoinAgrees(m: M.Manager, s: State, id: WorkerId, concurrency: nat, ram: nat, cpu: bool)
    requires Agrees(m, s.workers) && id !in m.data
    ensures Agrees(NewWorker(m, id, concurrency, ram, cpu), AddWorker(s, id, concurrency, ram, cpu).workers)
  {
    var m', w := NewWorker(m, id, concurrency, ram, cpu), Worker(id, concurrency, ram, cpu, false, 0, 0);
    NewWorkerOk(m, id, concurrency, ram, cpu);
    NewWorkerIs(m, id, concurrency, ram, cpu);
    AddWorkerIs(s, id, concurrency, ram, cpu);
    JoinAnnounced(m'.data, m, s.workers, w);
  }

  /** Exclusivity rules out the "impossible" branch. */
  lemma NotImpossible(w: Worker, wd: M.WorkerData, tasks: map<TaskId, Task>, on: set<TaskId>, x: TaskId)
    requires WorkerLoad(w, tasks, on) && wd.tasks == on && wd.runningCpuExec == RealOn(on, tasks) && x in on
    ensures !Impossible(wd, x)
  {
  }

  lemma FinishState(s: State, x: TaskId)
    requires Inv(s) && x in s.runsOn
    ensures s.workers[s.runsOn[x]].CanDetach(s.tasks[x])
    ensures var s' := DelTask(s, x);
            && s'.tasks == s.tasks - {x} && s'.runsOn == s.runsOn - {x}
            && s'.contests == s.contests && s'.lastSequence == s.lastSequence
            && SameWorkers(s.workers, s'.workers)
  {
    var t, w := s.tasks[x], s.runsOn[x];
    DelAttachedIs(s, x);
    assert w in s.workers;
    SameButOne(s.workers, w, s.workers[w].Detach(t));
  }

  lemma FinishAgrees(m: M.Manager, ws: Workers, ws': Workers, x: TaskId)
    requires Agrees(m, ws) && x in m.calls && SameWorkers(ws, ws')
    ensures Agrees(Free(m, x), ws')
  {
    FreeAnnounced(m, x);
    StillAgrees(m, Free(m, x), ws);
    AgreesAfter(Free(m, x), ws, ws');
  }

  lemma FinishPossible(m: M.Manager, s: State, x: TaskId)
    requires Linked(m, s) && x in s.runsOn
    ensures x in s.tasks && s.runsOn[x] in m.data && !Impossible(m.data[s.runsOn[x]], x)
  {
    RunningIsKnown(m, s);
    var w := s.runsOn[x];
    NotImpossible(s.workers[w], m.data[w], s.tasks, On(s.runsOn, w), x);
  }

  lemma FreeMirrors(m: M.Manager, runsOn: map<TaskId, WorkerId>, tasks: map<TaskId, Task>, x: TaskId)
    requires Mirrors(m, runsOn, tasks) && x in runsOn && runsOn[x] in m.data && !Impossible(m.data[runsOn[x]], x)
    requires forall y | y in runsOn :: y in tasks
    ensures Mirrors(Free(m, x), runsOn - {x}, tasks - {x})
  {
    MirrorsAfterFree(m, tasks, runsOn, x);
    MirrorsTasks(Free(m, x), runsOn - {x}, tasks, tasks - {x});
  }

  lemma FinishMirrors(m: M.Manager, s: State, x: TaskId)
    requires Linked(m, s) && x in s.runsOn
    ensures s.runsOn[x] in m.data && !Impossible(m.data[s.runsOn[x]], x)
    ensures Mirrors(Free(m, x), s.runsOn - {x}, s.tasks - {x})
  {
    RunningIsKnown(m, s);
    FinishPossible(m, s, x);
    FreeMirrors(m, s.runsOn, s.tasks, x);
  }

  /** A worker's call ends while the worker is registered: both records drop the task, and nothing is amiss. */
  lemma LinkedFinish(m: M.Manager, s: State, x: TaskId)
    requires Linked(m, s) && x in m.calls
    ensures x in s.tasks && x in s.runsOn && s.runsOn[x] in m.data && !Impossible(m.data[s.runsOn[x]], x)
    ensures s.runsOn[x] in s.workers && s.workers[s.runsOn[x]].CanDetach(s.tasks[x]) && s.tasks[x].id == x
    ensures Linked(Free(m, x), DelTask(s, x))
  {
    RunningIsKnown(m, s);
    FinishMirrors(m, s, x);
    FinishState(s, x);
    FinishAgrees(m, s.workers, DelTask(s, x).workers, x);
    DelTaskInv(s, x);
  }

  lemma MirrorsAfterFree(m: M.Manager, tasks: map<TaskId, Task>, runsOn: map<TaskId, WorkerId>, x: TaskId)
    requires Mirrors(m, runsOn, tasks) && x in runsOn && x in tasks && runsOn[x] in m.data
    requires !Impossible(m.data[runsOn[x]], x)
    ensures Mirrors(Free(m, x), runsOn - {x}, tasks)
  {
    var w, runsOn' := runsOn[x], runsOn - {x};
    assert On(runsOn', w) == On(runsOn, w) - {x};
    assert RealOn(On(runsOn', w), tasks) ==> RealOn(On(runsOn, w), tasks);
    forall k | k in m.data && k != w ensures On(runsOn', k) == On(runsOn, k) {}
  }
}

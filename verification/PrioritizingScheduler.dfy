/**
 The prioritizing scheduler as an object (prioritizing.py:317-693). `Model` is its value; each method changes
 it by the function of `SchedulerState` or `Scheduling` of the same name, so everything proved about those
 holds of the object.
 */
module PrioritizingScheduler {
  import opened Types
  import opened SortedSets
  import Matching
  import M = ManagerModel
  import TQ = TaskQueues
  import opened SchedulerState
  import opened SchedulerInvariant
  import opened SchedulerParts
  import opened WorkerChoice
  import B = Blocking
  import opened Scheduling
  import WM = WorkerManager

  type WorkerMap = map<WorkerId, WorkerInfo>

  ghost predicate WorkersLink(ws: WorkerMap, values: Workers)
    reads ws.Values
  {
    ws.Keys == values.Keys && forall id | id in ws :: ws[id].id == id && ws[id].Model() == values[id]
  }

  class PrioritizingScheduler {
    const manager: WM.WorkerManager
    const random: nat -> nat
    var workers: WorkerMap
    var vcpuOnlyQueue: seq<WorkerId>
    var anyCpuQueue: seq<WorkerId>
    var contests: TQ.Contests
    var tasks: map<TaskId, TQ.Task>
    var assignedWorker: map<TaskId, WorkerId>
    const virtualCpuTasks: TasksQueues
    const bothTasks: TasksQueues
    const waitingRealCpuTasks: WaitingTasksQueue
    var sequenceCounter: int
    var draws: nat
    ghost var workerValues: Workers

    ghost function Model(): State
      reads this, virtualCpuTasks, bothTasks, waitingRealCpuTasks
    {
      State(workerValues, vcpuOnlyQueue, anyCpuQueue, contests, tasks, assignedWorker,
            virtualCpuTasks.queues, bothTasks.queues, waitingRealCpuTasks.dict, waitingRealCpuTasks.tasksRequiredRam,
            sequenceCounter, draws)
    }

    ghost predicate Valid()
      reads `workers, `workerValues, workers.Values
    {
      WorkersLink(workers, workerValues) && virtualCpuTasks != bothTasks
    }

    constructor (workerManager: WM.WorkerManager, generator: nat -> nat)
      ensures Valid() && Model() == INITIAL
      ensures manager == workerManager && random == generator
      ensures fresh(virtualCpuTasks) && fresh(bothTasks) && fresh(waitingRealCpuTasks)
    {
      manager, random := workerManager, generator;
      workers, vcpuOnlyQueue, anyCpuQueue, contests, tasks, assignedWorker := map[], [], [], map[], map[], map[];
      virtualCpuTasks := new TasksQueues();
      bothTasks := new TasksQueues();
      waitingRealCpuTasks := new WaitingTasksQueue();
      sequenceCounter, draws := 0, 0;
      workerValues := map[];
    }

    // ----- workers and their queues

    /** The current keys of the workers in a queue. */
    function KeysOf(kind: Kind, q: seq<WorkerId>): (keys: seq<Key>)
      requires Valid()
      reads this, workers.Values
      ensures keys == QueueKeys(kind, workerValues, q)
    {
      seq(|q|, i requires 0 <= i < |q| reads this, workers.Values =>
        if q[i] in workers then WorkerKey(kind, workers[q[i]].Model()) else Key(0, 0, 0))
    }

    /** `SortedSet.add`, under the current keys. */
    method WithWorker(kind: Kind, q: seq<WorkerId>, id: WorkerId) returns (r: seq<WorkerId>)
      requires Valid() && id in workers
      ensures id in workerValues && r == InsertWorker(kind, workerValues, q, id)
    {
      var p := Position(KeysOf(kind, q), WorkerKey(kind, workers[id].Model()));
      r := InsertAt(q, p, id);
    }

    /** `SortedSet.remove`, under the current keys. */
    method WithoutWorker(kind: Kind, q: seq<WorkerId>, id: WorkerId) returns (r: seq<WorkerId>)
      requires Valid() && id in workers
      ensures id in workerValues && r == RemoveWorker(kind, workerValues, q, id)
    {
      var p := Position(KeysOf(kind, q), WorkerKey(kind, workers[id].Model()));
      r := if p < |q| then RemoveAt(q, p) else q;
    }

    method InsertWorkerToQueue(id: WorkerId)
      requires Valid() && id in workers
      modifies `vcpuOnlyQueue, `anyCpuQueue
      ensures Valid() && Model() == SchedulerState.InsertWorkerToQueue(old(Model()), id)
    {
      match workers[id].Model().Queue() {
        case None =>
        case Some(AnyCpuKind) => anyCpuQueue := WithWorker(AnyCpuKind, anyCpuQueue, id);
        case Some(VcpuOnlyKind) => vcpuOnlyQueue := WithWorker(VcpuOnlyKind, vcpuOnlyQueue, id);
      }
    }

    method RemoveWorkerFromQueue(id: WorkerId)
      requires Valid() && id in workers
      modifies `vcpuOnlyQueue, `anyCpuQueue
      ensures Valid() && Model() == SchedulerState.RemoveWorkerFromQueue(old(Model()), id)
    {
      match workers[id].Model().Queue() {
        case None =>
        case Some(AnyCpuKind) => anyCpuQueue := WithoutWorker(AnyCpuKind, anyCpuQueue, id);
        case Some(VcpuOnlyKind) => vcpuOnlyQueue := WithoutWorker(VcpuOnlyKind, vcpuOnlyQueue, id);
      }
    }

    method Load(t: TQ.Task, id: WorkerId)
      requires Valid() && id in workers && workerValues[id].CanAttach(t)
      modifies `workerValues, workers[id]
      ensures Valid() && workerValues == old(workerValues)[id := old(workerValues)[id].Attach(t)]
    {
      workers[id].AttachTask(t);
      workerValues := workerValues[id := workers[id].Model()];
    }

    method Unload(t: TQ.Task, id: WorkerId)
      requires Valid() && id in workers && workerValues[id].CanDetach(t)
      modifies `workerValues, workers[id]
      ensures Valid() && workerValues == old(workerValues)[id := old(workerValues)[id].Detach(t)]
    {
      workers[id].DetachTask(t);
      workerValues := workerValues[id := workers[id].Model()];
    }

    /** The task is entered, and the worker leaves its queue. */
    method Leave(id: WorkerId, table: map<TaskId, WorkerId>)
      requires Valid() && id in workers
      modifies `vcpuOnlyQueue, `anyCpuQueue, `assignedWorker
      ensures Valid()
      ensures Model() == SchedulerState.RemoveWorkerFromQueue(old(Model()).(runsOn := table), id)
    {
      assignedWorker := table;
      RemoveWorkerFromQueue(id);
    }

    method LoadAndQueue(t: TQ.Task, id: WorkerId)
      requires Valid() && id in workers && workerValues[id].CanAttach(t)
      modifies `vcpuOnlyQueue, `anyCpuQueue, `workerValues, workers[id]
      ensures Valid() && id in old(workerValues)
      ensures var ws := old(workerValues);
              Model() == SchedulerState.InsertWorkerToQueue(old(Model()).(workers := ws[id := ws[id].Attach(t)]), id)
    {
      Load(t, id);
      InsertWorkerToQueue(id);
    }

    method UnloadAndQueue(t: TQ.Task, id: WorkerId)
      requires Valid() && id in workers && workerValues[id].CanDetach(t)
      modifies `vcpuOnlyQueue, `anyCpuQueue, `workerValues, workers[id]
      ensures Valid() && id in old(workerValues)
      ensures var ws := old(workerValues);
              Model() == SchedulerState.InsertWorkerToQueue(old(Model()).(workers := ws[id := ws[id].Detach(t)]), id)
    {
      Unload(t, id);
      InsertWorkerToQueue(id);
    }

    /** The worker is changed while it is out of its queue. */
    method AttachTaskToWorker(t: TQ.Task, id: WorkerId)
      requires Valid() && id in workers && t.id !in assignedWorker && workerValues[id].CanAttach(t)
      modifies `vcpuOnlyQueue, `anyCpuQueue, `assignedWorker, `workerValues, workers[id]
      ensures Valid() && Model() == SchedulerState.AttachTaskToWorker(old(Model()), t, id)
    {
      Leave(id, assignedWorker[t.id := id]);
      LoadAndQueue(t, id);
    }

    method DetachTaskFromWorker(t: TQ.Task)
      requires Valid() && t.id in assignedWorker && assignedWorker[t.id] in workers
      requires workerValues[assignedWorker[t.id]].CanDetach(t)
      modifies `vcpuOnlyQueue, `anyCpuQueue, `assignedWorker, `workerValues, workers[assignedWorker[t.id]]
      ensures Valid() && Model() == SchedulerState.DetachTask(old(Model()), t)
    {
      var id := assignedWorker[t.id];
      Leave(id, assignedWorker - {t.id});
      UnloadAndQueue(t, id);
    }

    method AddWorker(id: WorkerId)
      requires Valid() && id !in workers && id in manager.workerData
      requires manager.workerData[id].concurrency > 0 && manager.workerData[id].availableRam > 0
      modifies `workers, `workerValues, `vcpuOnlyQueue, `anyCpuQueue
      ensures Valid() && id in workers && fresh(workers[id]) && workers == old(workers)[id := workers[id]]
      ensures var wd := manager.workerData[id];
              Model() == SchedulerState.AddWorker(old(Model()), id, wd.concurrency, wd.availableRam, wd.canRunCpuExec)
    {
      var wd := manager.workerData[id];
      var w := new WorkerInfo(id, wd.concurrency, wd.availableRam, wd.canRunCpuExec);
      workers := workers[id := w];
      workerValues := workerValues[id := w.Model()];
      InsertWorkerToQueue(id);
    }

    method DelWorker(id: WorkerId)
      requires Valid() && id in workers && workerValues[id].running == 0
      modifies `workers, `workerValues, `vcpuOnlyQueue, `anyCpuQueue
      ensures Valid() && workers == old(workers) - {id}
      ensures Model() == SchedulerState.DelWorker(old(Model()), id)
    {
      RemoveWorkerFromQueue(id);
      Forget(id);
    }

    method Forget(id: WorkerId)
      requires Valid()
      modifies `workers, `workerValues
      ensures Valid() && workers == old(workers) - {id} && workerValues == old(workerValues) - {id}
    {
      workers := workers - {id};
      workerValues := workerValues - {id};
    }

    // ----- tasks

    method UpdateContest(c: ContestId, priority: int, weight: nat)
      requires weight >= 1
      modifies `contests
      ensures Model() == SchedulerState.UpdateContest(old(Model()), c, priority, weight)
    {
      contests := contests[c := TQ.Contest(priority, weight)];
    }

    method AddTaskToQueues(t: TQ.Task)
      requires Valid()
      modifies virtualCpuTasks, bothTasks
      ensures Model() == SchedulerState.AddTaskToQueues(old(Model()), t)
    {
      if !t.realCpu {
        virtualCpuTasks.AddTask(t);
      }
      bothTasks.AddTask(t);
    }

    method RemoveTaskFromQueues(t: TQ.Task)
      requires Valid()
      modifies virtualCpuTasks, bothTasks
      ensures Model() == SchedulerState.RemoveTaskFromQueues(old(Model()), t)
    {
      if !t.realCpu {
        virtualCpuTasks.DelTask(t);
      }
      bothTasks.DelTask(t);
    }

    method AddTask(job: Job, c: ContestId)
      requires Valid() && c in contests && job.id !in tasks
      modifies `tasks, `sequenceCounter, virtualCpuTasks, bothTasks
      ensures Valid() && Model() == SchedulerState.AddTask(old(Model()), job, c)
    {
      sequenceCounter := sequenceCounter + 1;
      var t := TQ.Task(job.id, job.realCpu, job.ram, job.priority, c, sequenceCounter);
      tasks := tasks[t.id := t];
      AddTaskToQueues(t);
    }

    method DelTask(x: TaskId)
      requires Valid() && x in tasks && tasks[x].id == x
      requires x in assignedWorker ==>
                 assignedWorker[x] in workers && workerValues[assignedWorker[x]].CanDetach(tasks[x])
      modifies `tasks, `assignedWorker, `workerValues, `vcpuOnlyQueue, `anyCpuQueue, workers.Values,
               virtualCpuTasks, bothTasks, waitingRealCpuTasks
      ensures Valid() && Model() == SchedulerState.DelTask(old(Model()), x)
      ensures tasks == old(tasks) - {x}
    {
      var t := tasks[x];
      tasks := tasks - {x};
      if x in assignedWorker {
        DetachTaskFromWorker(t);
      } else {
        DelIdleTask(t);
      }
    }

    /** A task that is not running waits, or is queued. */
    method DelIdleTask(t: TQ.Task)
      requires Valid()
      modifies virtualCpuTasks, bothTasks, waitingRealCpuTasks
      ensures var s := old(Model());
              Model() == if t in s.waiting then RemoveWaiting(s, t) else SchedulerState.RemoveTaskFromQueues(s, t)
    {
      if t in waitingRealCpuTasks.dict {
        waitingRealCpuTasks.Remove(t);
      } else {
        RemoveTaskFromQueues(t);
      }
    }

    // ----- choosing workers

    /** What the scheduler reads of the manager: nothing of it changes while tasks are scheduled. */
    ghost predicate ManagerIs(m: M.Manager)
      reads manager
    {
      manager.Announced() && manager.Model() == m
    }

    /** `_getBestWorkerForVirtualCpuTask`. */
    method BestWorkerForVirtualCpuTask(q: seq<WorkerId>, ram: nat, preferBusy: bool) returns (best: Option<WorkerId>)
      requires Valid() && forall i | 0 <= i < |q| :: q[i] in workerValues
      ensures best == BestVirtual(q, workerValues, ram, preferBusy)
    {
      var at: Option<nat> := None;
      ghost var scores := Scores(q, workerValues, ram, preferBusy);
      for i := 0 to |q|
        invariant Scan(scores[..i]) == at
        invariant at.Some? ==> at.value < i && scores[at.value].Some?
      {
        assert scores[..i + 1][..i] == scores[..i];
        var w := workers[q[i]].Model();
        if Viable(w, ram) {
          if at == None || Higher(ScoreOf(w, ram, preferBusy).value,
                                  ScoreOf(workers[q[at.value]].Model(), ram, preferBusy).value) {
            at := Some(i);
          }
        }
      }
      assert scores[..|q|] == scores;
      best := if at == None then None else Some(q[at.value]);
    }

    /** `_getBestAnyCpuWorkerForRealCpuTask`. */
    method BestAnyCpuWorkerForRealCpuTask(ram: nat) returns (best: Option<WorkerId>)
      requires Valid() && forall i | 0 <= i < |anyCpuQueue| :: anyCpuQueue[i] in workerValues
      ensures best == BestReal(anyCpuQueue, workerValues, ram)
    {
      for i := 0 to |anyCpuQueue|
        invariant BestReal(anyCpuQueue, workerValues, ram) == BestReal(anyCpuQueue[i..], workerValues, ram)
      {
        var id := anyCpuQueue[i];
        assert anyCpuQueue[i..][0] == id && anyCpuQueue[i..][1..] == anyCpuQueue[i + 1..];
        if workers[id].runningTasks > 0 { return None; }
        if workers[id].Model().Available() >= ram { return Some(id); }
      }
      return None;
    }

    /** `_getNumberOfBlockedAnyCpuWorkers`. */
    method NumberOfBlockedAnyCpuWorkers(ghost m: M.Manager) returns (n: nat)
      requires ManagerIs(m) && |waitingRealCpuTasks.dict| == |waitingRealCpuTasks.tasksRequiredRam|
      ensures n == B.Blocked(m, waitingRealCpuTasks.tasksRequiredRam)
    {
      var waitingRam := waitingRealCpuTasks.tasksRequiredRam;
      if manager.minAnyCpuWorkerRam == None || waitingRealCpuTasks.dict == [] { return 0; }
      if manager.minAnyCpuWorkerRam.value >= waitingRam[|waitingRam| - 1] { return |waitingRealCpuTasks.dict|; }
      var workersRam := manager.RamsOfKind(true);
      WM.KindRamsAre(m.order, m, true);
      n := GreedyCount(Sort(workersRam), waitingRam);
    }

    // ----- scheduling

    /** First phase: a virtual-cpu task and a vcpu-only worker. */
    method ChooseForVcpuOnly() returns (mv: Move)
      requires Valid() && Inv(Model())
      modifies `draws
      ensures mv == PhaseOne(old(Model()), random) && draws == DrawsAfterOne(old(Model()))
    {
      if virtualCpuTasks.queues == [] { return Idle; }
      QueueMembers(Model());
      var t := virtualCpuTasks.ChooseTask(contests, random(draws));
      draws := draws + 1;
      var w := BestWorkerForVirtualCpuTask(vcpuOnlyQueue, t.ram, false);
      return if w == None then Idle else VirtualToVcpuOnly(t, w.value);
    }

    /** Second phase: the longest waiting real-cpu task. */
    method ChooseForWaiting() returns (mv: Move)
      requires Valid() && Inv(Model())
      ensures mv == PhaseTwo(Model())
    {
      if waitingRealCpuTasks.dict == [] { return Idle; }
      QueueMembers(Model());
      var t := waitingRealCpuTasks.dict[0];
      var w := BestAnyCpuWorkerForRealCpuTask(t.ram);
      return if w == None then Idle else WaitingToAny(t, w.value);
    }

    /** Third phase: any task, while there are more any-cpu workers than are blocked. */
    method ChooseForAnyCpu() returns (mv: Move)
      requires Valid() && Inv(Model()) && bothTasks.queues != []
      modifies `draws
      ensures mv == PhaseThree(old(Model()), random(old(draws))) && draws == old(draws) + 1
    {
      var t := bothTasks.ChooseTask(contests, random(draws));
      mv := Place(t);
      draws := draws + 1;
    }

    method Place(t: TQ.Task) returns (mv: Move)
      requires Valid() && Inv(Model())
      ensures mv == PlaceOf(Model(), t)
    {
      QueueMembers(Model());
      if !t.realCpu {
        var w := BestWorkerForVirtualCpuTask(anyCpuQueue, t.ram, true);
        return if w == None then Idle else VirtualToAny(t, w.value);
      }
      var w := BestAnyCpuWorkerForRealCpuTask(t.ram);
      return if w == None then Move.Reserve(t) else RealToAny(t, w.value);
    }

    /** A queued task leaves for a worker. */
    method Start(t: TQ.Task, id: WorkerId)
      requires Valid() && id in workers && t.id !in assignedWorker && workerValues[id].CanAttach(t)
      modifies `vcpuOnlyQueue, `anyCpuQueue, `assignedWorker, `workerValues, workers[id], virtualCpuTasks, bothTasks
      ensures Valid()
      ensures Model() == SchedulerState.AttachTaskToWorker(SchedulerState.RemoveTaskFromQueues(old(Model()), t), t, id)
    {
      RemoveTaskFromQueues(t);
      AttachTaskToWorker(t, id);
    }

    /** The longest waiting task leaves for a worker. */
    method StartWaiting(id: WorkerId)
      requires Valid() && id in workers && waitingRealCpuTasks.dict != []
      requires waitingRealCpuTasks.dict[0].id !in assignedWorker
      requires workerValues[id].CanAttach(waitingRealCpuTasks.dict[0])
      modifies `vcpuOnlyQueue, `anyCpuQueue, `assignedWorker, `workerValues, workers[id], waitingRealCpuTasks
      ensures Valid() && old(Model()).waiting != []
      ensures Model() == SchedulerState.AttachTaskToWorker(PopWaiting(old(Model())), old(Model()).waiting[0], id)
    {
      var t := waitingRealCpuTasks.PopLeft();
      AttachTaskToWorker(t, id);
    }

    method Reserve(t: TQ.Task)
      requires Valid()
      modifies virtualCpuTasks, bothTasks, waitingRealCpuTasks
      ensures Model() == AddWaiting(SchedulerState.RemoveTaskFromQueues(old(Model()), t), t)
    {
      RemoveTaskFromQueues(t);
      waitingRealCpuTasks.Add(t);
    }

    /** The second and the third phase. */
    method LaterMove(ghost m: M.Manager) returns (mv: Move)
      requires Valid() && Inv(Model()) && ManagerIs(m)
      modifies `draws
      ensures mv == Later(old(Model()), m, random(old(draws)))
      ensures draws == old(draws) + if ThirdPhase(old(Model()), m) then 1 else 0
    {
      mv := ChooseForWaiting();
      if mv != Idle { return; }
      WaitingLength(Model());
      var blocked := NumberOfBlockedAnyCpuWorkers(m);
      if |anyCpuQueue| > blocked && bothTasks.queues != [] {
        mv := ChooseForAnyCpu();
      }
    }

    /** The three phases, up to the point where something is changed. */
    method NextMove(ghost m: M.Manager) returns (mv: Move)
      requires Valid() && Inv(Model()) && ManagerIs(m)
      modifies `draws
      ensures mv == Decide(old(Model()), m, random)
      ensures draws == DrawsAfter(old(Model()), m, random)
    {
      ghost var s := Model();
      mv := ChooseForVcpuOnly();
      if mv != Idle { return; }
      assert Model() == s.(draws := draws);
      DrawsDoNotMatter(s, draws, m);
      mv := LaterMove(m);
    }

    method Perform(mv: Move, ghost next: State)
      requires Valid() && Ready(Model(), mv) && next == Apply(Model(), mv)
      modifies `vcpuOnlyQueue, `anyCpuQueue, `assignedWorker, `workerValues, workers.Values,
               virtualCpuTasks, bothTasks, waitingRealCpuTasks
      ensures Valid() && Model() == next
    {
      if mv.Reserve? {
        Reserve(mv.t);
      } else if mv.WaitingToAny? {
        StartWaiting(mv.w);
      } else if mv != Idle {
        Start(mv.t, mv.w);
      }
    }

    /** The next move, and the draws that it took. `s` and `m` are the values at the start. */
    method Decided(ghost s: State, ghost m: M.Manager, ghost mv0: Move, ghost after: State) returns (mv: Move)
      requires Valid() && ManagerIs(m) && Model() == s && DrawnAs(s, m, random, mv0, after)
      modifies `draws
      ensures Valid() && mv == mv0 && Model() == after
    {
      ToDraw(s, m, random, mv0, after);
      mv := NextMove(m);
      assert Model() == s.(draws := draws);
    }

    method DecideAndPerform(ghost s: State, ghost m: M.Manager, ghost mv0: Move, ghost next: State) returns (mv: Move)
      requires Valid() && ManagerIs(m) && Model() == s && Decides(s, m, random, mv0, next)
      modifies `vcpuOnlyQueue, `anyCpuQueue, `assignedWorker, `workerValues, `draws, workers.Values,
               virtualCpuTasks, bothTasks, waitingRealCpuTasks
      ensures Valid() && mv == mv0 && Model() == next
    {
      ghost var after := MovePlan(s, m, random, mv0, next);
      mv := Decided(s, m, mv0, after);
      Perform(mv, next);
    }

    /** One decision, carried out. */
    method StepOnce(ghost s: State, ghost m: M.Manager, ghost mv0: Move, ghost next: State) returns (mv: Move)
      requires Valid() && ManagerIs(m) && Model() == s && Decides(s, m, random, mv0, next)
      modifies this, workers.Values, virtualCpuTasks, bothTasks, waitingRealCpuTasks
      ensures unchanged(`workers) && Valid() && ManagerIs(m) && mv == mv0 && Model() == next
    {
      mv := DecideAndPerform(s, m, mv0, next);
      WM.Kept(manager);
    }

    method ScheduleOnce(ghost s: State, ghost m: M.Manager, ghost next: Option<Association>, ghost s': State)
      returns (r: Option<Association>)
      requires Valid() && ManagerIs(m) && Model() == s && SchedulesOnce(s, m, random, next, s')
      modifies this, workers.Values, virtualCpuTasks, bothTasks, waitingRealCpuTasks
      ensures unchanged(`workers) && Valid() && ManagerIs(m) && r == next && Model() == s'
      decreases Pending(s)
    {
      ghost var mv0, s1 := OncePlan(s, m, random, next, s');
      var mv := StepOnce(s, m, mv0, s1);
      if mv.Reserve? {
        r := ScheduleOnce(s1, m, next, s');
      } else if mv == Idle {
        r := None;
      } else {
        r := Some((mv.t.id, mv.w));
      }
    }

    method Schedule(ghost s: State, ghost m: M.Manager, ghost jobs: seq<Association>, ghost s': State)
      returns (result: seq<Association>)
      requires Valid() && ManagerIs(m) && Model() == s && Schedules(s, m, random, jobs, s')
      modifies this, workers.Values, virtualCpuTasks, bothTasks, waitingRealCpuTasks
      ensures unchanged(`workers) && Valid() && ManagerIs(m) && result == jobs && Model() == s'
    {
      result := [];
      ghost var now, left := s, jobs;
      while true
        invariant unchanged(`workers) && Valid() && ManagerIs(m) && Model() == now
        invariant Schedules(now, m, random, left, s') && jobs == result + left
        decreases |Unattached(now)|
      {
        ghost var next, s1 := SchedulePlan(now, m, random, left, s');
        var association := ScheduleOnce(now, m, next, s1);
        now := s1;
        if association == None { break; }
        Append(result, left);
        result := result + [association.value];
        left := left[1..];
      }
    }
  }

  lemma Append(a: seq<Association>, b: seq<Association>)
    requires b != []
    ensures a + b == a + [b[0]] + b[1..]
  {
  }

  /** What a move needs to be carried out. */
  ghost predicate Ready(s: State, mv: Move) {
    && (mv.Attaches() ==> mv.w in s.workers && mv.t.id !in s.runsOn && s.workers[mv.w].CanAttach(mv.t))
    && (mv.WaitingToAny? ==> s.waiting != [] && mv.t == s.waiting[0])
  }

  /** `after` is `s` after the draws for the decision `mv`. */
  ghost predicate DrawnAs(s: State, m: M.Manager, rnd: Generator, mv: Move, after: State) {
    forall n: nat :: UnfoldKey(n) ==> Inv(s) && Decide(s, m, rnd) == mv && after == s.(draws := DrawsAfter(s, m, rnd))
  }

  lemma ToDraw(s: State, m: M.Manager, rnd: Generator, mv: Move, after: State)
    requires DrawnAs(s, m, rnd, mv, after)
    ensures Inv(s) && Decide(s, m, rnd) == mv && after == s.(draws := DrawsAfter(s, m, rnd))
  {
    assert UnfoldKey(0);
  }

  /** What the decided move needs, and that the draws made before it do not touch it. */
  lemma MovePlan(s: State, m: M.Manager, rnd: Generator, mv: Move, next: State) returns (after: State)
    requires Decides(s, m, rnd, mv, next)
    ensures DrawnAs(s, m, rnd, mv, after) && Ready(after, mv) && Apply(after, mv) == next
  {
    ToDecide(s, m, rnd, mv, next);
    after := s.(draws := DrawsAfter(s, m, rnd));
    DecideIsLegal(s, m, rnd);
    if mv != Idle { LegalTask(s, mv); }
    ApplyDraws(s, mv, DrawsAfter(s, m, rnd));
  }

  lemma ApplyDraws(s: State, mv: Move, draws: nat)
    requires mv.Attaches() ==> mv.w in s.workers
    requires mv.WaitingToAny? ==> s.waiting != []
    ensures Apply(s.(draws := draws), mv) == Apply(s, mv).(draws := draws)
  {
    match mv
    case WaitingToAny(t, w) => AttachDraws(PopWaiting(s), t, w, draws);
    case Reserve(t) =>
    case Idle =>
    case VirtualToVcpuOnly(t, w) => QueuedDraws(s, t, w, draws);
    case VirtualToAny(t, w) => QueuedDraws(s, t, w, draws);
    case RealToAny(t, w) => QueuedDraws(s, t, w, draws);
  }

  lemma QueuedDraws(s: State, t: TQ.Task, id: WorkerId, draws: nat)
    requires id in s.workers
    ensures SchedulerState.AttachTaskToWorker(SchedulerState.RemoveTaskFromQueues(s.(draws := draws), t), t, id)
            == SchedulerState.AttachTaskToWorker(SchedulerState.RemoveTaskFromQueues(s, t), t, id).(draws := draws)
  {
    AttachDraws(SchedulerState.RemoveTaskFromQueues(s, t), t, id, draws);
  }

  lemma AttachDraws(s: State, t: TQ.Task, id: WorkerId, draws: nat)
    requires id in s.workers
    ensures SchedulerState.AttachTaskToWorker(s.(draws := draws), t, id)
            == SchedulerState.AttachTaskToWorker(s, t, id).(draws := draws)
  {
    var s1 := s.(runsOn := s.runsOn[t.id := id]);
    assert SchedulerState.RemoveWorkerFromQueue(s1.(draws := draws), id)
           == SchedulerState.RemoveWorkerFromQueue(s1, id).(draws := draws);
  }

  ghost predicate ThirdPhase(s: State, m: M.Manager)
    requires Inv(s)
  {
    PhaseTwo(s) == Idle && PhaseThreeOpen(s, m)
  }

  ghost function Later(s: State, m: M.Manager, raw: nat): Move
    requires Inv(s)
  {
    if PhaseTwo(s) != Idle then PhaseTwo(s) else if PhaseThreeOpen(s, m) then PhaseThree(s, raw) else Idle
  }

  lemma DrawsDoNotMatter(s: State, draws: nat, m: M.Manager)
    requires Inv(s)
    ensures Inv(s.(draws := draws)) && ThirdPhase(s.(draws := draws), m) == ThirdPhase(s, m)
    ensures forall raw :: Later(s.(draws := draws), m, raw) == Later(s, m, raw)
  {
  }

  lemma WaitingLength(s: State)
    requires Inv(s)
    ensures |s.waiting| == |s.waitingRam|
  {
    assert |multiset(s.waitingRam)| == |multiset(RamsOfTasks(s.waiting))|;
  }

  /** The nested loops over the sorted RAM of the workers and of the waiting tasks. */
  method GreedyCount(workersRam: seq<nat>, tasksRam: seq<nat>) returns (next: nat)
    ensures next == Matching.GreedyBlocked(workersRam, tasksRam)
  {
    next := 0;
    for i := 0 to |tasksRam|
      invariant next <= |workersRam|
      invariant Matching.Walk(workersRam, tasksRam, 0) == Matching.Walk(workersRam, tasksRam[i..], next)
    {
      assert tasksRam[i..][1..] == tasksRam[i + 1..];
      ghost var start := next;
      while next < |workersRam| && workersRam[next] < tasksRam[i]
        invariant start <= next <= |workersRam|
        invariant Matching.NextFit(workersRam, tasksRam[i], start) == Matching.NextFit(workersRam, tasksRam[i], next)
      {
        next := next + 1;
      }
      if next == |workersRam| { return; }
      next := next + 1;
    }
  }

  /** Where nothing of the scheduler is written, it stays what it is. */
  twostate lemma Untouched(p: PrioritizingScheduler)
    requires old(p.Valid()) && unchanged(p) && unchanged(p.workers.Values)
    requires unchanged(p.virtualCpuTasks) && unchanged(p.bothTasks) && unchanged(p.waitingRealCpuTasks)
    ensures p.Valid() && p.Model() == old(p.Model())
  {
  }
}

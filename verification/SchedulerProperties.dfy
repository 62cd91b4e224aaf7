/** What a scheduling decision, and a whole call of `schedule`, guarantees. */
module SchedulerProperties {
  import opened Types
  import opened SortedSets
  import opened Matching
  import opened TaskQueues
  import M = ManagerModel
  import opened Blocking
  import opened SchedulerState
  import opened SchedulerInvariant
  import opened WorkerChoice
  import opened Scheduling

  /** The manager knows the same workers as the scheduler. */
  ghost predicate Announced(m: M.Manager, ws: Workers) {
    && m.data.Keys == ws.Keys
    && (forall id | id in ws :: m.data[id].concurrency == ws[id].concurrency && m.data[id].ram == ws[id].totalRam
                                && m.data[id].cpu == ws[id].cpuEnabled)
  }

  /** ... and its statistics are up to date. */
  ghost predicate Agrees(m: M.Manager, ws: Workers) {
    M.DictionaryOk(m) && M.StatsOk(m) && Announced(m, ws)
  }

  // ----- index agreement

  /** A worker in a queue is not full and a worker out of the queues is; so every removal finds its worker. */
  lemma QueuesAreExact(s: State, id: WorkerId)
    requires Inv(s) && id in s.workers
    ensures id in s.anyCpu <==> s.workers[id].cpuEnabled && s.workers[id].Slots() > 0
    ensures id in s.vcpuOnly <==> !s.workers[id].cpuEnabled && s.workers[id].Slots() > 0
    ensures match s.workers[id].Queue()
            case None => true
            case Some(kind) =>
              var q := if kind == AnyCpuKind then s.anyCpu else s.vcpuOnly;
              var p := Position(QueueKeys(kind, s.workers, q), WorkerKey(kind, s.workers[id]));
              p < |q| && q[p] == id
  {
    assert WorkerLoad(s.workers[id], s.tasks, On(s.runsOn, id));
    match s.workers[id].Queue()
    case None =>
    case Some(kind) =>
      RemoveWorkerFinds(kind, s.workers, if kind == AnyCpuKind then s.anyCpu else s.vcpuOnly, id);
  }

  // ----- the reserve for waiting real-cpu tasks

  lemma FreeWorkers(ws: Workers, q: seq<WorkerId>)
    requires IndexOk(AnyCpuKind, ws, q)
    ensures |Elements(q)| == |q|
    ensures forall id | id in Elements(q) :: id in ws && ws[id].cpuEnabled
  {
    forall i, j | 0 <= i < j < |q| ensures q[i] != q[j] {
      assert Less(QueueKeys(AnyCpuKind, ws, q)[i], QueueKeys(AnyCpuKind, ws, q)[j]);
      assert q[i] in q && q[j] in q;
    }
    DistinctCardinality(q);
  }

  lemma FreeAfterChange(ws: Workers, ws': Workers, q: seq<WorkerId>, q': seq<WorkerId>, w: WorkerId)
    requires IndexOk(AnyCpuKind, ws, q) && IndexOk(AnyCpuKind, ws', q') && w in ws && w in q
    requires w in ws' && ws' == ws[w := ws'[w]]
    ensures Elements(q') <= Elements(q) && |Elements(q')| >= |Elements(q)| - 1
  {
    forall id | id in Elements(q') ensures id in q {
      if id != w { assert ws'[id] == ws[id]; }
    }
    forall id | id in Elements(q) ensures id in Elements(q') + {w} {
      if id != w { assert ws'[id] == ws[id]; }
    }
    SubsetCardinality(Elements(q), Elements(q') + {w});
  }

  lemma AttachIndex(s: State, mv: Move)
    requires Inv(s) && Legal(s, mv) && (mv.VirtualToAny? || mv.RealToAny?)
    ensures var s' := Apply(s, mv);
            && IndexOk(AnyCpuKind, s'.workers, s'.anyCpu)
            && mv.w in s'.workers && s'.workers == s.workers[mv.w := s'.workers[mv.w]]
            && s'.waitingRam == s.waitingRam
  {
    ApplyInv(s, mv);
    AttachEffect(RemoveTaskFromQueues(s, mv.t), mv.t, mv.w);
  }

  lemma WaitingSorted(s: State)
    requires Inv(s)
    ensures Ascending(s.waitingRam) && IndexOk(AnyCpuKind, s.workers, s.anyCpu)
  {
  }

  /**
   After the third phase has attached a task to an any-cpu worker, the any-cpu workers that are still
   not full can, by their total RAM, run all waiting real-cpu tasks at the same time.
   */
  lemma ReserveIsKept(s: State, m: M.Manager, rnd: Generator)
    requires Inv(s) && Agrees(m, s.workers)
    ensures var mv, s' := Decide(s, m, rnd), Step(s, m, rnd);
            mv.VirtualToAny? || mv.RealToAny? ==>
              s'.waitingRam == s.waitingRam && CanServe(Elements(s'.anyCpu), M.TotalRam(m), s'.waitingRam)
  {
    var mv := Decide(s, m, rnd);
    if mv.VirtualToAny? || mv.RealToAny? {
      assert PhaseThreeOpen(s, m);
      DecideIsLegal(s, m, rnd);
      AttachIndex(s, mv);
      KeepReserve(s, Step(s, m, rnd), m, mv.w);
    }
  }

  lemma KeepReserve(s: State, s': State, m: M.Manager, w: WorkerId)
    requires Inv(s) && Agrees(m, s.workers) && |s.anyCpu| > Blocked(m, s.waitingRam)
    requires IndexOk(AnyCpuKind, s'.workers, s'.anyCpu) && w in s.anyCpu && w in s.workers
    requires w in s'.workers && s'.workers == s.workers[w := s'.workers[w]]
    ensures CanServe(Elements(s'.anyCpu), M.TotalRam(m), s.waitingRam)
  {
    WaitingSorted(s);
    FreeAfterChange(s.workers, s'.workers, s.anyCpu, s'.anyCpu, w);
    FreeWorkers(s.workers, s.anyCpu);
    assert Elements(s.anyCpu) <= M.AnyCpu(m);
    TakingOneKeepsReserve(m, s.waitingRam, Elements(s.anyCpu), Elements(s'.anyCpu));
  }

  // ----- order within a contest

  /**
   A virtual-cpu task is only started ahead of a queued one of the same contest if it has higher
   priority or arrived earlier at equal priority, whichever of the two queues it leaves through.
   */
  lemma NoInversion(s: State, m: M.Manager, rnd: Generator, u: Task)
    requires Inv(s)
    ensures u in Content(s.bothQ) && !u.realCpu ==> AheadOf(Decide(s, m, rnd), u)
  {
    var mv := Decide(s, m, rnd);
    if u in Content(s.bothQ) && !u.realCpu {
      if mv.VirtualToVcpuOnly? {
        VirtualPhaseInOrder(s, rnd, u);
      } else if mv.VirtualToAny? {
        AnyCpuPhaseInOrder(s, rnd(DrawsAfterOne(s)), u);
      }
    }
  }

  lemma VirtualPhaseInOrder(s: State, rnd: Generator, u: Task)
    requires Inv(s) && u in Content(s.bothQ) && !u.realCpu
    ensures AheadOf(PhaseOne(s, rnd), u)
  {
    if PhaseOne(s, rnd) != Idle {
      assert u in Content(s.virtualQ) by { VirtualQueueHolds(s); }
      FirstOfContest(s.virtualQ, s.contests, rnd(s.draws), u);
    }
  }

  lemma AnyCpuPhaseInOrder(s: State, raw: nat, u: Task)
    requires Inv(s) && u in Content(s.bothQ) && CanChoose(s.bothQ, s.contests)
    ensures AheadOf(PhaseThree(s, raw), u)
  {
    FirstOfContest(s.bothQ, s.contests, raw, u);
  }

  predicate StartsVirtual(mv: Move) {
    mv.VirtualToVcpuOnly? || mv.VirtualToAny?
  }

  /** A started virtual-cpu task is to be judged before the other virtual-cpu task of its contest. */
  ghost predicate AheadOf(mv: Move, u: Task) {
    StartsVirtual(mv) && u != mv.t && u.contest == mv.t.contest && !u.realCpu ==> Before(mv.t, u)
  }

  lemma FirstOfContest(q: Queues, contests: Contests, raw: nat, u: Task)
    requires CanChoose(q, contests) && u in Content(q)
    ensures var t := ChooseTask(q, contests, raw); u.contest == t.contest && u != t ==> Before(t, u)
  {
    ChosenIsFirst(q, contests, raw);
  }

  // ----- order of real-cpu tasks

  /** Every any-cpu worker is large enough for every known real-cpu task. */
  ghost predicate CoversAll(s: State) {
    forall id, x | id in s.workers && s.workers[id].cpuEnabled && x in s.tasks && s.tasks[x].realCpu ::
      s.tasks[x].ram <= s.workers[id].totalRam
  }

  /** A worker without tasks has all its RAM available. */
  lemma UnusedWorker(w: Worker, tasks: map<TaskId, Task>, on: set<TaskId>)
    requires WorkerLoad(w, tasks, on) && w.running == 0
    ensures w.Available() == w.totalRam && !w.realBusy
  {
  }

  /** Then a real-cpu task is attached directly only when no other one is waiting. */
  lemma DirectOnlyIfNoneWaiting(s: State, m: M.Manager, rnd: Generator)
    requires Inv(s) && CoversAll(s) && s.waiting != []
    ensures !Decide(s, m, rnd).RealToAny?
  {
    assert s.waiting[0] in s.waiting;
    forall id | id in s.workers && s.workers[id].cpuEnabled && s.workers[id].running == 0
      ensures Empty(s.workers[id], s.waiting[0].ram)
    {
      UnusedWorker(s.workers[id], s.tasks, On(s.runsOn, id));
    }
    BestRealIsLeast(s.anyCpu, s.workers, s.waiting[0].ram);
    DecideIsLegal(s, m, rnd);
    var mv := Decide(s, m, rnd);
    if mv.RealToAny? { QueuedWorker(s, mv.w, AnyCpuKind); }
  }

  // ----- work conservation

  /** Each worker's RAM is at least its number of slots times the RAM of any known task. */
  ghost predicate Roomy(s: State, large: nat) {
    && (forall x | x in s.tasks :: s.tasks[x].ram <= large)
    && (forall id | id in s.workers :: s.workers[id].concurrency * large <= s.workers[id].totalRam)
  }

  ghost predicate Conserved(s: State) {
    && (Content(s.virtualQ) != {} ==>
          forall id | id in s.workers :: s.workers[id].cpuEnabled || s.workers[id].Slots() == 0)
    && (Content(s.bothQ) != {} ==> |s.anyCpu| <= |s.waiting|)
    && (s.waiting != [] ==> forall id | id in s.workers && s.workers[id].cpuEnabled :: s.workers[id].running > 0)
  }

  lemma OneMore(n: nat, large: nat)
    ensures (n + 1) * large == n * large + large
  {
  }

  lemma {:induction false} RamSumBound(on: set<TaskId>, tasks: map<TaskId, Task>, large: nat)
    requires on <= tasks.Keys && forall x | x in on :: tasks[x].ram <= large
    ensures RamSum(on, tasks) <= |on| * large
    decreases on
  {
    if on != {} {
      var x: TaskId :| x in on;
      RamSumTake(on, tasks, x);
      RamSumBound(on - {x}, tasks, large);
      OneMore(|on - {x}|, large);
    }
  }

  lemma SlotMeansRoom(running: nat, concurrency: nat, large: nat)
    requires running < concurrency
    ensures running * large + large <= concurrency * large
  {
    OneMore(running, large);
    assert (running + 1) * large <= concurrency * large;
  }

  lemma RoomyLoad(w: Worker, tasks: map<TaskId, Task>, on: set<TaskId>, large: nat)
    requires WorkerLoad(w, tasks, on) && w.concurrency * large <= w.totalRam && w.concurrency > 0
    requires forall x | x in tasks :: tasks[x].ram <= large
    ensures w.Slots() > 0 ==> w.Available() >= large
    ensures w.running == 0 ==> w.Available() >= large && !w.realBusy
  {
    RamSumBound(on, tasks, large);
    if w.running < w.concurrency { SlotMeansRoom(w.running, w.concurrency, large); }
  }

  lemma RoomyWorker(s: State, large: nat, id: WorkerId, ram: nat)
    requires Inv(s) && Roomy(s, large) && id in s.workers && ram <= large
    ensures s.workers[id].Slots() > 0 ==> Viable(s.workers[id], ram)
    ensures s.workers[id].running == 0 && s.workers[id].cpuEnabled ==> Empty(s.workers[id], ram)
  {
    RoomyLoad(s.workers[id], s.tasks, On(s.runsOn, id), large);
  }

  lemma EmptyQueues(q: Queues)
    ensures q == [] ==> Content(q) == {}
  {
  }

  lemma IdleConserves(s: State, m: M.Manager, rnd: Generator, large: nat)
    requires Inv(s) && Agrees(m, s.workers) && Roomy(s, large)
    requires Decide(s, m, rnd) == Idle
    ensures Conserved(s)
  {
    EmptyQueues(s.virtualQ);
    EmptyQueues(s.bothQ);
    QueueMembers(s);
    if Content(s.virtualQ) != {} { IdlePhaseOne(s, rnd, large); }
    if s.waiting != [] { IdlePhaseTwo(s, large); }
    if Content(s.bothQ) != {} { IdlePhaseThree(s, m, rnd, large); }
  }

  lemma IdlePhaseOne(s: State, rnd: Generator, large: nat)
    requires Inv(s) && Roomy(s, large) && s.virtualQ != [] && PhaseOne(s, rnd) == Idle
    ensures forall id | id in s.workers :: s.workers[id].cpuEnabled || s.workers[id].Slots() == 0
  {
    var t := ChooseTask(s.virtualQ, s.contests, rnd(s.draws));
    ChosenIsFirst(s.virtualQ, s.contests, rnd(s.draws));
    VirtualQueueHolds(s);
    QueueMembers(s);
    BestVirtualIsMaximal(s.vcpuOnly, s.workers, t.ram, false);
    forall id | id in s.workers && !s.workers[id].cpuEnabled ensures s.workers[id].Slots() == 0 {
      FreeVcpuWorker(s, large, id, t.ram);
    }
  }

  lemma FreeVcpuWorker(s: State, large: nat, id: WorkerId, ram: nat)
    requires Inv(s) && Roomy(s, large) && ram <= large && id in s.workers && !s.workers[id].cpuEnabled
    requires forall i | 0 <= i < |s.vcpuOnly| :: s.vcpuOnly[i] in s.workers && !Takes(s.workers[s.vcpuOnly[i]], ram)
    ensures s.workers[id].Slots() == 0
  {
    QueuesAreExact(s, id);
    assert s.workers[id].running <= s.workers[id].concurrency by {
      assert WorkerLoad(s.workers[id], s.tasks, On(s.runsOn, id));
    }
    if s.workers[id].Slots() > 0 {
      var i :| 0 <= i < |s.vcpuOnly| && s.vcpuOnly[i] == id;
      RoomyWorker(s, large, id, ram);
    }
  }

  lemma IdlePhaseTwo(s: State, large: nat)
    requires Inv(s) && Roomy(s, large) && s.waiting != [] && PhaseTwo(s) == Idle
    ensures forall id | id in s.workers && s.workers[id].cpuEnabled :: s.workers[id].running > 0
  {
    assert s.waiting[0] in s.waiting;
    BestRealIsLeast(s.anyCpu, s.workers, s.waiting[0].ram);
    forall id | id in s.workers && s.workers[id].cpuEnabled ensures s.workers[id].running > 0 {
      RoomyWorker(s, large, id, s.waiting[0].ram);
    }
  }

  lemma AnyCpuWorker(m: M.Manager, ws: Workers, id: WorkerId)
    requires Agrees(m, ws) && id in ws && ws[id].cpuEnabled
    ensures m.minAny.Some?
    ensures exists k | k in ws :: ws[k].totalRam == m.minAny.value
  {
    var ids := M.IdsOf(m.order, m.data, true);
    AnyCpuList(m);
    assert id in Elements(ids);
    var rams := AnyCpuRams(m);
    assert m.minAny == M.MinOf(rams);
    var i :| 0 <= i < |rams| && rams[i] == m.minAny.value;
    assert ids[i] in ws && ws[ids[i]].totalRam == m.minAny.value;
  }

  lemma IdlePhaseThree(s: State, m: M.Manager, rnd: Generator, large: nat)
    requires Inv(s) && Agrees(m, s.workers) && Roomy(s, large) && s.bothQ != []
    requires Decide(s, m, rnd) == Idle
    ensures |s.anyCpu| <= |s.waiting|
  {
    if s.anyCpu != [] {
      if PhaseThreeOpen(s, m) { ThirdPhaseActs(s, rnd(DrawsAfterOne(s)), large); }
      BlockedBounds(s, m, large);
    }
  }

  lemma BlockedBounds(s: State, m: M.Manager, large: nat)
    requires Inv(s) && Agrees(m, s.workers) && Roomy(s, large) && s.anyCpu != []
    ensures Blocked(m, s.waitingRam) <= |s.waiting|
  {
    assert s.anyCpu[0] in s.anyCpu;
    AnyCpuWorker(m, s.workers, s.anyCpu[0]);
    BlockedIsWaiting(s, m, large);
  }

  lemma PlaceActs(s: State, t: Task)
    requires Inv(s) && s.anyCpu != [] && s.anyCpu[0] in s.workers && Takes(s.workers[s.anyCpu[0]], t.ram)
    ensures PlaceOf(s, t) != Idle
  {
    QueueMembers(s);
    BestVirtualIsMaximal(s.anyCpu, s.workers, t.ram, true);
  }

  lemma FirstAnyCpuTakes(s: State, large: nat, ram: nat)
    requires Inv(s) && Roomy(s, large) && s.anyCpu != [] && ram <= large
    ensures s.anyCpu[0] in s.workers && Takes(s.workers[s.anyCpu[0]], ram)
  {
    assert s.anyCpu[0] in s.anyCpu;
    QueuedWorker(s, s.anyCpu[0], AnyCpuKind);
    RoomyWorker(s, large, s.anyCpu[0], ram);
  }

  /** With a not-full any-cpu worker around, the third phase always places its task somewhere. */
  lemma ThirdPhaseActs(s: State, raw: nat, large: nat)
    requires Inv(s) && Roomy(s, large) && s.bothQ != [] && s.anyCpu != []
    ensures PhaseThree(s, raw) != Idle
  {
    var t := ChooseTask(s.bothQ, s.contests, raw);
    assert t in Content(s.bothQ) by { ChosenIsFirst(s.bothQ, s.contests, raw); }
    FirstAnyCpuTakes(s, large, t.ram);
    PlaceActs(s, t);
  }

  lemma LargestWaiting(waiting: seq<Task>, waitingRam: seq<nat>, large: nat)
    requires WaitingOk(waiting, waitingRam) && forall i | 0 <= i < |waiting| :: waiting[i].ram <= large
    ensures |waitingRam| == |waiting|
    ensures forall i | 0 <= i < |waitingRam| :: waitingRam[i] <= large
  {
    var rams := RamsOfTasks(waiting);
    assert |multiset(waitingRam)| == |multiset(rams)|;
    forall i | 0 <= i < |waitingRam| ensures waitingRam[i] <= large {
      assert waitingRam[i] in multiset(rams);
    }
  }

  /** With roomy workers one worker is blocked for each waiting task. */
  lemma BlockedIsWaiting(s: State, m: M.Manager, large: nat)
    requires Inv(s) && Roomy(s, large) && m.minAny.Some?
    requires exists k | k in s.workers :: s.workers[k].totalRam == m.minAny.value
    ensures Blocked(m, s.waitingRam) == |s.waiting|
  {
    var k :| k in s.workers && s.workers[k].totalRam == m.minAny.value;
    SlotMeansRoom(0, s.workers[k].concurrency, large);
    forall i | 0 <= i < |s.waiting| ensures s.waiting[i].ram <= large {
      assert s.waiting[i] in s.waiting;
    }
    LargestWaiting(s.waiting, s.waitingRam, large);
  }

  // ----- a whole call of schedule

  lemma AgreesAfter(m: M.Manager, ws: Workers, ws': Workers)
    requires Agrees(m, ws) && SameWorkers(ws, ws')
    ensures Agrees(m, ws')
  {
  }

  /** Workers may differ in what they run only. */
  ghost predicate SameWorkers(ws: Workers, ws': Workers) {
    && ws'.Keys == ws.Keys
    && (forall id | id in ws :: ws'[id].concurrency == ws[id].concurrency && ws'[id].totalRam == ws[id].totalRam
                                && ws'[id].cpuEnabled == ws[id].cpuEnabled)
  }

  lemma StepSame(s: State, m: M.Manager, rnd: Generator)
    requires Inv(s)
    ensures SameWorkers(s.workers, Step(s, m, rnd).workers) && Step(s, m, rnd).tasks == s.tasks
  {
    DecideIsLegal(s, m, rnd);
    ApplySame(s, Decide(s, m, rnd));
  }

  lemma ApplySame(s: State, mv: Move)
    requires mv.Attaches() ==> mv.w in s.workers
    requires mv.WaitingToAny? ==> s.waiting != []
    ensures SameWorkers(s.workers, Apply(s, mv).workers) && Apply(s, mv).tasks == s.tasks
  {
    assert Apply(s, mv).tasks == s.tasks && Apply(s, mv).workers == WorkersAfter(s, mv) by { ApplyEffect(s, mv); }
  }

  lemma SameButOne(ws: Workers, id: WorkerId, w: Worker)
    requires id in ws && w.concurrency == ws[id].concurrency && w.totalRam == ws[id].totalRam
    requires w.cpuEnabled == ws[id].cpuEnabled
    ensures SameWorkers(ws, ws[id := w])
  {
  }

  lemma StepKeeps(s: State, m: M.Manager, rnd: Generator, large: nat)
    requires Inv(s) && Agrees(m, s.workers) && Roomy(s, large)
    ensures Agrees(m, Step(s, m, rnd).workers) && Roomy(Step(s, m, rnd), large)
  {
    StepSame(s, m, rnd);
    AgreesAfter(m, s.workers, Step(s, m, rnd).workers);
  }

  lemma DrawsConserve(s: State, draws: nat)
    requires Conserved(s)
    ensures Conserved(s.(draws := draws))
  {
  }

  lemma IdleStepConserves(s: State, m: M.Manager, rnd: Generator, large: nat)
    requires Inv(s) && Agrees(m, s.workers) && Roomy(s, large) && Decide(s, m, rnd) == Idle
    ensures Conserved(Step(s, m, rnd))
  {
    IdleConserves(s, m, rnd, large);
    DrawsConserve(s, DrawsAfter(s, m, rnd));
    IdleStep(s, m, rnd);
  }

  lemma {:induction false} ScheduleOnceConserves(s: State, m: M.Manager, rnd: Generator, large: nat)
    requires Inv(s) && Agrees(m, s.workers) && Roomy(s, large)
    ensures var (next, s') := ScheduleOnce(s, m, rnd);
            Agrees(m, s'.workers) && Roomy(s', large) && (next.None? ==> Conserved(s'))
    decreases Pending(s)
  {
    StepKeeps(s, m, rnd, large);
    StepDecreases(s, m, rnd);
    if Decide(s, m, rnd).Reserve? {
      OnceReserves(s, m, rnd);
      ScheduleOnceConserves(Step(s, m, rnd), m, rnd, large);
    } else {
      OnceEnds(s, m, rnd);
      if Decide(s, m, rnd) == Idle { IdleStepConserves(s, m, rnd, large); }
    }
  }

  /**
   When `schedule` returns and every worker is roomy: no free vcpu-only slot while a virtual-cpu task is
   queued, at most one not-full any-cpu worker per waiting task while anything is queued, and no empty
   any-cpu worker while a real-cpu task waits.
   */
  lemma {:induction false} WorkConservation(s: State, m: M.Manager, rnd: Generator, large: nat)
    requires Inv(s) && Agrees(m, s.workers) && Roomy(s, large)
    ensures Conserved(Schedule(s, m, rnd).1)
    decreases |Unattached(s)|
  {
    var (next, s') := ScheduleOnce(s, m, rnd);
    ScheduleOnceConserves(s, m, rnd, large);
    if next.Some? { WorkConservation(s', m, rnd, large); }
  }
}

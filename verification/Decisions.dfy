/**
 Which task goes to which worker (prioritizing.py:598-681), told from the records of the workers and the queued
 tasks, for one decision and for all decisions of a call of `schedule`.
 */
module Decisions {
  import opened Types
  import opened SortedSets
  import Matching
  import opened TaskQueues
  import M = ManagerModel
  import opened Blocking
  import opened SchedulerState
  import opened SchedulerInvariant
  import opened WorkerChoice
  import opened Scheduling
  import opened SchedulerProperties
  import opened SchedulerRuns

  // ----- workers

  /** Of two workers that suit a task equally, the one that is asked first. */
  predicate Earlier(cpu: bool, a: Worker, b: Worker) {
    var left, left' := a.totalRam - a.usedRam, b.totalRam - b.usedRam;
    if cpu && (a.running == 0) != (b.running == 0) then a.running == 0
    else if cpu && left != left' then left < left'
    else a.id.rank < b.id.rank
  }

  /** Of the workers with or without `cpu` that can take the task, `w` is the best, and the first of the best. */
  ghost predicate IsBest(ws: Workers, cpu: bool, w: WorkerId, ram: nat, preferBusy: bool) {
    && w in ws && ws[w].cpuEnabled == cpu && Takes(ws[w], ram)
    && forall k | k in ws && k != w && ws[k].cpuEnabled == cpu && Takes(ws[k], ram) ::
         Better(ws[w], ws[k], ram, preferBusy)
         || (!Better(ws[k], ws[w], ram, preferBusy) && Earlier(cpu, ws[w], ws[k]))
  }

  ghost predicate SomeTakes(ws: Workers, cpu: bool, ram: nat) {
    exists k :: k in ws && ws[k].cpuEnabled == cpu && Takes(ws[k], ram)
  }

  ghost predicate SomeEmpty(ws: Workers, ram: nat) {
    exists k :: k in ws && Empty(ws[k], ram)
  }

  function KindOf(cpu: bool): Kind { if cpu then AnyCpuKind else VcpuOnlyKind }

  lemma KeyIsEarlier(cpu: bool, a: Worker, b: Worker)
    requires Less(WorkerKey(KindOf(cpu), a), WorkerKey(KindOf(cpu), b))
    ensures Earlier(cpu, a, b)
  {
  }

  lemma FirstBestIsBest(ws: Workers, cpu: bool, q: seq<WorkerId>, ram: nat, preferBusy: bool, k: nat)
    requires IndexOk(KindOf(cpu), ws, q) && k < |q| && forall i | 0 <= i < |q| :: q[i] in ws
    requires IsFirstBest(q, ws, ram, preferBusy, k)
    ensures IsBest(ws, cpu, q[k], ram, preferBusy)
  {
    var keys := QueueKeys(KindOf(cpu), ws, q);
    assert q[k] in q;
    forall id | id in ws && id != q[k] && ws[id].cpuEnabled == cpu && Takes(ws[id], ram)
      ensures Better(ws[q[k]], ws[id], ram, preferBusy)
              || (!Better(ws[id], ws[q[k]], ram, preferBusy) && Earlier(cpu, ws[q[k]], ws[id]))
    {
      assert id in q;
      var i :| 0 <= i < |q| && q[i] == id;
      if k < i {
        assert Less(keys[k], keys[i]);
        KeyIsEarlier(cpu, ws[q[k]], ws[id]);
      }
    }
  }

  lemma VirtualChoice(ws: Workers, cpu: bool, q: seq<WorkerId>, ram: nat, preferBusy: bool)
    requires IndexOk(KindOf(cpu), ws, q) && forall i | 0 <= i < |q| :: q[i] in ws
    ensures var r := BestVirtual(q, ws, ram, preferBusy);
            if SomeTakes(ws, cpu, ram) then r.Some? && IsBest(ws, cpu, r.value, ram, preferBusy) else r.None?
  {
    BestVirtualIsMaximal(q, ws, ram, preferBusy);
    var r := BestVirtual(q, ws, ram, preferBusy);
    if r.Some? {
      var k :| 0 <= k < |q| && q[k] == r.value && IsFirstBest(q, ws, ram, preferBusy, k);
      FirstBestIsBest(ws, cpu, q, ram, preferBusy, k);
    } else {
      forall id | id in ws && ws[id].cpuEnabled == cpu ensures !Takes(ws[id], ram) {
        if id in q { var i :| 0 <= i < |q| && q[i] == id; }
      }
    }
  }

  // ----- one decision

  /** The virtual-cpu task that the first phase considers. */
  function FirstTask(s: State, rnd: Generator): Task
    requires CanChoose(s.virtualQ, s.contests)
  {
    ChooseTask(s.virtualQ, s.contests, rnd(s.draws))
  }

  /** The task that the third phase considers: the number is the next one, if the first phase used one. */
  function ThirdTask(s: State, rnd: Generator): Task
    requires CanChoose(s.bothQ, s.contests)
  {
    ChooseTask(s.bothQ, s.contests, rnd(if s.virtualQ == [] then s.draws else s.draws + 1))
  }

  /** The queues can be chosen from, and the waiting tasks are known. */
  ghost predicate Ready(s: State) {
    && (s.virtualQ == [] || CanChoose(s.virtualQ, s.contests))
    && (s.bothQ == [] || CanChoose(s.bothQ, s.contests))
  }

  /** A vcpu-only worker can take the virtual-cpu task that is considered first. */
  ghost predicate FirstActs(s: State, rnd: Generator)
    requires Ready(s)
  {
    s.virtualQ != [] && SomeTakes(s.workers, false, FirstTask(s, rnd).ram)
  }

  /** An empty any-cpu worker can take the real-cpu task that has waited longest. */
  ghost predicate SecondActs(s: State) {
    s.waiting != [] && SomeEmpty(s.workers, s.waiting[0].ram)
  }

  /** The any-cpu workers that are not full. */
  ghost function NotFull(ws: Workers): set<WorkerId> {
    set id | id in ws && ws[id].cpuEnabled && !ws[id].realBusy && ws[id].running < ws[id].concurrency
  }

  ghost predicate ThirdOpen(s: State, m: M.Manager) {
    |NotFull(s.workers)| > Blocked(m, s.waitingRam) && s.bothQ != []
  }

  /** The third phase: what is done with task `t` of either kind. */
  ghost predicate Placed(ws: Workers, t: Task, mv: Move) {
    if t.realCpu then
      if SomeEmpty(ws, t.ram) then mv.RealToAny? && mv.t == t && IsLeastEmpty(ws, mv.w, t.ram) else mv == Reserve(t)
    else
      if SomeTakes(ws, true, t.ram) then mv.VirtualToAny? && mv.t == t && IsBest(ws, true, mv.w, t.ram, true)
      else mv == Idle
  }

  /** What `_scheduleOnce` is to do next. */
  ghost predicate Right(s: State, m: M.Manager, rnd: Generator, mv: Move)
    requires Ready(s)
  {
    if FirstActs(s, rnd) then
      && mv.VirtualToVcpuOnly? && mv.t == FirstTask(s, rnd)
      && IsBest(s.workers, false, mv.w, mv.t.ram, false)
    else if SecondActs(s) then
      && mv.WaitingToAny? && mv.t == s.waiting[0]
      && IsLeastEmpty(s.workers, mv.w, mv.t.ram)
    else if ThirdOpen(s, m) then
      Placed(s.workers, ThirdTask(s, rnd), mv)
    else
      mv == Idle
  }

  lemma IsReady(s: State)
    requires Inv(s)
    ensures Ready(s) && WorkersOk(s.workers)
    ensures IndexOk(AnyCpuKind, s.workers, s.anyCpu) && IndexOk(VcpuOnlyKind, s.workers, s.vcpuOnly)
  {
  }

  lemma FirstPhaseRight(s: State, rnd: Generator)
    requires Inv(s)
    ensures Ready(s)
    ensures var mv := PhaseOne(s, rnd);
            if FirstActs(s, rnd) then mv.VirtualToVcpuOnly? && mv.t == FirstTask(s, rnd)
                                      && IsBest(s.workers, false, mv.w, mv.t.ram, false)
            else mv == Idle
  {
    IsReady(s);
    QueueMembers(s);
    if s.virtualQ != [] { VirtualChoice(s.workers, false, s.vcpuOnly, FirstTask(s, rnd).ram, false); }
  }

  lemma SecondPhaseRight(s: State)
    requires Inv(s)
    ensures var mv := PhaseTwo(s);
            if SecondActs(s) then mv.WaitingToAny? && mv.t == s.waiting[0] && IsLeastEmpty(s.workers, mv.w, mv.t.ram)
            else mv == Idle
  {
    IsReady(s);
    QueueMembers(s);
    if s.waiting != [] { BestRealIsLeast(s.anyCpu, s.workers, s.waiting[0].ram); }
  }

  lemma PlaceRight(s: State, t: Task)
    requires Inv(s)
    ensures Placed(s.workers, t, PlaceOf(s, t))
  {
    IsReady(s);
    QueueMembers(s);
    BestRealIsLeast(s.anyCpu, s.workers, t.ram);
    VirtualChoice(s.workers, true, s.anyCpu, t.ram, true);
  }

  lemma NotFullIsQueue(ws: Workers, q: seq<WorkerId>)
    requires IndexOk(AnyCpuKind, ws, q) && forall id | id in ws :: ws[id].running <= ws[id].concurrency
    ensures |NotFull(ws)| == |q|
  {
    FreeWorkers(ws, q);
    forall id ensures id in NotFull(ws) <==> id in q {
      assert id in q <==> id in ws && ws[id].Queue() == Some(AnyCpuKind);
    }
    assert NotFull(ws) == Matching.Elements(q);
  }

  lemma ThirdOpenIs(s: State, m: M.Manager)
    requires Inv(s)
    ensures ThirdOpen(s, m) <==> PhaseThreeOpen(s, m)
  {
    IsReady(s);
    forall id | id in s.workers ensures s.workers[id].running <= s.workers[id].concurrency {
      assert WorkerLoad(s.workers[id], s.tasks, On(s.runsOn, id));
    }
    NotFullIsQueue(s.workers, s.anyCpu);
  }

  /** Every decision is the right one, and it uses one number of the generator for each choice among contests. */
  lemma DecideIsRight(s: State, m: M.Manager, rnd: Generator)
    requires Inv(s)
    ensures Ready(s) && Right(s, m, rnd, Decide(s, m, rnd))
    ensures Step(s, m, rnd).draws == s.draws + (if s.virtualQ == [] then 0 else 1)
                                     + (if !FirstActs(s, rnd) && !SecondActs(s) && ThirdOpen(s, m) then 1 else 0)
  {
    FirstPhaseRight(s, rnd);
    SecondPhaseRight(s);
    ThirdOpenIs(s, m);
    if PhaseThreeOpen(s, m) { PlaceRight(s, ThirdTask(s, rnd)); }
  }

  // ----- all decisions of a call of schedule

  /** `moves` are the right decisions, one after another, up to where nothing is left to be done. */
  ghost predicate AllRight(s: State, m: M.Manager, rnd: Generator, moves: seq<Move>, end: State)
    requires Inv(s)
    decreases |moves|
  {
    && Ready(s)
    && if moves == [] then Right(s, m, rnd, Idle) && end == Step(s, m, rnd)
       else
         && moves[0] != Idle && Right(s, m, rnd, moves[0])
         && AllRight(Step(s, m, rnd), m, rnd, moves[1..], end)
  }

  /** Each decision of the loop of `schedule` is the right one in the state that the earlier ones lead to. */
  lemma {:induction false} DrainIsRight(s: State, m: M.Manager, rnd: Generator)
    requires Inv(s)
    ensures AllRight(s, m, rnd, Drain(s, m, rnd).0, Drain(s, m, rnd).1)
    decreases |Unattached(s)|, Pending(s)
  {
    var mv, s' := Decide(s, m, rnd), Step(s, m, rnd);
    DecideIsRight(s, m, rnd);
    if mv == Idle {
      DrainIdle(s, m, rnd);
    } else {
      DrainUnfolds(s, m, rnd);
      StepDecreases(s, m, rnd);
      DrainIsRight(s', m, rnd);
      MoreRight(s, m, rnd, mv, Drain(s', m, rnd).0, Drain(s', m, rnd).1);
    }
  }

  lemma MoreRight(s: State, m: M.Manager, rnd: Generator, mv: Move, rest: seq<Move>, end: State)
    requires Inv(s) && Ready(s) && mv != Idle && Right(s, m, rnd, mv)
    requires AllRight(Step(s, m, rnd), m, rnd, rest, end)
    ensures AllRight(s, m, rnd, [mv] + rest, end)
  {
    assert ([mv] + rest)[1..] == rest;
  }

  // ----- the random generator

  predicate Agree(rnd: Generator, rnd': Generator, from: nat, to: nat) {
    forall i | from <= i < to :: rnd(i) == rnd'(i)
  }

  lemma StepUses(s: State, m: M.Manager, rnd: Generator, rnd': Generator)
    requires Inv(s) && Agree(rnd, rnd', s.draws, Step(s, m, rnd).draws)
    ensures s.draws <= Step(s, m, rnd).draws
    ensures Decide(s, m, rnd') == Decide(s, m, rnd) && Step(s, m, rnd') == Step(s, m, rnd)
  {
    assert PhaseOne(s, rnd') == PhaseOne(s, rnd);
  }

  lemma StepGrows(s: State, m: M.Manager, rnd: Generator)
    requires Inv(s)
    ensures s.draws <= Step(s, m, rnd).draws
  {
  }

  lemma {:induction false} DrawsGrow(s: State, m: M.Manager, rnd: Generator)
    requires Inv(s)
    ensures s.draws <= Step(s, m, rnd).draws <= Drain(s, m, rnd).1.draws
    decreases |Unattached(s)|, Pending(s)
  {
    StepDecreases(s, m, rnd);
    StepGrows(s, m, rnd);
    if Decide(s, m, rnd) == Idle {
      DrainIdle(s, m, rnd);
    } else {
      DrainUnfolds(s, m, rnd);
      DrawsGrow(Step(s, m, rnd), m, rnd);
    }
  }

  lemma {:induction false} DrainUses(s: State, m: M.Manager, rnd: Generator, rnd': Generator)
    requires Inv(s) && Agree(rnd, rnd', s.draws, Drain(s, m, rnd).1.draws)
    ensures Drain(s, m, rnd') == Drain(s, m, rnd)
    decreases |Unattached(s)|, Pending(s)
  {
    DrawsGrow(s, m, rnd);
    StepUses(s, m, rnd, rnd');
    StepDecreases(s, m, rnd);
    if Decide(s, m, rnd) == Idle {
      DrainIdle(s, m, rnd);
      DrainIdle(s, m, rnd');
    } else {
      DrainUnfolds(s, m, rnd);
      DrainUnfolds(s, m, rnd');
      DrainUses(Step(s, m, rnd), m, rnd, rnd');
    }
  }

  lemma AfterUses(s: State, e: Event, rnd: Generator, rnd': Generator)
    requires Inv(s) && Enabled(s, e) && Agree(rnd, rnd', s.draws, After(s, e, rnd).draws)
    ensures s.draws <= After(s, e, rnd).draws
    ensures After(s, e, rnd') == After(s, e, rnd) && Logged(s, e, rnd') == Logged(s, e, rnd)
  {
    if e.Dispatch? {
      DrawsGrow(s, e.m, rnd);
      DrainUses(s, e.m, rnd, rnd');
    } else {
      OthersDrawNothing(s, e, rnd);
    }
  }

  lemma DelKeeps(s: State, x: TaskId)
    requires x in s.tasks
    requires x in s.runsOn ==>
               s.runsOn[x] in s.workers && s.workers[s.runsOn[x]].CanDetach(s.tasks[x]) && s.tasks[x].id == x
    ensures DelTask(s, x).draws == s.draws && DelTask(s, x).contests == s.contests
  {
    var rest, t := s.(tasks := s.tasks - {x}), s.tasks[x];
    if x in s.runsOn {
      assert DetachTask(rest, t).draws == s.draws && DetachTask(rest, t).contests == s.contests;
    } else if t in s.waiting {
      assert RemoveWaiting(rest, t).draws == s.draws && RemoveWaiting(rest, t).contests == s.contests;
    } else {
      assert RemoveTaskFromQueues(rest, t).draws == s.draws && RemoveTaskFromQueues(rest, t).contests == s.contests;
    }
  }

  lemma WorkersKeep(s: State, id: WorkerId, concurrency: nat, ram: nat, cpu: bool)
    ensures var s' := AddWorker(s, id, concurrency, ram, cpu); s'.draws == s.draws && s'.contests == s.contests
    ensures id in s.workers ==> DelWorker(s, id).draws == s.draws && DelWorker(s, id).contests == s.contests
  {
  }

  lemma FinishKeeps(s: State, x: TaskId)
    requires Inv(s) && x in s.tasks
    ensures x in s.runsOn ==>
              s.runsOn[x] in s.workers && s.workers[s.runsOn[x]].CanDetach(s.tasks[x]) && s.tasks[x].id == x
    ensures DelTask(s, x).draws == s.draws && DelTask(s, x).contests == s.contests
  {
    DelLeaves(s, x);
    assert s.tasks[x].id == x;
    DelKeeps(s, x);
  }

  lemma OthersDrawNothing(s: State, e: Event, rnd: Generator)
    requires Inv(s) && Enabled(s, e) && !e.Dispatch?
    ensures After(s, e, rnd).draws == s.draws
  {
    match e
    case Join(id, concurrency, ram, cpu) => WorkersKeep(s, id, concurrency, ram, cpu);
    case Leave(id) => WorkersKeep(s, id, 0, 0, false);
    case Finish(x) => FinishKeeps(s, x);
    case Contest(_, _, _) =>
    case Submit(_, _) =>
  }

  /** A run depends on the numbers that its choices have used, which are the first ones, and on no others. */
  lemma {:induction false} RunUses(es: seq<Event>, rnd: Generator, rnd': Generator)
    requires Agree(rnd, rnd', 0, Run(es, rnd).0.draws)
    ensures Run(es, rnd') == Run(es, rnd)
  {
    if es != [] {
      var n := |es| - 1;
      var s := Run(es[..n], rnd).0;
      if Enabled(s, es[n]) { DrawsOfAfter(s, es[n], rnd); }
      RunUses(es[..n], rnd, rnd');
      if Enabled(s, es[n]) { AfterUses(s, es[n], rnd, rnd'); }
    }
  }

  lemma DrawsOfAfter(s: State, e: Event, rnd: Generator)
    requires Inv(s) && Enabled(s, e)
    ensures s.draws <= After(s, e, rnd).draws
  {
    if e.Dispatch? { DrawsGrow(s, e.m, rnd); } else { OthersDrawNothing(s, e, rnd); }
  }

  // ----- the settings of contests

  function ContestsAfter(contests: Contests, e: Event): Contests {
    if e.Contest? then contests[e.c := TaskQueues.Contest(e.priority, e.weight)] else contests
  }

  lemma AfterContests(s: State, e: Event, rnd: Generator)
    requires Inv(s) && Enabled(s, e)
    ensures After(s, e, rnd).contests == ContestsAfter(s.contests, e)
  {
    match e
    case Join(id, concurrency, ram, cpu) => WorkersKeep(s, id, concurrency, ram, cpu);
    case Leave(id) => WorkersKeep(s, id, 0, 0, false);
    case Finish(x) => FinishKeeps(s, x);
    case Dispatch(m) => DrainLaunches(s, m, rnd);
    case Contest(_, _, _) =>
    case Submit(_, _) =>
  }

  /** The last update of a contest that was allowed. */
  function LastUpdate(es: seq<Event>, c: ContestId): (e: Option<Event>)
    ensures e.Some? ==> e.value.Contest? && e.value.c == c && e.value.weight >= 1
  {
    if es == [] then None
    else
      var e := es[|es| - 1];
      if e.Contest? && e.c == c && e.weight >= 1 then Some(e) else LastUpdate(es[..|es| - 1], c)
  }

  ghost predicate IsUpdated(contests: Contests, c: ContestId, e: Option<Event>) {
    if e.Some? && e.value.Contest? then
      c in contests && contests[c].priority == e.value.priority && contests[c].weight == e.value.weight
    else c !in contests
  }

  lemma UpdatedStep(contests: Contests, contests': Contests, c: ContestId, es: seq<Event>, happened: bool)
    requires es != [] && IsUpdated(contests, c, LastUpdate(es[..|es| - 1], c))
    requires es[|es| - 1].Contest? ==> happened == (es[|es| - 1].weight >= 1)
    requires contests' == if happened then ContestsAfter(contests, es[|es| - 1]) else contests
    ensures IsUpdated(contests', c, LastUpdate(es, c))
  {
  }

  /** In every reachable state a contest has the priority and weight of its last update, and there are no others. */
  lemma {:induction false} ContestsAreUpdated(es: seq<Event>, rnd: Generator, c: ContestId)
    ensures IsUpdated(Run(es, rnd).0.contests, c, LastUpdate(es, c))
  {
    if es != [] {
      var n := |es| - 1;
      var s := Run(es[..n], rnd).0;
      ContestsAreUpdated(es[..n], rnd, c);
      if Enabled(s, es[n]) { AfterContests(s, es[n], rnd); }
      UpdatedStep(s.contests, Run(es, rnd).0.contests, c, es, Enabled(s, es[n]));
    }
  }
}

/**
 One scheduling decision and the two loops around it (`_scheduleOnce` and `schedule`,
 prioritizing.py:598-693). `rnd` gives the numbers the random generator produces, in order; nothing is
 assumed about them.
 */
module Scheduling {
  import opened Types
  import opened SortedSets
  import opened Matching
  import opened TaskQueues
  import M = ManagerModel
  import opened Blocking
  import opened SchedulerState
  import opened SchedulerInvariant
  import opened WorkerChoice

  datatype Move =
    | VirtualToVcpuOnly(t: Task, w: WorkerId)
    | WaitingToAny(t: Task, w: WorkerId)
    | VirtualToAny(t: Task, w: WorkerId)
    | RealToAny(t: Task, w: WorkerId)
    | Reserve(t: Task)
    | Idle
  {
    predicate Attaches() { !Reserve? && !Idle? }
  }

  type Generator = nat -> nat

  lemma QueueMembers(s: State)
    requires Inv(s)
    ensures forall i | 0 <= i < |s.anyCpu| ::
              s.anyCpu[i] in s.workers && s.workers[s.anyCpu[i]].Queue() == Some(AnyCpuKind)
    ensures forall i | 0 <= i < |s.vcpuOnly| ::
              s.vcpuOnly[i] in s.workers && s.workers[s.vcpuOnly[i]].Queue() == Some(VcpuOnlyKind)
  {
    forall i | 0 <= i < |s.anyCpu| ensures s.anyCpu[i] in s.workers { assert s.anyCpu[i] in s.anyCpu; }
    forall i | 0 <= i < |s.vcpuOnly| ensures s.vcpuOnly[i] in s.workers { assert s.vcpuOnly[i] in s.vcpuOnly; }
    assert forall i | 0 <= i < |s.anyCpu| :: s.anyCpu[i] in s.anyCpu;
    assert forall i | 0 <= i < |s.vcpuOnly| :: s.vcpuOnly[i] in s.vcpuOnly;
  }

  /** First phase: a virtual-cpu task and a vcpu-only worker. */
  function PhaseOne(s: State, rnd: Generator): Move
    requires Inv(s)
  {
    if s.virtualQ == [] then Idle
    else
      var t := ChooseTask(s.virtualQ, s.contests, rnd(s.draws));
      QueueMembers(s);
      match BestVirtual(s.vcpuOnly, s.workers, t.ram, false)
      case None => Idle
      case Some(w) => VirtualToVcpuOnly(t, w)
  }

  function DrawsAfterOne(s: State): nat {
    if s.virtualQ == [] then s.draws else s.draws + 1
  }

  /** Second phase: the longest waiting real-cpu task. */
  function PhaseTwo(s: State): Move
    requires Inv(s)
  {
    if s.waiting == [] then Idle
    else
      QueueMembers(s);
      match BestReal(s.anyCpu, s.workers, s.waiting[0].ram)
      case None => Idle
      case Some(w) => WaitingToAny(s.waiting[0], w)
  }

  predicate PhaseThreeOpen(s: State, m: M.Manager) {
    |s.anyCpu| > Blocked(m, s.waitingRam) && s.bothQ != []
  }

  /** Third phase: any task, on the any-cpu workers that are not blocked. */
  function PhaseThree(s: State, raw: nat): Move
    requires Inv(s) && s.bothQ != []
  {
    PlaceOf(s, ChooseTask(s.bothQ, s.contests, raw))
  }

  /** What is to be done with a task chosen in the third phase. */
  function PlaceOf(s: State, t: Task): Move
    requires Inv(s)
  {
    QueueMembers(s);
    if t.realCpu then
      match BestReal(s.anyCpu, s.workers, t.ram)
      case None => Reserve(t)
      case Some(w) => RealToAny(t, w)
    else
      match BestVirtual(s.anyCpu, s.workers, t.ram, true)
      case None => Idle
      case Some(w) => VirtualToAny(t, w)
  }

  function Decide(s: State, m: M.Manager, rnd: Generator): Move
    requires Inv(s)
  {
    if PhaseOne(s, rnd) != Idle then PhaseOne(s, rnd)
    else if PhaseTwo(s) != Idle then PhaseTwo(s)
    else if PhaseThreeOpen(s, m) then PhaseThree(s, rnd(DrawsAfterOne(s)))
    else Idle
  }

  function DrawsAfter(s: State, m: M.Manager, rnd: Generator): nat
    requires Inv(s)
  {
    if PhaseOne(s, rnd) == Idle && PhaseTwo(s) == Idle && PhaseThreeOpen(s, m)
    then DrawsAfterOne(s) + 1 else DrawsAfterOne(s)
  }

  /** What a decision may be in state `s`. */
  ghost predicate Legal(s: State, mv: Move) {
    match mv
    case VirtualToVcpuOnly(t, w) =>
      t in Content(s.bothQ) && !t.realCpu && w in s.vcpuOnly && w in s.workers && s.workers[w].CanAttach(t)
    case WaitingToAny(t, w) =>
      s.waiting != [] && t == s.waiting[0] && w in s.anyCpu && w in s.workers && s.workers[w].CanAttach(t)
    case VirtualToAny(t, w) =>
      t in Content(s.bothQ) && !t.realCpu && w in s.anyCpu && w in s.workers && s.workers[w].CanAttach(t)
    case RealToAny(t, w) =>
      t in Content(s.bothQ) && t.realCpu && w in s.anyCpu && w in s.workers && s.workers[w].CanAttach(t)
    case Reserve(t) => t in Content(s.bothQ) && t.realCpu
    case Idle => true
  }

  function Apply(s: State, mv: Move): State
    requires mv.Attaches() ==> mv.w in s.workers
    requires mv.WaitingToAny? ==> s.waiting != []
  {
    match mv
    case VirtualToVcpuOnly(t, w) => AttachTaskToWorker(RemoveTaskFromQueues(s, t), t, w)
    case WaitingToAny(t, w) => AttachTaskToWorker(PopWaiting(s), t, w)
    case VirtualToAny(t, w) => AttachTaskToWorker(RemoveTaskFromQueues(s, t), t, w)
    case RealToAny(t, w) => AttachTaskToWorker(RemoveTaskFromQueues(s, t), t, w)
    case Reserve(t) => AddWaiting(RemoveTaskFromQueues(s, t), t)
    case Idle => s
  }

  lemma QueuedWorker(s: State, w: WorkerId, kind: Kind)
    requires Inv(s) && (w in s.anyCpu || w in s.vcpuOnly)
    ensures w in s.workers && s.workers[w].Slots() > 0 && !s.workers[w].realBusy
    ensures w in s.anyCpu ==> s.workers[w].cpuEnabled
  {
    assert WorkerLoad(s.workers[w], s.tasks, On(s.runsOn, w));
  }

  lemma VirtualQueueHolds(s: State)
    requires Inv(s)
    ensures Content(s.virtualQ) == VirtualTasks(Content(s.bothQ))
  {
  }

  lemma PhaseOneIsLegal(s: State, rnd: Generator)
    requires Inv(s)
    ensures Legal(s, PhaseOne(s, rnd))
  {
    var mv := PhaseOne(s, rnd);
    if mv != Idle {
      ChosenIsFirst(s.virtualQ, s.contests, rnd(s.draws));
      VirtualQueueHolds(s);
      QueuedWorker(s, mv.w, VcpuOnlyKind);
    }
  }

  lemma PhaseTwoIsLegal(s: State)
    requires Inv(s)
    ensures Legal(s, PhaseTwo(s))
  {
    var mv := PhaseTwo(s);
    if mv != Idle {
      assert s.waiting[0] in s.waiting;
      QueuedWorker(s, mv.w, AnyCpuKind);
    }
  }

  lemma PlaceIsLegal(s: State, t: Task)
    requires Inv(s) && t in Content(s.bothQ)
    ensures Legal(s, PlaceOf(s, t))
  {
    var mv := PlaceOf(s, t);
    if mv.Attaches() { QueuedWorker(s, mv.w, AnyCpuKind); }
  }

  lemma PhaseThreeIsLegal(s: State, raw: nat)
    requires Inv(s) && s.bothQ != []
    ensures Legal(s, PhaseThree(s, raw))
  {
    ChosenIsFirst(s.bothQ, s.contests, raw);
    PlaceIsLegal(s, ChooseTask(s.bothQ, s.contests, raw));
  }

  lemma DecideIsLegal(s: State, m: M.Manager, rnd: Generator)
    requires Inv(s)
    ensures Legal(s, Decide(s, m, rnd))
  {
    PhaseOneIsLegal(s, rnd);
    PhaseTwoIsLegal(s);
    if PhaseThreeOpen(s, m) { PhaseThreeIsLegal(s, rnd(DrawsAfterOne(s))); }
  }

  lemma ApplyInv(s: State, mv: Move)
    requires Inv(s) && Legal(s, mv)
    ensures Inv(Apply(s, mv))
  {
    match mv
    case WaitingToAny(t, w) => AttachWaitingInv(s, w);
    case Reserve(t) => ReserveInv(s, t);
    case Idle =>
    case VirtualToVcpuOnly(t, w) => AttachQueuedInv(s, t, w);
    case VirtualToAny(t, w) => AttachQueuedInv(s, t, w);
    case RealToAny(t, w) => AttachQueuedInv(s, t, w);
  }

  /** The state after one decision. */
  function Step(s: State, m: M.Manager, rnd: Generator): (s': State)
    requires Inv(s)
    ensures Inv(s')
  {
    DecideIsLegal(s, m, rnd);
    ApplyInv(s, Decide(s, m, rnd));
    Apply(s, Decide(s, m, rnd)).(draws := DrawsAfter(s, m, rnd))
  }

  lemma ApplyIdle(s: State)
    ensures Apply(s, Idle) == s
  {
  }

  lemma IdleStep(s: State, m: M.Manager, rnd: Generator)
    requires Inv(s) && Decide(s, m, rnd) == Idle
    ensures Step(s, m, rnd) == s.(draws := DrawsAfter(s, m, rnd))
  {
    ApplyIdle(s);
    assert Apply(s, Decide(s, m, rnd)) == s;
  }

  // ----- termination

  ghost function Unattached(s: State): set<TaskId> {
    s.tasks.Keys - s.runsOn.Keys
  }

  /** Tasks that are neither attached nor waiting. */
  ghost function Pending(s: State): int {
    |Unattached(s)| - |s.waiting|
  }

  function IdsOfTasks(ts: seq<Task>): (r: seq<TaskId>)
    ensures |r| == |ts| && forall i | 0 <= i < |ts| :: r[i] == ts[i].id
  {
    seq(|ts|, i requires 0 <= i < |ts| => ts[i].id)
  }

  lemma PendingNat(s: State)
    requires Inv(s)
    ensures Pending(s) >= 0
  {
    var ids := IdsOfTasks(s.waiting);
    forall i | 0 <= i < |ids| ensures ids[i] in Unattached(s) && s.tasks[ids[i]] == s.waiting[i] {
      assert s.waiting[i] in s.waiting;
    }
    assert Distinct(ids);
    DistinctCardinality(ids);
    assert Unattached(s) == Elements(ids) + (Unattached(s) - Elements(ids));
  }

  /** Attaching touches only the worker, its queue and the task's own entry. */
  lemma AttachEffect(s: State, t: Task, id: WorkerId)
    requires id in s.workers
    ensures var s' := AttachTaskToWorker(s, t, id);
            s' == s.(runsOn := s.runsOn[t.id := id], workers := s.workers[id := s.workers[id].Attach(t)],
                     anyCpu := s'.anyCpu, vcpuOnly := s'.vcpuOnly)
  {
    ChangeWorkerIs(s.(runsOn := s.runsOn[t.id := id]), id, s.workers[id].Attach(t));
  }

  function WaitingAfter(s: State, mv: Move): seq<Task>
    requires mv.WaitingToAny? ==> s.waiting != []
  {
    if mv.WaitingToAny? then s.waiting[1..] else if mv.Reserve? then s.waiting + [mv.t] else s.waiting
  }

  function WorkersAfter(s: State, mv: Move): Workers
    requires mv.Attaches() ==> mv.w in s.workers
  {
    if mv.Attaches() then s.workers[mv.w := s.workers[mv.w].Attach(mv.t)] else s.workers
  }

  /** What a decision changes: one attached task, one worker, at most one end of the waiting queue. */
  lemma ApplyEffect(s: State, mv: Move)
    requires mv.Attaches() ==> mv.w in s.workers
    requires mv.WaitingToAny? ==> s.waiting != []
    ensures var s' := Apply(s, mv);
            && s'.tasks == s.tasks && s'.contests == s.contests && s'.lastSequence == s.lastSequence
            && s'.workers == WorkersAfter(s, mv)
            && s'.runsOn == (if mv.Attaches() then s.runsOn[mv.t.id := mv.w] else s.runsOn)
            && s'.waiting == WaitingAfter(s, mv)
  {
    match mv
    case WaitingToAny(t, w) => AttachEffect(PopWaiting(s), t, w);
    case Reserve(t) =>
    case Idle =>
    case VirtualToVcpuOnly(t, w) => AttachEffect(RemoveTaskFromQueues(s, t), t, w);
    case VirtualToAny(t, w) => AttachEffect(RemoveTaskFromQueues(s, t), t, w);
    case RealToAny(t, w) => AttachEffect(RemoveTaskFromQueues(s, t), t, w);
  }

  /** A legal decision concerns a known task that is not attached to any worker yet. */
  lemma LegalTask(s: State, mv: Move)
    requires Inv(s) && Legal(s, mv) && mv != Idle
    ensures mv.t.id in s.tasks && mv.t.id !in s.runsOn && s.tasks[mv.t.id] == mv.t
    ensures mv.Reserve? ==> mv.t !in s.waiting
  {
    if mv.WaitingToAny? { assert s.waiting[0] in s.waiting; }
  }

  lemma ApplyDecreases(s: State, mv: Move)
    requires Inv(s) && Legal(s, mv) && mv != Idle
    ensures mv.Attaches() ==> |Unattached(Apply(s, mv))| < |Unattached(s)|
    ensures mv.Reserve? ==> |Unattached(Apply(s, mv))| == |Unattached(s)| && Pending(Apply(s, mv)) < Pending(s)
  {
    LegalTask(s, mv);
    var s' := Apply(s, mv);
    assert s'.tasks == s.tasks && s'.runsOn == (if mv.Attaches() then s.runsOn[mv.t.id := mv.w] else s.runsOn)
           && |s'.waiting| == |WaitingAfter(s, mv)| by { ApplyEffect(s, mv); }
    if mv.Attaches() { AttachShrinks(s.tasks.Keys, s.runsOn, mv.t.id, mv.w); }
  }

  lemma AttachShrinks(known: set<TaskId>, runsOn: map<TaskId, WorkerId>, x: TaskId, w: WorkerId)
    requires x in known && x !in runsOn
    ensures |known - runsOn[x := w].Keys| < |known - runsOn.Keys|
  {
    assert known - runsOn[x := w].Keys == known - runsOn.Keys - {x};
  }

  /** Every decision makes the scheduler's measure smaller. */
  lemma StepDecreases(s: State, m: M.Manager, rnd: Generator)
    requires Inv(s)
    ensures Pending(s) >= 0
    ensures var mv, s' := Decide(s, m, rnd), Step(s, m, rnd);
            && (mv.Attaches() ==> |Unattached(s')| < |Unattached(s)|)
            && (!mv.Attaches() ==> |Unattached(s')| == |Unattached(s)|)
            && (mv.Reserve? ==> 0 <= Pending(s') < Pending(s))
  {
    PendingNat(s);
    PendingNat(Step(s, m, rnd));
    DecideIsLegal(s, m, rnd);
    if Decide(s, m, rnd) != Idle { ApplyDecreases(s, Decide(s, m, rnd)); }
  }

  // ----- _scheduleOnce and schedule

  type Association = (TaskId, WorkerId)

  /** What a decision hands out. */
  function Handed(mv: Move): Option<Association> {
    if mv.Attaches() then Some((mv.t.id, mv.w)) else None
  }

  function ScheduleOnce(s: State, m: M.Manager, rnd: Generator): (r: (Option<Association>, State))
    requires Inv(s)
    ensures Inv(r.1)
    ensures r.0.Some? ==> |Unattached(r.1)| < |Unattached(s)|
    ensures r.0.None? ==> |Unattached(r.1)| == |Unattached(s)|
    decreases Pending(s)
  {
    StepDecreases(s, m, rnd);
    var mv, s' := Decide(s, m, rnd), Step(s, m, rnd);
    if mv.Reserve? then ScheduleOnce(s', m, rnd) else (Handed(mv), s')
  }

  lemma OnceReserves(s: State, m: M.Manager, rnd: Generator)
    requires Inv(s) && Decide(s, m, rnd).Reserve?
    ensures ScheduleOnce(s, m, rnd) == ScheduleOnce(Step(s, m, rnd), m, rnd)
  {
  }

  lemma OnceEnds(s: State, m: M.Manager, rnd: Generator)
    requires Inv(s) && !Decide(s, m, rnd).Reserve?
    ensures ScheduleOnce(s, m, rnd) == (Handed(Decide(s, m, rnd)), Step(s, m, rnd))
  {
  }

  function Schedule(s: State, m: M.Manager, rnd: Generator): (r: (seq<Association>, State))
    requires Inv(s)
    ensures Inv(r.1)
    decreases |Unattached(s)|
  {
    var (next, s') := ScheduleOnce(s, m, rnd);
    if next.None? then ([], s')
    else
      var (rest, s'') := Schedule(s', m, rnd);
      ([next.value] + rest, s'')
  }

  // ----- facts about a state that keeps the invariant, kept closed

  /**
   Always true, and no property of anything. The definitions below quantify over it, and mentioning it is what
   makes the verifier unfold them: whoever only passes such a fact on does not mention it, and so does not have
   to reason about the invariant.
   */
  predicate UnfoldKey(n: nat) { n >= 0 }

  /** The next decision is `mv`, and it leads to `s'`. */
  ghost predicate Decides(s: State, m: M.Manager, rnd: Generator, mv: Move, s': State) {
    forall n: nat :: UnfoldKey(n) ==> Inv(s) && Decide(s, m, rnd) == mv && Step(s, m, rnd) == s'
  }

  /** `_scheduleOnce` returns `next` and leaves `s'` behind. */
  ghost predicate SchedulesOnce(s: State, m: M.Manager, rnd: Generator, next: Option<Association>, s': State) {
    forall n: nat :: UnfoldKey(n) ==> Inv(s) && ScheduleOnce(s, m, rnd) == (next, s')
  }

  /** `schedule` returns `jobs` and leaves `s'` behind. */
  ghost predicate Schedules(s: State, m: M.Manager, rnd: Generator, jobs: seq<Association>, s': State) {
    forall n: nat :: UnfoldKey(n) ==> Inv(s) && Schedule(s, m, rnd) == (jobs, s')
  }

  lemma ToDecide(s: State, m: M.Manager, rnd: Generator, mv: Move, s': State)
    requires Decides(s, m, rnd, mv, s')
    ensures Inv(s) && Decide(s, m, rnd) == mv && Step(s, m, rnd) == s'
  {
    assert UnfoldKey(0);
  }

  /** One call of `_scheduleOnce` is one decision, followed by another call if that only reserved a task. */
  lemma OncePlan(s: State, m: M.Manager, rnd: Generator, next: Option<Association>, s': State)
    returns (mv: Move, s1: State)
    requires SchedulesOnce(s, m, rnd, next, s')
    ensures Decides(s, m, rnd, mv, s1) && Pending(s) >= 0
    ensures if mv.Reserve? then SchedulesOnce(s1, m, rnd, next, s') && 0 <= Pending(s1) < Pending(s)
            else next == Handed(mv) && s' == s1
  {
    assert UnfoldKey(0);
    mv, s1 := Decide(s, m, rnd), Step(s, m, rnd);
    StepDecreases(s, m, rnd);
    if mv.Reserve? { OnceReserves(s, m, rnd); } else { OnceEnds(s, m, rnd); }
  }

  /** The loop of `schedule`: it ends with the first call of `_scheduleOnce` that returns nothing. */
  lemma SchedulePlan(s: State, m: M.Manager, rnd: Generator, jobs: seq<Association>, s': State)
    returns (next: Option<Association>, s1: State)
    requires Schedules(s, m, rnd, jobs, s')
    ensures SchedulesOnce(s, m, rnd, next, s1)
    ensures if next.None? then jobs == [] && s' == s1
            else jobs != [] && jobs[0] == next.value && Schedules(s1, m, rnd, jobs[1..], s')
                 && |Unattached(s1)| < |Unattached(s)|
  {
    assert UnfoldKey(0);
    next, s1 := ScheduleOnce(s, m, rnd).0, ScheduleOnce(s, m, rnd).1;
    if next.Some? { assert jobs == [next.value] + Schedule(s1, m, rnd).0; }
  }
}

/** Whole runs of the scheduler: what holds in every reachable state, and in which order tasks start. */
module SchedulerRuns {
  import opened Types
  import opened SortedSets
  import opened TaskQueues
  import M = ManagerModel
  import opened SchedulerState
  import opened SchedulerInvariant
  import opened Scheduling
  import opened SchedulerProperties

  // ----- the two nested loops, as one sequence of decisions

  function Drain(s: State, m: M.Manager, rnd: Generator): (r: (seq<Move>, State))
    requires Inv(s)
    ensures Inv(r.1)
    decreases |Unattached(s)|, Pending(s)
  {
    DecideIsLegal(s, m, rnd);
    PendingNat(s);
    var mv := Decide(s, m, rnd);
    var s' := Step(s, m, rnd);
    if mv == Idle then ([], s')
    else
      ApplyDecreases(s, mv);
      var (rest, end) := Drain(s', m, rnd);
      ([mv] + rest, end)
  }

  lemma DrainUnfolds(s: State, m: M.Manager, rnd: Generator)
    requires Inv(s) && Decide(s, m, rnd) != Idle
    ensures var mv, s' := Decide(s, m, rnd), Step(s, m, rnd);
            Inv(s') && Drain(s, m, rnd) == ([mv] + Drain(s', m, rnd).0, Drain(s', m, rnd).1)
  {
    DecideIsLegal(s, m, rnd);
  }

  lemma DrainIdle(s: State, m: M.Manager, rnd: Generator)
    requires Inv(s) && Decide(s, m, rnd) == Idle
    ensures Drain(s, m, rnd) == ([], Step(s, m, rnd))
  {
  }

  function Associations(moves: seq<Move>): seq<Association> {
    if moves == [] then []
    else if moves[0].Attaches() then [(moves[0].t.id, moves[0].w)] + Associations(moves[1..])
    else Associations(moves[1..])
  }

  lemma AssociationsOf(mv: Move, rest: seq<Move>)
    ensures Associations([mv]) == if mv.Attaches() then [(mv.t.id, mv.w)] else []
    ensures Associations([mv] + rest) == Associations([mv]) + Associations(rest)
    ensures Associations([Idle]) == []
  {
    assert ([mv] + rest)[1..] == rest && [mv][1..] == [] && [Idle][1..] == [];
  }

  lemma {:induction false} ScheduleOnceThenDrain(s: State, m: M.Manager, rnd: Generator)
    requires Inv(s)
    ensures var (next, s') := ScheduleOnce(s, m, rnd);
            if next.None? then Associations(Drain(s, m, rnd).0) == [] && Drain(s, m, rnd).1 == s'
            else Associations(Drain(s, m, rnd).0) == [next.value] + Associations(Drain(s', m, rnd).0)
                 && Drain(s, m, rnd).1 == Drain(s', m, rnd).1
    decreases |Unattached(s)|, Pending(s)
  {
    var mv, s1 := Decide(s, m, rnd), Step(s, m, rnd);
    if mv.Reserve? { OnceReserves(s, m, rnd); } else { OnceEnds(s, m, rnd); }
    if mv == Idle {
      DrainIdle(s, m, rnd);
    } else {
      DrainUnfolds(s, m, rnd);
      StepDecreases(s, m, rnd);
      AssociationsOf(mv, Drain(s1, m, rnd).0);
      if mv.Reserve? { ScheduleOnceThenDrain(s1, m, rnd); }
    }
  }

  /** `schedule` makes exactly the decisions of the single loop, and returns those that attach a task. */
  lemma {:induction false} ScheduleIsDrain(s: State, m: M.Manager, rnd: Generator)
    requires Inv(s)
    ensures Schedule(s, m, rnd) == (Associations(Drain(s, m, rnd).0), Drain(s, m, rnd).1)
    decreases |Unattached(s)|
  {
    var (next, s') := ScheduleOnce(s, m, rnd);
    ScheduleOnceThenDrain(s, m, rnd);
    if next.Some? { ScheduleIsDrain(s', m, rnd); }
  }

  // ----- what a call of schedule changes

  ghost function Extend(runsOn: map<TaskId, WorkerId>, pairs: seq<Association>): map<TaskId, WorkerId>
    decreases |pairs|
  {
    if pairs == [] then runsOn else Extend(runsOn[pairs[0].0 := pairs[0].1], pairs[1..])
  }

  ghost predicate Launches(s: State, pairs: seq<Association>, s': State) {
    && s'.tasks == s.tasks && s'.contests == s.contests && s'.lastSequence == s.lastSequence
    && SameWorkers(s.workers, s'.workers)
    && s'.runsOn == Extend(s.runsOn, pairs)
    && (forall i | 0 <= i < |pairs| :: pairs[i].0 in s.tasks && pairs[i].0 !in s.runsOn && pairs[i].1 in s.workers)
    && (forall i, j | 0 <= i < j < |pairs| :: pairs[i].0 != pairs[j].0)
  }

  /** What one decision changes, without the indexes. */
  ghost predicate Took(s: State, mv: Move, s': State) {
    && s'.tasks == s.tasks && s'.contests == s.contests && s'.lastSequence == s.lastSequence
    && SameWorkers(s.workers, s'.workers)
    && s'.runsOn == (if mv.Attaches() then s.runsOn[mv.t.id := mv.w] else s.runsOn)
    && (mv.Attaches() ==> mv.w in s.workers && mv.t.id in s.tasks && mv.t.id !in s.runsOn)
  }

  lemma StepTook(s: State, m: M.Manager, rnd: Generator)
    requires Inv(s)
    ensures Took(s, Decide(s, m, rnd), Step(s, m, rnd))
  {
    var mv := Decide(s, m, rnd);
    DecideIsLegal(s, m, rnd);
    ApplyEffect(s, mv);
    StepSame(s, m, rnd);
    if mv != Idle { LegalTask(s, mv); }
  }

  lemma TookLaunches(s: State, mv: Move, s': State)
    requires Took(s, mv, s')
    ensures Launches(s, Associations([mv]), s')
  {
    assert [mv][1..] == [];
    if mv.Attaches() {
      var p := (mv.t.id, mv.w);
      assert Associations([mv]) == [p] && [p][1..] == [];
    }
  }

  lemma {:induction false} ExtendMore(runsOn: map<TaskId, WorkerId>, a: seq<Association>, b: seq<Association>)
    ensures Extend(runsOn, a + b) == Extend(Extend(runsOn, a), b)
    decreases |a|
  {
    if a == [] {
      assert a + b == b;
    } else {
      assert (a + b)[1..] == a[1..] + b;
      ExtendMore(runsOn[a[0].0 := a[0].1], a[1..], b);
    }
  }

  lemma {:induction false} ExtendKeys(runsOn: map<TaskId, WorkerId>, pairs: seq<Association>)
    ensures forall i | 0 <= i < |pairs| :: pairs[i].0 in Extend(runsOn, pairs)
    ensures runsOn.Keys <= Extend(runsOn, pairs).Keys
    decreases |pairs|
  {
    if pairs != [] { ExtendKeys(runsOn[pairs[0].0 := pairs[0].1], pairs[1..]); }
  }

  lemma LaunchesCompose(s: State, a: seq<Association>, s1: State, b: seq<Association>, s2: State)
    requires Launches(s, a, s1) && Launches(s1, b, s2)
    ensures Launches(s, a + b, s2)
  {
    ExtendMore(s.runsOn, a, b);
    ExtendKeys(s.runsOn, a);
  }

  lemma {:induction false} DrainLaunches(s: State, m: M.Manager, rnd: Generator)
    requires Inv(s)
    ensures Launches(s, Associations(Drain(s, m, rnd).0), Drain(s, m, rnd).1)
    decreases |Unattached(s)|, Pending(s)
  {
    var mv, s' := Decide(s, m, rnd), Step(s, m, rnd);
    StepTook(s, m, rnd);
    TookLaunches(s, mv, s');
    if mv == Idle {
      DrainIdle(s, m, rnd);
      AssociationsOf(mv, []);
    } else {
      DrainUnfolds(s, m, rnd);
      StepDecreases(s, m, rnd);
      AssociationsOf(mv, Drain(s', m, rnd).0);
      DrainLaunches(s', m, rnd);
      LaunchesCompose(s, Associations([mv]), s', Associations(Drain(s', m, rnd).0), Drain(s', m, rnd).1);
    }
  }

  /**
   `schedule` returns distinct, previously unattached tasks; exactly these become attached, to the
   workers it names, and the set of known tasks does not change.
   */
  lemma ScheduleLaunches(s: State, m: M.Manager, rnd: Generator)
    requires Inv(s)
    ensures Launches(s, Schedule(s, m, rnd).0, Schedule(s, m, rnd).1)
  {
    ScheduleIsDrain(s, m, rnd);
    DrainLaunches(s, m, rnd);
  }

  // ----- runs

  datatype Event =
    | Join(id: WorkerId, concurrency: nat, ram: nat, cpu: bool)
    | Leave(id: WorkerId)
    | Contest(c: ContestId, priority: int, weight: nat)
    | Submit(job: Job, c: ContestId)
    | Finish(x: TaskId)
    | Dispatch(m: M.Manager)

  /** What the callers of the scheduler see to (prioritizing.py:115-118, 395, 494-496, 525-527, 533). */
  ghost predicate Enabled(s: State, e: Event) {
    match e
    case Join(id, concurrency, ram, cpu) => id !in s.workers && concurrency > 0 && ram > 0
    case Leave(id) => id in s.workers && s.workers[id].running == 0
    case Contest(c, priority, weight) => weight >= 1
    case Submit(job, c) => c in s.contests && job.id !in s.tasks
    case Finish(x) => x in s.tasks
    case Dispatch(m) => Agrees(m, s.workers)
  }

  /** The history of a run: decisions taken, and waiting tasks that were cancelled. */
  datatype LogEntry = Moved(mv: Move) | Cancelled(t: Task)

  function LogOf(moves: seq<Move>): seq<LogEntry> {
    if moves == [] then [] else [Moved(moves[0])] + LogOf(moves[1..])
  }

  /** A deleted task leaves the queue or the waiting list that it was in, and nothing else does. */
  lemma DelLeaves(s: State, x: TaskId)
    requires Inv(s) && x in s.tasks
    ensures x in s.runsOn ==> s.runsOn[x] in s.workers && s.workers[s.runsOn[x]].CanDetach(s.tasks[x])
    ensures var t, s' := s.tasks[x], DelTask(s, x);
            && s'.lastSequence == s.lastSequence && Content(s'.bothQ) <= Content(s.bothQ)
            && s'.waiting == (if t in s.waiting then RemoveFrom(s.waiting, t) else s.waiting)
  {
    DelTaskInv(s, x);
    if x in s.runsOn {
      DelAttachedIs(s, x);
    } else if s.tasks[x] !in s.waiting {
      QueuedSequences(s);
      UnqueueTaskOk(s, s.tasks[x]);
    }
  }

  /** The state after an event. */
  ghost function After(s: State, e: Event, rnd: Generator): State
    requires Inv(s) && Enabled(s, e)
  {
    match e
    case Join(id, concurrency, ram, cpu) => AddWorker(s, id, concurrency, ram, cpu)
    case Leave(id) => DelWorker(s, id)
    case Contest(c, priority, weight) => UpdateContest(s, c, priority, weight)
    case Submit(job, c) => AddTask(s, job, c)
    case Finish(x) => DelLeaves(s, x); DelTask(s, x)
    case Dispatch(m) => Drain(s, m, rnd).1
  }

  lemma AfterInv(s: State, e: Event, rnd: Generator)
    requires Inv(s) && Enabled(s, e)
    ensures Inv(After(s, e, rnd))
  {
    match e
    case Join(id, concurrency, ram, cpu) => AddWorkerInv(s, id, concurrency, ram, cpu);
    case Leave(id) => DelWorkerInv(s, id);
    case Contest(c, priority, weight) => UpdateContestInv(s, c, priority, weight);
    case Submit(job, c) => AddTaskInv(s, job, c);
    case Finish(x) => DelTaskInv(s, x);
    case Dispatch(m) =>
  }

  function LogOfFinish(waiting: seq<Task>, t: Task): seq<LogEntry> {
    if t in waiting then [Cancelled(t)] else []
  }

  /** What an event adds to the history. */
  ghost function Logged(s: State, e: Event, rnd: Generator): seq<LogEntry>
    requires Inv(s) && Enabled(s, e)
  {
    match e
    case Finish(x) => LogOfFinish(s.waiting, s.tasks[x])
    case Dispatch(m) => LogOf(Drain(s, m, rnd).0)
    case _ => []
  }

  /** The state and history after a sequence of events; events that are not enabled do not happen. */
  ghost function Run(es: seq<Event>, rnd: Generator): (r: (State, seq<LogEntry>))
    ensures Inv(r.0)
  {
    InitialInv();
    if es == [] then (INITIAL, [])
    else
      var n := |es| - 1;
      var (s, log) := Run(es[..n], rnd);
      if Enabled(s, es[n]) then
        AfterInv(s, es[n], rnd);
        (After(s, es[n], rnd), log + Logged(s, es[n], rnd))
      else (s, log)
  }

  /** A worker is queued exactly when it has a free slot, and looking it up under its current key finds it. */
  ghost predicate Indexed(s: State, id: WorkerId)
    requires id in s.workers
  {
    var w := s.workers[id];
    && (id in s.anyCpu <==> w.cpuEnabled && w.Slots() > 0)
    && (id in s.vcpuOnly <==> !w.cpuEnabled && w.Slots() > 0)
    && (id in s.anyCpu ==>
          var p := Position(QueueKeys(AnyCpuKind, s.workers, s.anyCpu), WorkerKey(AnyCpuKind, w));
          p < |s.anyCpu| && s.anyCpu[p] == id)
    && (id in s.vcpuOnly ==>
          var p := Position(QueueKeys(VcpuOnlyKind, s.workers, s.vcpuOnly), WorkerKey(VcpuOnlyKind, w));
          p < |s.vcpuOnly| && s.vcpuOnly[p] == id)
  }

  /**
   In every reachable state the queues of workers are exact, every lookup in them succeeds, and the counters of
   each worker are those of its tasks.
   */
  lemma ReachableIndexes(es: seq<Event>, rnd: Generator)
    ensures var s := Run(es, rnd).0;
            forall id | id in s.workers :: Indexed(s, id) && WorkerLoad(s.workers[id], s.tasks, On(s.runsOn, id))
  {
    var s := Run(es, rnd).0;
    forall id | id in s.workers ensures Indexed(s, id) { QueuesAreExact(s, id); }
  }

  /** Each known task is in exactly one place. */
  ghost predicate InOnePlace(s: State, x: TaskId)
    requires x in s.tasks
  {
    var t := s.tasks[x];
    var queued, waiting, attached := t in Content(s.bothQ), t in s.waiting, x in s.runsOn;
    && (queued || waiting || attached)
    && !(queued && waiting) && !(queued && attached) && !(waiting && attached)
    && (t in Content(s.virtualQ) <==> queued && !t.realCpu)
    && (waiting ==> t.realCpu)
  }

  /**
   In every reachable state each known task is queued, waiting or attached, and only one of these; nothing else
   is; and the sorted RAM list is that of the waiting tasks.
   */
  lemma TaskConservation(es: seq<Event>, rnd: Generator)
    ensures var s := Run(es, rnd).0;
            && (forall x | x in s.tasks :: InOnePlace(s, x))
            && (forall t | t in Content(s.bothQ) || t in s.waiting :: t.id in s.tasks && s.tasks[t.id] == t)
            && (forall x | x in s.runsOn :: x in s.tasks)
            && multiset(s.waitingRam) == multiset(RamsOfTasks(s.waiting)) && Ascending(s.waitingRam)
  {
    var s := Run(es, rnd).0;
    forall x | x in s.tasks ensures InOnePlace(s, x) {}
  }

  // ----- order of real-cpu tasks over a run

  /**
   Real-cpu tasks in the order in which they left the 'both' queues, without those cancelled while
   waiting; with `all` unset, only those that went through the waiting queue.
   */
  function Departures(log: seq<LogEntry>, all: bool): seq<Task> {
    if log == [] then []
    else
      var before := Departures(log[..|log| - 1], all);
      match log[|log| - 1]
      case Cancelled(t) => RemoveFrom(before, t)
      case Moved(mv) => if mv.Reserve? || (all && mv.RealToAny?) then before + [mv.t] else before
  }

  /** Real-cpu tasks in the order in which they were attached to a worker. */
  function Starts(log: seq<LogEntry>, all: bool): seq<Task> {
    if log == [] then []
    else
      var before := Starts(log[..|log| - 1], all);
      match log[|log| - 1]
      case Cancelled(t) => before
      case Moved(mv) => if mv.WaitingToAny? || (all && mv.RealToAny?) then before + [mv.t] else before
  }

  ghost predicate InOrder(waiting: seq<Task>, queued: set<Task>, last: int, log: seq<LogEntry>, all: bool) {
    && Departures(log, all) == Starts(log, all) + waiting
    && (forall u | u in Starts(log, all) :: u.sequence <= last && u !in waiting && u !in queued)
  }

  ghost predicate Ordered(s: State, log: seq<LogEntry>, all: bool) {
    InOrder(s.waiting, Content(s.bothQ), s.lastSequence, log, all)
  }

  lemma ApplyContent(s: State, mv: Move)
    requires Inv(s) && Legal(s, mv) && mv != Idle
    ensures Content(Apply(s, mv).bothQ) == Content(s.bothQ) - {mv.t}
  {
    if mv.WaitingToAny? {
      assert s.waiting[0] in s.waiting;
      AttachContent(PopWaiting(s), mv.t, mv.w);
    } else {
      LegalTask(s, mv);
      QueuedContent(s, mv);
    }
  }

  lemma QueuedContent(s: State, mv: Move)
    requires TaskIndexOk(s.virtualQ, s.bothQ, s.contests) && mv != Idle && !mv.WaitingToAny? && mv.t in Content(s.bothQ)
    requires mv.t.contest in s.contests && s.contests[mv.t.contest].weight >= 1
    requires mv.Attaches() ==> mv.w in s.workers
    ensures Content(Apply(s, mv).bothQ) == Content(s.bothQ) - {mv.t}
  {
    UnqueueTaskOk(s, mv.t);
    if mv.Attaches() { AttachContent(RemoveTaskFromQueues(s, mv.t), mv.t, mv.w); }
  }

  lemma AttachContent(s: State, t: Task, id: WorkerId)
    requires id in s.workers
    ensures AttachTaskToWorker(s, t, id).bothQ == s.bothQ
  {
    AttachEffect(s, t, id);
  }

  ghost predicate WaitingSeparate(waiting: seq<Task>, queued: set<Task>) {
    && (waiting != [] ==> waiting[0] !in waiting[1..])
    && (forall t | t in queued :: t !in waiting)
  }

  lemma WaitingIsSeparate(s: State)
    requires Inv(s)
    ensures WaitingSeparate(s.waiting, Content(s.bothQ))
    ensures forall t | t in s.waiting || t in Content(s.bothQ) :: t.id in s.tasks && t.sequence <= s.lastSequence
  {
  }

  /** What one more entry of the log adds. */
  lemma LogGrows(log: seq<LogEntry>, e: LogEntry, all: bool)
    ensures Departures(log + [e], all) ==
            if e.Cancelled? then RemoveFrom(Departures(log, all), e.t)
            else if e.mv.Reserve? || (all && e.mv.RealToAny?) then Departures(log, all) + [e.mv.t]
            else Departures(log, all)
    ensures Starts(log + [e], all) ==
            if e.Moved? && (e.mv.WaitingToAny? || (all && e.mv.RealToAny?)) then Starts(log, all) + [e.mv.t]
            else Starts(log, all)
  {
    assert (log + [e])[..|log + [e]| - 1] == log;
  }

  lemma FirstStarts(a: seq<Task>, w: seq<Task>)
    requires w != []
    ensures a + w == (a + [w[0]]) + w[1..]
  {
  }

  lemma LastWaits(a: seq<Task>, w: seq<Task>, t: Task)
    ensures (a + w) + [t] == a + (w + [t])
  {
  }

  lemma StartedFirst(waiting: seq<Task>, queued: set<Task>, last: int, log: seq<LogEntry>, mv: Move, all: bool)
    requires WaitingSeparate(waiting, queued) && InOrder(waiting, queued, last, log, all)
    requires mv.WaitingToAny? && waiting != [] && mv.t == waiting[0] && mv.t.sequence <= last
    ensures InOrder(waiting[1..], queued - {mv.t}, last, log + [Moved(mv)], all)
  {
    LogGrows(log, Moved(mv), all);
    FirstStarts(Starts(log, all), waiting);
  }

  lemma Reserved(waiting: seq<Task>, queued: set<Task>, last: int, log: seq<LogEntry>, mv: Move, all: bool)
    requires InOrder(waiting, queued, last, log, all) && mv.Reserve? && mv.t in queued
    ensures InOrder(waiting + [mv.t], queued - {mv.t}, last, log + [Moved(mv)], all)
  {
    LogGrows(log, Moved(mv), all);
    LastWaits(Starts(log, all), waiting, mv.t);
  }

  lemma StartedDirectly(waiting: seq<Task>, queued: set<Task>, last: int, log: seq<LogEntry>, mv: Move, all: bool)
    requires InOrder(waiting, queued, last, log, all) && mv.Attaches() && !mv.WaitingToAny?
    requires mv.t in queued && mv.t.sequence <= last && mv.t !in waiting && (all && mv.RealToAny? ==> waiting == [])
    ensures InOrder(waiting, queued - {mv.t}, last, log + [Moved(mv)], all)
  {
    LogGrows(log, Moved(mv), all);
    LastWaits(Starts(log, all), waiting, mv.t);
    assert waiting == [] ==> waiting + [mv.t] == [mv.t] && Starts(log, all) + waiting == Starts(log, all);
  }

  lemma MoveInOrder(s: State, log: seq<LogEntry>, mv: Move, all: bool)
    requires WaitingSeparate(s.waiting, Content(s.bothQ)) && Ordered(s, log, all) && mv != Idle
    requires if mv.WaitingToAny? then s.waiting != [] && mv.t == s.waiting[0] else mv.t in Content(s.bothQ)
    requires mv.t.sequence <= s.lastSequence
    requires all && mv.RealToAny? ==> s.waiting == []
    ensures InOrder(WaitingAfter(s, mv), Content(s.bothQ) - {mv.t}, s.lastSequence, log + [Moved(mv)], all)
  {
    if mv.WaitingToAny? {
      StartedFirst(s.waiting, Content(s.bothQ), s.lastSequence, log, mv, all);
    } else if mv.Reserve? {
      Reserved(s.waiting, Content(s.bothQ), s.lastSequence, log, mv, all);
    } else {
      StartedDirectly(s.waiting, Content(s.bothQ), s.lastSequence, log, mv, all);
    }
  }

  lemma StepInOrder(s: State, log: seq<LogEntry>, m: M.Manager, rnd: Generator, all: bool)
    requires Inv(s) && Ordered(s, log, all) && (all ==> CoversAll(s)) && Decide(s, m, rnd) != Idle
    ensures Ordered(Step(s, m, rnd), log + [Moved(Decide(s, m, rnd))], all)
    ensures all ==> CoversAll(Step(s, m, rnd))
  {
    var mv := Decide(s, m, rnd);
    DecideIsLegal(s, m, rnd);
    if all && s.waiting != [] { DirectOnlyIfNoneWaiting(s, m, rnd); }
    WaitingIsSeparate(s);
    if mv.WaitingToAny? { assert s.waiting[0] in s.waiting; }
    MoveInOrder(s, log, mv, all);
    ApplyEffect(s, mv);
    ApplyContent(s, mv);
    StepSame(s, m, rnd);
  }

  lemma LogOfMove(log: seq<LogEntry>, mv: Move, rest: seq<Move>)
    ensures log + LogOf([mv] + rest) == log + [Moved(mv)] + LogOf(rest)
    ensures log + LogOf([]) == log
  {
    assert ([mv] + rest)[1..] == rest;
  }

  lemma IdleKeeps(s: State, m: M.Manager, rnd: Generator)
    requires Inv(s) && Decide(s, m, rnd) == Idle
    ensures var s' := Step(s, m, rnd);
            s'.waiting == s.waiting && s'.bothQ == s.bothQ && s'.lastSequence == s.lastSequence
  {
    IdleStep(s, m, rnd);
  }

  lemma {:induction false} DrainInOrder(s: State, log: seq<LogEntry>, m: M.Manager, rnd: Generator, all: bool)
    requires Inv(s) && Ordered(s, log, all) && (all ==> CoversAll(s))
    ensures Ordered(Drain(s, m, rnd).1, log + LogOf(Drain(s, m, rnd).0), all)
    decreases |Unattached(s)|, Pending(s)
  {
    var mv, s' := Decide(s, m, rnd), Step(s, m, rnd);
    if mv == Idle {
      DrainIdle(s, m, rnd);
      IdleKeeps(s, m, rnd);
      LogOfMove(log, mv, []);
    } else {
      DrainUnfolds(s, m, rnd);
      StepDecreases(s, m, rnd);
      StepInOrder(s, log, m, rnd, all);
      DrainInOrder(s', log + [Moved(mv)], m, rnd, all);
      LogOfMove(log, mv, Drain(s', m, rnd).0);
    }
  }

  lemma {:induction false} RemoveFromAppend(a: seq<Task>, b: seq<Task>, t: Task)
    requires t !in a
    ensures RemoveFrom(a + b, t) == a + RemoveFrom(b, t)
  {
    if a == [] {
      assert a + b == b;
    } else {
      assert (a + b)[1..] == a[1..] + b && a[0] in a;
      RemoveFromAppend(a[1..], b, t);
    }
  }

  lemma CancelInOrder(waiting: seq<Task>, queued: set<Task>, last: int, log: seq<LogEntry>, t: Task, all: bool)
    requires InOrder(waiting, queued, last, log, all) && t in waiting
    requires forall u :: u in RemoveFrom(waiting, t) <==> u in waiting && u != t
    ensures InOrder(RemoveFrom(waiting, t), queued, last, log + [Cancelled(t)], all)
  {
    LogGrows(log, Cancelled(t), all);
    RemoveFromAppend(Starts(log, all), waiting, t);
  }

  lemma FewerInOrder(waiting: seq<Task>, queued: set<Task>, queued': set<Task>, last: int, log: seq<LogEntry>,
                     all: bool)
    requires InOrder(waiting, queued, last, log, all) && queued' <= queued
    ensures InOrder(waiting, queued', last, log, all)
  {
  }

  lemma CancelledLeaves(s: State, t: Task)
    requires Inv(s)
    ensures t in s.waiting ==> forall u :: u in RemoveFrom(s.waiting, t) <==> u in s.waiting && u != t
  {
    if t in s.waiting { RemoveWaitingOk(s.waiting, s.waitingRam, t); }
  }

  lemma DelInOrder(waiting: seq<Task>, queued: set<Task>, queued': set<Task>, last: int, log: seq<LogEntry>, t: Task,
                   all: bool)
    requires InOrder(waiting, queued, last, log, all) && queued' <= queued
    requires t in waiting ==> forall u :: u in RemoveFrom(waiting, t) <==> u in waiting && u != t
    ensures InOrder(if t in waiting then RemoveFrom(waiting, t) else waiting, queued', last,
                    log + LogOfFinish(waiting, t), all)
  {
    FewerInOrder(waiting, queued, queued', last, log, all);
    if t in waiting {
      CancelInOrder(waiting, queued', last, log, t, all);
    } else {
      assert log + [] == log;
    }
  }

  lemma FinishInOrder(s: State, log: seq<LogEntry>, x: TaskId, all: bool)
    requires Inv(s) && x in s.tasks && Ordered(s, log, all)
    ensures x in s.runsOn ==> s.runsOn[x] in s.workers && s.workers[s.runsOn[x]].CanDetach(s.tasks[x])
    ensures Ordered(DelTask(s, x), log + LogOfFinish(s.waiting, s.tasks[x]), all)
  {
    DelLeaves(s, x);
    CancelledLeaves(s, s.tasks[x]);
    DelInOrder(s.waiting, Content(s.bothQ), Content(DelTask(s, x).bothQ), s.lastSequence, log, s.tasks[x], all);
  }

  lemma SubmitInOrder(s: State, log: seq<LogEntry>, job: Job, c: ContestId, all: bool)
    requires Inv(s) && c in s.contests && job.id !in s.tasks && Ordered(s, log, all)
    ensures Ordered(AddTask(s, job, c), log, all)
  {
    QueuedSequences(s);
    QueueTaskOk(s, NewTask(s, job, c));
  }

  /** Joining and leaving workers and new weights do not touch the tasks. */
  lemma QuietLeaves(s: State, e: Event, rnd: Generator)
    requires Inv(s) && Enabled(s, e) && (e.Join? || e.Leave? || e.Contest?)
    ensures var s' := After(s, e, rnd);
            s'.waiting == s.waiting && s'.bothQ == s.bothQ && s'.lastSequence == s.lastSequence
  {
    match e
    case Join(id, concurrency, ram, cpu) => AddWorkerIs(s, id, concurrency, ram, cpu);
    case Leave(id) => DelWorkerIs(s, id);
    case Contest(c, priority, weight) =>
  }

  lemma AfterInOrder(s: State, log: seq<LogEntry>, e: Event, rnd: Generator, all: bool)
    requires Inv(s) && Enabled(s, e) && Ordered(s, log, all) && (all ==> CoversAll(s))
    ensures Ordered(After(s, e, rnd), log + Logged(s, e, rnd), all)
  {
    match e
    case Submit(job, c) =>
      assert log + [] == log;
      SubmitInOrder(s, log, job, c, all);
    case Finish(x) => FinishInOrder(s, log, x, all);
    case Dispatch(m) => DrainInOrder(s, log, m, rnd, all);
    case _ =>
      assert log + [] == log;
      QuietLeaves(s, e, rnd);
  }

  /**
   Over any run, the waiting tasks are those that departed and have not started, in order: tasks start
   in exactly the order in which they left the 'both' queues. For all real-cpu tasks this needs every
   any-cpu worker to be large enough for every real-cpu task; among those that waited it always holds.
   */
  lemma {:induction false} NoOvertaking(es: seq<Event>, rnd: Generator, all: bool)
    requires all ==> forall n | 0 <= n <= |es| :: CoversAll(Run(es[..n], rnd).0)
    ensures var (s, log) := Run(es, rnd);
            Ordered(s, log, all)
  {
    if es != [] {
      var n := |es| - 1;
      forall k | 0 <= k <= n ensures es[..n][..k] == es[..k] {}
      NoOvertaking(es[..n], rnd, all);
      var (s, log) := Run(es[..n], rnd);
      if Enabled(s, es[n]) { AfterInOrder(s, log, es[n], rnd, all); }
    }
  }

  // ----- order of virtual-cpu tasks within a contest, over a whole call of schedule

  lemma StepContent(s: State, m: M.Manager, rnd: Generator)
    requires Inv(s) && Decide(s, m, rnd) != Idle
    ensures Content(Step(s, m, rnd).bothQ) == Content(s.bothQ) - {Decide(s, m, rnd).t}
  {
    DecideIsLegal(s, m, rnd);
    ApplyContent(s, Decide(s, m, rnd));
  }

  lemma {:induction false} DrainContent(s: State, m: M.Manager, rnd: Generator)
    requires Inv(s)
    ensures Content(Drain(s, m, rnd).1.bothQ) <= Content(s.bothQ)
    decreases |Unattached(s)|, Pending(s)
  {
    if Decide(s, m, rnd) == Idle {
      DrainIdle(s, m, rnd);
      IdleKeeps(s, m, rnd);
    } else {
      DrainUnfolds(s, m, rnd);
      StepDecreases(s, m, rnd);
      StepContent(s, m, rnd);
      DrainContent(Step(s, m, rnd), m, rnd);
    }
  }

  ghost predicate AllAhead(moves: seq<Move>, u: Task) {
    forall i | 0 <= i < |moves| :: AheadOf(moves[i], u)
  }

  lemma MoreAhead(mv: Move, moves: seq<Move>, u: Task)
    requires AheadOf(mv, u) && AllAhead(moves, u)
    ensures AllAhead([mv] + moves, u)
  {
  }

  /**
   Of two virtual-cpu tasks of a contest, of which a call of `schedule` starts one and leaves the other in
   the queue, the one that starts has the higher priority, or arrived earlier at equal priority.
   */
  lemma {:induction false} NoInversionInSchedule(s: State, m: M.Manager, rnd: Generator, u: Task)
    requires Inv(s)
    ensures u in Content(Drain(s, m, rnd).1.bothQ) ==> AllAhead(Drain(s, m, rnd).0, u)
    decreases |Unattached(s)|, Pending(s)
  {
    var mv := Decide(s, m, rnd);
    if mv == Idle {
      DrainIdle(s, m, rnd);
    } else {
      DrainUnfolds(s, m, rnd);
      StepDecreases(s, m, rnd);
      StepContent(s, m, rnd);
      DrainContent(Step(s, m, rnd), m, rnd);
      NoInversionInSchedule(Step(s, m, rnd), m, rnd, u);
      if u in Content(Drain(s, m, rnd).1.bothQ) {
        NoInversion(s, m, rnd, u);
        MoreAhead(mv, Drain(Step(s, m, rnd), m, rnd).0, u);
      }
    }
  }

  // ----- and over a whole run

  ghost predicate LogAhead(log: seq<LogEntry>, u: Task) {
    forall i | 0 <= i < |log| && log[i].Moved? :: AheadOf(log[i].mv, u)
  }

  lemma {:induction false} LogOfAhead(moves: seq<Move>, u: Task)
    requires AllAhead(moves, u)
    ensures LogAhead(LogOf(moves), u)
  {
    if moves != [] {
      forall i | 0 <= i < |moves[1..]| ensures AheadOf(moves[1..][i], u) { assert moves[1..][i] == moves[i + 1]; }
      LogOfAhead(moves[1..], u);
    }
  }

  /** What an event leaves in the queue was there before, or has a new sequence number. */
  ghost predicate OnlyNewer(s: State, s': State) {
    && s.lastSequence <= s'.lastSequence
    && (forall u | u in Content(s'.bothQ) && u.sequence <= s.lastSequence :: u in Content(s.bothQ))
  }

  lemma SubmitOnlyNewer(s: State, job: Job, c: ContestId)
    requires Inv(s) && c in s.contests
    ensures OnlyNewer(s, AddTask(s, job, c))
  {
    QueuedSequences(s);
    AddTaskIs(s, job, c);
    QueueTaskOk(s, NewTask(s, job, c));
  }

  lemma FinishOnlyNewer(s: State, x: TaskId)
    requires Inv(s) && x in s.tasks
    ensures x in s.runsOn ==> s.runsOn[x] in s.workers && s.workers[s.runsOn[x]].CanDetach(s.tasks[x])
    ensures OnlyNewer(s, DelTask(s, x))
  {
    DelLeaves(s, x);
  }

  lemma DrainSequence(s: State, m: M.Manager, rnd: Generator)
    requires Inv(s)
    ensures Drain(s, m, rnd).1.lastSequence == s.lastSequence
  {
    DrainLaunches(s, m, rnd);
  }

  lemma DispatchOnlyNewer(s: State, m: M.Manager, rnd: Generator)
    requires Inv(s)
    ensures OnlyNewer(s, Drain(s, m, rnd).1)
  {
    DrainContent(s, m, rnd);
    DrainSequence(s, m, rnd);
  }

  lemma AfterOnlyNewer(s: State, e: Event, rnd: Generator)
    requires Inv(s) && Enabled(s, e)
    ensures OnlyNewer(s, After(s, e, rnd))
  {
    match e
    case Submit(job, c) => SubmitOnlyNewer(s, job, c);
    case Finish(x) => FinishOnlyNewer(s, x);
    case Dispatch(m) => DispatchOnlyNewer(s, m, rnd);
    case _ => QuietLeaves(s, e, rnd);
  }

  lemma DispatchAhead(s: State, m: M.Manager, rnd: Generator, u: Task)
    requires Inv(s) && u in Content(Drain(s, m, rnd).1.bothQ)
    ensures LogAhead(LogOf(Drain(s, m, rnd).0), u)
  {
    NoInversionInSchedule(s, m, rnd, u);
    LogOfAhead(Drain(s, m, rnd).0, u);
  }

  lemma LoggedAhead(s: State, e: Event, rnd: Generator, u: Task)
    requires Inv(s) && Enabled(s, e) && u in Content(After(s, e, rnd).bothQ)
    ensures LogAhead(Logged(s, e, rnd), u)
  {
    if e.Dispatch? { DispatchAhead(s, e.m, rnd, u); }
  }

  lemma LogAheadSince(log: seq<LogEntry>, log1: seq<LogEntry>, more: seq<LogEntry>, u: Task)
    requires log <= log1 && LogAhead(log1[|log|..], u) && LogAhead(more, u)
    ensures log <= log1 + more && LogAhead((log1 + more)[|log|..], u)
  {
    assert (log1 + more)[|log|..] == log1[|log|..] + more;
  }

  lemma OnlyNewerTwice(s: State, s1: State, s2: State)
    requires OnlyNewer(s, s1) && OnlyNewer(s1, s2)
    ensures OnlyNewer(s, s2)
  {
  }

  /** One event of a run, for a task `u`. */
  ghost predicate StepAhead(s: State, log: seq<LogEntry>, s': State, log': seq<LogEntry>, u: Task) {
    OnlyNewer(s, s') && log <= log' && (u in Content(s'.bothQ) ==> LogAhead(log'[|log|..], u))
  }

  ghost predicate Trace(states: seq<State>, logs: seq<seq<LogEntry>>, u: Task) {
    |states| == |logs|
    && forall k | 0 <= k < |states| - 1 :: StepAhead(states[k], logs[k], states[k + 1], logs[k + 1], u)
  }

  lemma {:induction false} TraceNewer(states: seq<State>, logs: seq<seq<LogEntry>>, i: nat, j: nat, u: Task)
    requires Trace(states, logs, u) && i <= j < |states|
    ensures OnlyNewer(states[i], states[j])
    decreases j
  {
    if i < j {
      TraceNewer(states, logs, i, j - 1, u);
      assert StepAhead(states[j - 1], logs[j - 1], states[j - 1 + 1], logs[j - 1 + 1], u);
      OnlyNewerTwice(states[i], states[j - 1], states[j]);
    }
  }

  lemma {:induction false} TraceAhead(states: seq<State>, logs: seq<seq<LogEntry>>, i: nat, j: nat, u: Task)
    requires Trace(states, logs, u) && i <= j < |states|
    requires u in Content(states[i].bothQ) && u.sequence <= states[i].lastSequence && u in Content(states[j].bothQ)
    ensures logs[i] <= logs[j] && LogAhead(logs[j][|logs[i]|..], u)
    decreases j
  {
    if i < j {
      TraceNewer(states, logs, i, j - 1, u);
      assert StepAhead(states[j - 1], logs[j - 1], states[j - 1 + 1], logs[j - 1 + 1], u);
      TraceAhead(states, logs, i, j - 1, u);
      LogAheadSince(logs[i], logs[j - 1], logs[j][|logs[j - 1]|..], u);
      assert logs[j] == logs[j - 1] + logs[j][|logs[j - 1]|..];
    }
  }

  lemma RunStepAhead(es: seq<Event>, rnd: Generator, j: nat, u: Task)
    requires j < |es|
    ensures StepAhead(Run(es[..j], rnd).0, Run(es[..j], rnd).1, Run(es[..j + 1], rnd).0, Run(es[..j + 1], rnd).1, u)
  {
    var (s, log) := Run(es[..j], rnd);
    assert es[..j + 1][..j] == es[..j];
    if Enabled(s, es[j]) {
      assert Run(es[..j + 1], rnd) == (After(s, es[j], rnd), log + Logged(s, es[j], rnd));
      AfterStepAhead(s, log, es[j], rnd, u);
    }
  }

  lemma AfterStepAhead(s: State, log: seq<LogEntry>, e: Event, rnd: Generator, u: Task)
    requires Inv(s) && Enabled(s, e)
    ensures StepAhead(s, log, After(s, e, rnd), log + Logged(s, e, rnd), u)
  {
    AfterOnlyNewer(s, e, rnd);
    assert (log + Logged(s, e, rnd))[|log|..] == Logged(s, e, rnd);
    if u in Content(After(s, e, rnd).bothQ) { LoggedAhead(s, e, rnd, u); }
  }

  ghost function StateAfter(es: seq<Event>, rnd: Generator, n: nat): State
    requires n <= |es|
  {
    Run(es[..n], rnd).0
  }

  ghost function LogAfter(es: seq<Event>, rnd: Generator, n: nat): seq<LogEntry>
    requires n <= |es|
  {
    Run(es[..n], rnd).1
  }

  lemma RunTrace(es: seq<Event>, rnd: Generator, u: Task) returns (states: seq<State>, logs: seq<seq<LogEntry>>)
    ensures |states| == |es| + 1 && Trace(states, logs, u)
    ensures forall k | 0 <= k <= |es| :: states[k] == StateAfter(es, rnd, k) && logs[k] == LogAfter(es, rnd, k)
  {
    states := seq(|es| + 1, k requires 0 <= k <= |es| => StateAfter(es, rnd, k));
    logs := seq(|es| + 1, k requires 0 <= k <= |es| => LogAfter(es, rnd, k));
    forall k | 0 <= k < |es| ensures StepAhead(states[k], logs[k], states[k + 1], logs[k + 1], u) {
      RunStepAhead(es, rnd, k, u);
    }
  }

  lemma QueuedIsOld(es: seq<Event>, rnd: Generator, n: nat, u: Task)
    requires n <= |es| && u in Content(StateAfter(es, rnd, n).bothQ)
    ensures u.sequence <= StateAfter(es, rnd, n).lastSequence
  {
    QueuedSequences(Run(es[..n], rnd).0);
  }

  /**
   While a virtual-cpu task `u` is queued, no virtual-cpu task of its contest starts that has lower priority, or
   arrived later at equal priority: when `u` is in the queue at two points of a run, all that was started in
   between is ahead of it.
   */
  lemma NoInversionOverRuns(es: seq<Event>, rnd: Generator, i: nat, j: nat, u: Task)
    requires i <= j <= |es|
    requires u in Content(StateAfter(es, rnd, i).bothQ) && u in Content(StateAfter(es, rnd, j).bothQ)
    ensures var log, log' := LogAfter(es, rnd, i), LogAfter(es, rnd, j);
            log <= log' && LogAhead(log'[|log|..], u)
  {
    var states, logs := RunTrace(es, rnd, u);
    QueuedIsOld(es, rnd, i, u);
    TraceAhead(states, logs, i, j, u);
  }
}

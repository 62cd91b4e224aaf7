/**
 The state of the prioritizing scheduler and the elementary updates on it
 (prioritizing.py:58-231 and 340-542). Amounts of RAM are in KiB.
 */
module SchedulerState {
  import opened Types
  import opened SortedSets
  import opened TaskQueues

  // ----- workers

  datatype Kind = VcpuOnlyKind | AnyCpuKind

  datatype Worker = Worker(id: WorkerId, concurrency: nat, totalRam: nat, cpuEnabled: bool,
                           realBusy: bool, running: nat, usedRam: nat)
  {
    /** The queue this worker belongs to; none when it is full. */
    function Queue(): Option<Kind> {
      if realBusy || running == concurrency then None
      else if cpuEnabled then Some(AnyCpuKind) else Some(VcpuOnlyKind)
    }

    function Available(): int { totalRam - usedRam }

    function Slots(): int { if realBusy then 0 else concurrency - running }

    /** The assertions at the head of `attachTask`. */
    predicate CanAttach(t: Task) {
      && running < concurrency && usedRam + t.ram <= totalRam && !realBusy
      && (t.realCpu ==> cpuEnabled && running == 0)
    }

    function Attach(t: Task): Worker {
      this.(realBusy := realBusy || t.realCpu, usedRam := usedRam + t.ram, running := running + 1)
    }

    /** The assertions at the head of `detachTask`. */
    predicate CanDetach(t: Task) {
      running >= 1 && (running == 1 || !realBusy) && usedRam >= t.ram
    }

    function Detach(t: Task): Worker
      requires CanDetach(t)
    {
      this.(realBusy := false, usedRam := usedRam - t.ram, running := running - 1)
    }
  }

  type Workers = map<WorkerId, Worker>

  /** Empty any-cpu workers first, then by available RAM; vcpu-only workers by name. */
  function WorkerKey(kind: Kind, w: Worker): Key {
    if kind == AnyCpuKind then Key(if w.running > 0 then 1 else 0, w.Available(), w.id.rank) else Key(0, 0, w.id.rank)
  }

  /** The *current* keys of the queued workers. */
  function QueueKeys(kind: Kind, ws: Workers, q: seq<WorkerId>): (keys: seq<Key>)
    ensures |keys| == |q|
    ensures forall i | 0 <= i < |q| && q[i] in ws :: keys[i] == WorkerKey(kind, ws[q[i]])
  {
    seq(|q|, i requires 0 <= i < |q| => if q[i] in ws then WorkerKey(kind, ws[q[i]]) else Key(0, 0, 0))
  }

  function InsertWorker(kind: Kind, ws: Workers, q: seq<WorkerId>, id: WorkerId): seq<WorkerId>
    requires id in ws
  {
    InsertAt(q, Position(QueueKeys(kind, ws, q), WorkerKey(kind, ws[id])), id)
  }

  function RemoveWorker(kind: Kind, ws: Workers, q: seq<WorkerId>, id: WorkerId): seq<WorkerId>
    requires id in ws
  {
    var p := Position(QueueKeys(kind, ws, q), WorkerKey(kind, ws[id]));
    if p < |q| then RemoveAt(q, p) else q
  }

  // ----- the scheduler

  /**
   `tasks` are the known tasks and `runsOn` gives the workers of those that are running; `draws` counts the
   numbers taken from the random generator.
   */
  datatype State = State(
    workers: Workers,
    vcpuOnly: seq<WorkerId>,
    anyCpu: seq<WorkerId>,
    contests: Contests,
    tasks: map<TaskId, Task>,
    runsOn: map<TaskId, WorkerId>,
    virtualQ: Queues,
    bothQ: Queues,
    waiting: seq<Task>,
    waitingRam: seq<nat>,
    lastSequence: int,
    draws: nat)

  const INITIAL := State(map[], [], [], map[], map[], map[], [], [], [], [], 0, 0)

  function InsertWorkerToQueue(s: State, id: WorkerId): State
    requires id in s.workers
  {
    match s.workers[id].Queue()
    case None => s
    case Some(AnyCpuKind) => s.(anyCpu := InsertWorker(AnyCpuKind, s.workers, s.anyCpu, id))
    case Some(VcpuOnlyKind) => s.(vcpuOnly := InsertWorker(VcpuOnlyKind, s.workers, s.vcpuOnly, id))
  }

  function RemoveWorkerFromQueue(s: State, id: WorkerId): State
    requires id in s.workers
  {
    match s.workers[id].Queue()
    case None => s
    case Some(AnyCpuKind) => s.(anyCpu := RemoveWorker(AnyCpuKind, s.workers, s.anyCpu, id))
    case Some(VcpuOnlyKind) => s.(vcpuOnly := RemoveWorker(VcpuOnlyKind, s.workers, s.vcpuOnly, id))
  }

  /** A worker is only ever changed while it is out of its queue. */
  function ChangeWorker(s: State, id: WorkerId, w: Worker): State
    requires id in s.workers
  {
    var out := RemoveWorkerFromQueue(s, id);
    InsertWorkerToQueue(out.(workers := out.workers[id := w]), id)
  }

  function AddWorker(s: State, id: WorkerId, concurrency: nat, ram: nat, cpu: bool): State {
    var w := Worker(id, concurrency, ram, cpu, false, 0, 0);
    InsertWorkerToQueue(s.(workers := s.workers[id := w]), id)
  }

  function DelWorker(s: State, id: WorkerId): State
    requires id in s.workers
  {
    RemoveWorkerFromQueue(s, id).(workers := s.workers - {id})
  }

  function UpdateContest(s: State, c: ContestId, priority: int, weight: nat): State {
    s.(contests := s.contests[c := Contest(priority, weight)])
  }

  function AddTaskToQueues(s: State, t: Task): State {
    s.(virtualQ := if t.realCpu then s.virtualQ else Enqueue(s.virtualQ, t),
       bothQ := Enqueue(s.bothQ, t))
  }

  function RemoveTaskFromQueues(s: State, t: Task): State {
    s.(virtualQ := if t.realCpu then s.virtualQ else Dequeue(s.virtualQ, t),
       bothQ := Dequeue(s.bothQ, t))
  }

  function AttachTaskToWorker(s: State, t: Task, id: WorkerId): State
    requires id in s.workers
  {
    ChangeWorker(s.(runsOn := s.runsOn[t.id := id]), id, s.workers[id].Attach(t))
  }

  /** A submitted task, as the scheduler reads it from its environment. */
  datatype Job = Job(id: TaskId, realCpu: bool, ram: nat, priority: int)

  function NewTask(s: State, job: Job, c: ContestId): Task {
    Task(job.id, job.realCpu, job.ram, job.priority, c, s.lastSequence + 1)
  }

  function AddTask(s: State, job: Job, c: ContestId): State {
    var t := NewTask(s, job, c);
    AddTaskToQueues(s.(tasks := s.tasks[t.id := t], lastSequence := s.lastSequence + 1), t)
  }

  // The queue of waiting real-cpu tasks: first in, first out, plus their RAM in ascending order.

  function AddWaiting(s: State, t: Task): State {
    s.(waiting := s.waiting + [t], waitingRam := SortedAdd(s.waitingRam, t.ram))
  }

  function RemoveFrom(ts: seq<Task>, t: Task): seq<Task> {
    if ts == [] then [] else if ts[0] == t then ts[1..] else [ts[0]] + RemoveFrom(ts[1..], t)
  }

  function RemoveWaiting(s: State, t: Task): State {
    s.(waiting := RemoveFrom(s.waiting, t), waitingRam := SortedDiscard(s.waitingRam, t.ram))
  }

  function PopWaiting(s: State): State
    requires s.waiting != []
  {
    s.(waiting := s.waiting[1..], waitingRam := SortedDiscard(s.waitingRam, s.waiting[0].ram))
  }

  function DetachTask(s: State, t: Task): State
    requires t.id in s.runsOn && s.runsOn[t.id] in s.workers && s.workers[s.runsOn[t.id]].CanDetach(t)
  {
    var id := s.runsOn[t.id];
    ChangeWorker(s.(runsOn := s.runsOn - {t.id}), id, s.workers[id].Detach(t))
  }

  function DelTask(s: State, id: TaskId): State
    requires id in s.tasks
    requires id in s.runsOn ==>
               s.runsOn[id] in s.workers && s.workers[s.runsOn[id]].CanDetach(s.tasks[id]) && s.tasks[id].id == id
  {
    var t := s.tasks[id];
    var rest := s.(tasks := s.tasks - {id});
    if id in s.runsOn then DetachTask(rest, t)
    else if t in s.waiting then RemoveWaiting(rest, t)
    else RemoveTaskFromQueues(rest, t)
  }

  // ----- the invariant

  ghost predicate WorkersOk(ws: Workers) {
    forall id | id in ws :: ws[id].id == id && ws[id].concurrency > 0 && ws[id].totalRam > 0
  }

  /** A queue holds exactly the not-full workers of its kind, in the order of their current keys. */
  ghost predicate IndexOk(kind: Kind, ws: Workers, q: seq<WorkerId>) {
    && (forall id :: id in q <==> id in ws && ws[id].Queue() == Some(kind))
    && Increasing(QueueKeys(kind, ws, q))
  }

  ghost function On(runsOn: map<TaskId, WorkerId>, id: WorkerId): set<TaskId> {
    set x | x in runsOn && runsOn[x] == id
  }

  ghost function RamSum(on: set<TaskId>, tasks: map<TaskId, Task>): nat
    requires on <= tasks.Keys
    decreases on
  {
    if on == {} then 0
    else
      var x: TaskId :| x in on;
      tasks[x].ram + RamSum(on - {x}, tasks)
  }

  /** The counters of a worker are the count, RAM sum and exclusivity of its attached tasks. */
  ghost predicate WorkerLoad(w: Worker, tasks: map<TaskId, Task>, on: set<TaskId>) {
    && on <= tasks.Keys
    && w.running == |on| <= w.concurrency
    && w.usedRam == RamSum(on, tasks) <= w.totalRam
    && (forall x | x in on && tasks[x].realCpu :: w.realBusy)
    && (w.realBusy ==> w.cpuEnabled && exists x :: on == {x} && tasks[x].realCpu)
  }

  ghost predicate LoadOk(ws: Workers, tasks: map<TaskId, Task>, runsOn: map<TaskId, WorkerId>) {
    && (forall x | x in runsOn :: x in tasks && runsOn[x] in ws)
    && (forall id | id in ws :: WorkerLoad(ws[id], tasks, On(runsOn, id)))
  }

  ghost predicate NamesOk(tasks: map<TaskId, Task>) {
    forall x | x in tasks :: tasks[x].id == x
  }

  ghost predicate TasksOk(tasks: map<TaskId, Task>, contests: Contests, lastSequence: int) {
    && NamesOk(tasks)
    && (forall x | x in tasks :: tasks[x].contest in contests && tasks[x].sequence <= lastSequence)
    && (forall x, y | x in tasks && y in tasks && x != y :: tasks[x].sequence != tasks[y].sequence)
    && (forall c | c in contests :: contests[c].weight >= 1)
  }

  /** The waiting queue holds distinct tasks, and next to them the sorted list of their RAM. */
  ghost predicate WaitingOk(waiting: seq<Task>, waitingRam: seq<nat>) {
    && (forall i, j | 0 <= i < j < |waiting| :: waiting[i] != waiting[j])
    && Ascending(waitingRam)
    && multiset(waitingRam) == multiset(RamsOfTasks(waiting))
  }

  function RamsOfTasks(ts: seq<Task>): (r: seq<nat>)
    ensures |r| == |ts|
    ensures forall i | 0 <= i < |ts| :: r[i] == ts[i].ram
  {
    seq(|ts|, i requires 0 <= i < |ts| => ts[i].ram)
  }

  /** Every known task is in exactly one place: queued in 'both', waiting or attached. */
  ghost predicate PlacesOk(tasks: map<TaskId, Task>, runsOn: map<TaskId, WorkerId>, waiting: seq<Task>,
                           queued: set<Task>) {
    && (forall t | t in queued :: t.id in tasks && tasks[t.id] == t && t.id !in runsOn && t !in waiting)
    && (forall t | t in waiting :: t.realCpu && t.id in tasks && tasks[t.id] == t && t.id !in runsOn)
    && (forall x | x in tasks :: x in runsOn || tasks[x] in waiting || tasks[x] in queued)
  }

  ghost function VirtualTasks(ts: set<Task>): set<Task> {
    set t | t in ts && !t.realCpu
  }

  /** The 'virtual-cpu' queues are exactly the virtual-cpu tasks of the 'both' queues. */
  ghost predicate TaskIndexOk(virtualQ: Queues, bothQ: Queues, contests: Contests) {
    && QueuesOk(virtualQ) && QueuesOk(bothQ)
    && Weighted(virtualQ, contests) && Weighted(bothQ, contests)
    && Content(virtualQ) == VirtualTasks(Content(bothQ))
  }

  ghost predicate IndexesOk(s: State) {
    && WorkersOk(s.workers)
    && IndexOk(AnyCpuKind, s.workers, s.anyCpu)
    && IndexOk(VcpuOnlyKind, s.workers, s.vcpuOnly)
  }

  ghost predicate Inv(s: State) {
    && IndexesOk(s)
    && LoadOk(s.workers, s.tasks, s.runsOn)
    && TasksOk(s.tasks, s.contests, s.lastSequence)
    && TaskIndexOk(s.virtualQ, s.bothQ, s.contests)
    && WaitingOk(s.waiting, s.waitingRam)
    && PlacesOk(s.tasks, s.runsOn, s.waiting, Content(s.bothQ))
  }
}

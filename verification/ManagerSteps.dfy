/** The operations of the worker manager (workermanager.py:75-194). */
module ManagerSteps {
  import opened Types
  import opened Matching
  import opened ManagerModel
  import opened SchedulerState

  /** The guards of `runOnWorker`; the first is the missing dictionary entry. */
  datatype RunError = UnknownWorker | CpuExecRunning | FullyLoaded | WorkerBusy | CpuExecNotAllowed

  datatype Sent = Sent(m: Manager) | Refused(error: RunError)

  const NO_WORKERS := Manager([], map[], map[], None, None, None, None)

  /** `newWorker`, after the worker said it is running nothing. */
  function NewWorker(m: Manager, id: WorkerId, concurrency: nat, ram: nat, cpu: bool): Manager {
    UpdateStats(m.(order := m.order + [id], data := m.data[id := WorkerData(concurrency, ram, cpu, {}, false)]))
  }

  function Without(order: seq<WorkerId>, id: WorkerId): (r: seq<WorkerId>)
    ensures forall x :: x in r <==> x in order && x != id
    ensures Distinct(order) ==> Distinct(r)
  {
    if order == [] then []
    else if order[0] == id then Without(order[1..], id)
    else
      var rest := Without(order[1..], id);
      assert Distinct(order) ==> order[0] !in order[1..];
      [order[0]] + rest
  }

  /** `workerLost`, up to the callbacks of its calls: the worker is out of both dictionaries. */
  function Forget(m: Manager, id: WorkerId): Manager {
    m.(order := Without(m.order, id), data := m.data - {id})
  }

  function RunOnWorker(m: Manager, id: WorkerId, task: TaskId, realCpu: bool): Sent {
    if id !in m.data then Refused(UnknownWorker)
    else
      var wd := m.data[id];
      if wd.runningCpuExec then Refused(CpuExecRunning)
      else if |wd.tasks| >= wd.concurrency then Refused(FullyLoaded)
      else if realCpu && wd.tasks != {} then Refused(WorkerBusy)
      else if realCpu && !wd.cpu then Refused(CpuExecNotAllowed)
      else
        var wd' := wd.(tasks := wd.tasks + {task}, runningCpuExec := realCpu);
        Sent(m.(data := m.data[id := wd'], calls := m.calls[task := id]))
  }

  /** `_free` on a worker that is still registered. */
  function FreeSlot(wd: WorkerData, task: TaskId): WorkerData {
    wd.(tasks := wd.tasks - {task}, runningCpuExec := false)
  }

  /** The condition of the "impossible happened" branch of `_free`. */
  predicate Impossible(wd: WorkerData, task: TaskId) {
    wd.runningCpuExec && wd.tasks - {task} != {}
  }

  /** `_free`: the call is over, whatever its outcome. A lost worker is no longer in the dictionary. */
  function Free(m: Manager, task: TaskId): Manager
    requires task in m.calls
  {
    var id := m.calls[task];
    m.(calls := m.calls - {task},
       data := if id in m.data then m.data[id := FreeSlot(m.data[id], task)] else m.data)
  }

  lemma UpdateStatsOk(m: Manager)
    ensures StatsOk(UpdateStats(m))
    ensures DictionaryOk(m) ==> DictionaryOk(UpdateStats(m))
  {
  }

  lemma NewWorkerOk(m: Manager, id: WorkerId, concurrency: nat, ram: nat, cpu: bool)
    requires DictionaryOk(m) && id !in m.data
    ensures DictionaryOk(NewWorker(m, id, concurrency, ram, cpu)) && StatsOk(NewWorker(m, id, concurrency, ram, cpu))
  {
    var m' := m.(order := m.order + [id], data := m.data[id := WorkerData(concurrency, ram, cpu, {}, false)]);
    assert DictionaryOk(m') by { OrderGrows(m.order, m.data.Keys, id); }
    UpdateStatsOk(m');
  }

  lemma OrderGrows(order: seq<WorkerId>, known: set<WorkerId>, id: WorkerId)
    requires Distinct(order) && Elements(order) == known && id !in known
    ensures Distinct(order + [id]) && Elements(order + [id]) == known + {id}
  {
    forall i | 0 <= i < |order| ensures order[i] != id { assert order[i] in Elements(order); }
  }

  lemma ForgetOk(m: Manager, id: WorkerId)
    requires DictionaryOk(m)
    ensures DictionaryOk(UpdateStats(Forget(m, id))) && StatsOk(UpdateStats(Forget(m, id)))
  {
    assert Elements(Without(m.order, id)) == Elements(m.order) - {id};
    UpdateStatsOk(Forget(m, id));
  }

  lemma NewWorkerIs(m: Manager, id: WorkerId, concurrency: nat, ram: nat, cpu: bool)
    ensures var m' := NewWorker(m, id, concurrency, ram, cpu);
            && m'.data == m.data[id := WorkerData(concurrency, ram, cpu, {}, false)] && m'.calls == m.calls
            && m'.order == m.order + [id]
  {
  }

  lemma FreeAnnounced(m: Manager, task: TaskId)
    requires task in m.calls
    ensures SameAnnounced(m, Free(m, task))
  {
  }

  /** Statistics depend only on what the workers announced, not on what they run. */
  ghost predicate SameAnnounced(m: Manager, m': Manager) {
    && m'.order == m.order && m'.data.Keys == m.data.Keys
    && (forall id | id in m.data :: m'.data[id].ram == m.data[id].ram && m'.data[id].cpu == m.data[id].cpu
                                    && m'.data[id].concurrency == m.data[id].concurrency)
    && m'.minAny == m.minAny && m'.maxAny == m.maxAny && m'.minVcpu == m.minVcpu && m'.maxVcpu == m.maxVcpu
  }

  lemma {:induction false} SameIds(order: seq<WorkerId>, data: map<WorkerId, WorkerData>,
                                   data': map<WorkerId, WorkerData>, cpu: bool)
    requires data'.Keys == data.Keys && forall id | id in data :: data'[id].cpu == data[id].cpu
    ensures IdsOf(order, data', cpu) == IdsOf(order, data, cpu)
  {
    if order != [] { SameIds(order[1..], data, data', cpu); }
  }

  lemma SameStats(m: Manager, m': Manager)
    requires SameAnnounced(m, m')
    ensures StatsOk(m) ==> StatsOk(m')
    ensures DictionaryOk(m) ==> DictionaryOk(m')
  {
    SameIds(m.order, m.data, m'.data, true);
    SameIds(m.order, m.data, m'.data, false);
    assert TotalRam(m') == TotalRam(m);
  }

  // ----- what the guards and the statistics are for

  /** A worker with such tasks is within its slots, and a task of `alone` is by itself, on a worker that may run it. */
  ghost predicate Allowed(wd: WorkerData, tasks: set<TaskId>, alone: set<TaskId>) {
    |tasks| <= wd.concurrency && forall x | x in tasks * alone :: tasks == {x} && wd.cpu
  }

  /** ... and its flag says whether it has such a task. */
  ghost predicate Flagged(wd: WorkerData, alone: set<TaskId>) {
    Allowed(wd, wd.tasks, alone) && (wd.runningCpuExec <==> wd.tasks * alone != {})
  }

  /**
   A task is sent if and only if the worker is known and may have it besides what it has; otherwise the first of the
   guards that it meets refuses it. `alone` are the tasks that need the worker for themselves.
   */
  lemma SentIffAllowed(m: Manager, id: WorkerId, task: TaskId, alone: set<TaskId>)
    requires id in m.data ==> Flagged(m.data[id], alone) && task !in m.data[id].tasks
    ensures var r := RunOnWorker(m, id, task, task in alone);
            if id !in m.data then r == Refused(UnknownWorker)
            else
              var wd := m.data[id];
              if Allowed(wd, wd.tasks + {task}, alone) then
                r == Sent(m.(data := m.data[id := wd.(tasks := wd.tasks + {task}, runningCpuExec := task in alone)],
                             calls := m.calls[task := id]))
              else
                r == Refused(if wd.tasks * alone != {} then CpuExecRunning
                             else if |wd.tasks| == wd.concurrency then FullyLoaded
                             else if wd.tasks != {} then WorkerBusy else CpuExecNotAllowed)
  {
    if id in m.data {
      var tasks := m.data[id].tasks;
      assert |tasks + {task}| == |tasks| + 1;
      if x :| x in tasks * alone { assert x in (tasks + {task}) * alone && tasks + {task} != {x}; }
      if tasks * alone == {} && task in alone { OneRealTask(tasks, task, alone); }
      if tasks * alone == {} && task !in alone { assert (tasks + {task}) * alone == {}; }
    }
  }

  lemma OneRealTask(tasks: set<TaskId>, task: TaskId, alone: set<TaskId>)
    requires tasks * alone == {} && task in alone && task !in tasks
    ensures (tasks + {task}) * alone == {task}
    ensures tasks + {task} == {task} <==> tasks == {}
  {
    if x :| x in tasks { assert x in tasks + {task}; }
  }

  /** The "impossible" case: a worker that was to run one task by itself has another one left. */
  lemma ImpossibleMeans(wd: WorkerData, task: TaskId)
    ensures Impossible(wd, task) <==> wd.runningCpuExec && exists y :: y in wd.tasks && y != task
  {
    if y :| y in wd.tasks && y != task { assert y in wd.tasks - {task}; }
    if y :| y in wd.tasks - {task} { assert y in wd.tasks && y != task; }
  }

  /** The RAM of some worker of the kind, and of none less; none if there is no such worker. */
  ghost predicate IsLeast(ram: Option<nat>, m: Manager, cpu: bool) {
    if ram.None? then forall id | id in m.data :: m.data[id].cpu != cpu
    else
      && (exists id :: id in m.data && m.data[id].cpu == cpu && m.data[id].ram == ram.value)
      && (forall id | id in m.data && m.data[id].cpu == cpu :: ram.value <= m.data[id].ram)
  }

  ghost predicate IsGreatest(ram: Option<nat>, m: Manager, cpu: bool) {
    if ram.None? then forall id | id in m.data :: m.data[id].cpu != cpu
    else
      && (exists id :: id in m.data && m.data[id].cpu == cpu && m.data[id].ram == ram.value)
      && (forall id | id in m.data && m.data[id].cpu == cpu :: m.data[id].ram <= ram.value)
  }

  ghost function RamList(m: Manager, cpu: bool): seq<nat> {
    Rams(IdsOf(m.order, m.data, cpu), TotalRam(m))
  }

  lemma ListedRam(m: Manager, cpu: bool, id: WorkerId) returns (i: nat)
    requires DictionaryOk(m) && id in m.data && m.data[id].cpu == cpu
    ensures i < |RamList(m, cpu)| && RamList(m, cpu)[i] == m.data[id].ram
  {
    assert id in Elements(m.order);
    assert id in IdsOf(m.order, m.data, cpu);
    i :| 0 <= i < |IdsOf(m.order, m.data, cpu)| && IdsOf(m.order, m.data, cpu)[i] == id;
  }

  lemma WorkerOfRam(m: Manager, cpu: bool, i: nat) returns (id: WorkerId)
    requires i < |RamList(m, cpu)|
    ensures id in m.data && m.data[id].cpu == cpu && m.data[id].ram == RamList(m, cpu)[i]
  {
    id := IdsOf(m.order, m.data, cpu)[i];
    assert id in IdsOf(m.order, m.data, cpu);
  }

  lemma LeastOf(m: Manager, cpu: bool, ram: Option<nat>)
    requires DictionaryOk(m) && ram == MinOf(RamList(m, cpu))
    ensures IsLeast(ram, m, cpu)
  {
    forall id | id in m.data && m.data[id].cpu == cpu ensures ram.Some? && ram.value <= m.data[id].ram {
      var i := ListedRam(m, cpu, id);
    }
    if ram.Some? {
      var i :| 0 <= i < |RamList(m, cpu)| && RamList(m, cpu)[i] == ram.value;
      var id := WorkerOfRam(m, cpu, i);
    }
  }

  lemma GreatestOf(m: Manager, cpu: bool, ram: Option<nat>)
    requires DictionaryOk(m) && ram == MaxOf(RamList(m, cpu))
    ensures IsGreatest(ram, m, cpu)
  {
    forall id | id in m.data && m.data[id].cpu == cpu ensures ram.Some? && m.data[id].ram <= ram.value {
      var i := ListedRam(m, cpu, id);
    }
    if ram.Some? {
      var i :| 0 <= i < |RamList(m, cpu)| && RamList(m, cpu)[i] == ram.value;
      var id := WorkerOfRam(m, cpu, i);
    }
  }

  /** The statistics are the least and the greatest RAM of the workers of each kind. */
  lemma StatsAreExtremes(m: Manager)
    requires DictionaryOk(m)
    ensures var m' := UpdateStats(m);
            && IsLeast(m'.minAny, m, true) && IsGreatest(m'.maxAny, m, true)
            && IsLeast(m'.minVcpu, m, false) && IsGreatest(m'.maxVcpu, m, false)
  {
    var m' := UpdateStats(m);
    LeastOf(m, true, m'.minAny);
    LeastOf(m, false, m'.minVcpu);
    GreatestOf(m, true, m'.maxAny);
    GreatestOf(m, false, m'.maxVcpu);
  }
}

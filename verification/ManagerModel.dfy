/** The state of the worker manager (workermanager.py:20-58) and the statistics it keeps. */
module ManagerModel {
  import opened Types
  import opened SortedSets
  import opened Matching

  /** What a worker announced when it connected, and what the manager believes it is running. */
  datatype WorkerData = WorkerData(concurrency: nat, ram: nat, cpu: bool, tasks: set<TaskId>, runningCpuExec: bool)

  /**
   `order` and `data` are the dictionary `workerData` in insertion order; `calls` is `deferreds`, with
   the worker each pending call was sent to.
   */
  datatype Manager = Manager(
    order: seq<WorkerId>,
    data: map<WorkerId, WorkerData>,
    calls: map<TaskId, WorkerId>,
    minAny: Option<nat>, maxAny: Option<nat>,
    minVcpu: Option<nat>, maxVcpu: Option<nat>)

  /** Workers of one kind, in dictionary order. */
  function IdsOf(order: seq<WorkerId>, data: map<WorkerId, WorkerData>, cpu: bool): (r: seq<WorkerId>)
    ensures forall id :: id in r <==> id in order && id in data && data[id].cpu == cpu
    ensures forall i | 0 <= i < |r| :: r[i] in data
    ensures Distinct(order) ==> Distinct(r)
  {
    if order == [] then []
    else
      var rest := IdsOf(order[1..], data, cpu);
      if order[0] in data && data[order[0]].cpu == cpu then [order[0]] + rest else rest
  }

  function TotalRam(m: Manager): map<WorkerId, nat> {
    map id | id in m.data :: m.data[id].ram
  }

  function MinOf(xs: seq<nat>): (r: Option<nat>)
    ensures r.None? <==> xs == []
    ensures r.Some? ==> r.value in xs && forall i | 0 <= i < |xs| :: r.value <= xs[i]
  {
    if xs == [] then None
    else match MinOf(xs[1..])
      case None => Some(xs[0])
      case Some(m) =>
        assert xs == [xs[0]] + xs[1..];
        Some(if xs[0] <= m then xs[0] else m)
  }

  function MaxOf(xs: seq<nat>): (r: Option<nat>)
    ensures r.None? <==> xs == []
    ensures r.Some? ==> r.value in xs && forall i | 0 <= i < |xs| :: xs[i] <= r.value
  {
    if xs == [] then None
    else match MaxOf(xs[1..])
      case None => Some(xs[0])
      case Some(m) =>
        assert xs == [xs[0]] + xs[1..];
        Some(if xs[0] >= m then xs[0] else m)
  }

  /** `_updateWorkerStats`. */
  function UpdateStats(m: Manager): Manager {
    var any := Rams(IdsOf(m.order, m.data, true), TotalRam(m));
    var vcpu := Rams(IdsOf(m.order, m.data, false), TotalRam(m));
    m.(minAny := MinOf(any), maxAny := MaxOf(any), minVcpu := MinOf(vcpu), maxVcpu := MaxOf(vcpu))
  }

  ghost predicate DictionaryOk(m: Manager) {
    Distinct(m.order) && Elements(m.order) == m.data.Keys
  }

  ghost predicate StatsOk(m: Manager) {
    m == UpdateStats(m)
  }

  // ----- the any-cpu workers and their total RAM

  ghost function AnyCpu(m: Manager): set<WorkerId> {
    set id | id in m.data && m.data[id].cpu
  }
}

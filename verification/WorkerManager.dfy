/** The worker manager as an object (workermanager.py:20-194). */
module WorkerManager {
  import opened Types
  import opened Matching
  import M = ManagerModel
  import opened ManagerSteps

  class Worker {
    const concurrency: nat
    const availableRam: nat
    const canRunCpuExec: bool
    var tasks: set<TaskId>
    var isRunningCpuExec: bool

    ghost function Model(): M.WorkerData
      reads this
    {
      M.WorkerData(concurrency, availableRam, canRunCpuExec, tasks, isRunningCpuExec)
    }

    constructor (slots: nat, ram: nat, cpu: bool)
      ensures Model() == M.WorkerData(slots, ram, cpu, {}, false)
    {
      concurrency, availableRam, canRunCpuExec := slots, ram, cpu;
      tasks, isRunningCpuExec := {}, false;
    }

    /** The task leaves; the flag for exclusive jobs is cleared in any case. */
    method Free(task: TaskId) returns (impossible: bool)
      modifies this
      ensures Model() == FreeSlot(old(Model()), task) && impossible == Impossible(old(Model()), task)
    {
      tasks := tasks - {task};
      impossible := isRunningCpuExec && tasks != {};
      isRunningCpuExec := false;
    }
  }

  type Workers = map<WorkerId, Worker>

  ghost predicate RecordsLink(ws: Workers, records: map<WorkerId, M.WorkerData>)
    reads ws.Values
  {
    ws.Keys == records.Keys && forall id | id in ws :: ws[id].Model() == records[id]
  }

  /** A pending call and the record of the worker it was sent to, as its callbacks captured them. */
  datatype Call = Call(worker: WorkerId, wd: Worker)

  ghost predicate CallsLink(deferreds: map<TaskId, Call>, ws: Workers, calls: map<TaskId, WorkerId>) {
    && deferreds.Keys == calls.Keys
    && (forall x | x in deferreds :: deferreds[x].worker == calls[x])
    && (forall x, id | x in deferreds && id in ws :: deferreds[x].wd == ws[id] <==> deferreds[x].worker == id)
  }

  lemma CallAdded(deferreds: map<TaskId, Call>, ws: Workers, calls: map<TaskId, WorkerId>, task: TaskId, id: WorkerId)
    requires CallsLink(deferreds, ws, calls) && id in ws
    requires forall a, b | a in ws && b in ws && a != b :: ws[a] != ws[b]
    ensures CallsLink(deferreds[task := Call(id, ws[id])], ws, calls[task := id])
  {
  }

  lemma CallRemoved(deferreds: map<TaskId, Call>, ws: Workers, calls: map<TaskId, WorkerId>, task: TaskId)
    requires CallsLink(deferreds, ws, calls)
    ensures CallsLink(deferreds - {task}, ws, calls - {task})
  {
  }

  lemma CallsWithout(deferreds: map<TaskId, Call>, ws: Workers, calls: map<TaskId, WorkerId>, id: WorkerId)
    requires CallsLink(deferreds, ws, calls)
    ensures CallsLink(deferreds, ws - {id}, calls)
  {
  }

  lemma CallsWith(deferreds: map<TaskId, Call>, ws: Workers, calls: map<TaskId, WorkerId>, id: WorkerId, wd: Worker)
    requires CallsLink(deferreds, ws, calls)
    requires forall x | x in deferreds :: deferreds[x].worker != id && deferreds[x].wd != wd
    ensures CallsLink(deferreds, ws[id := wd], calls)
  {
  }

  /** The RAM of the workers of one kind, in dictionary order. */
  function KindRams(order: seq<WorkerId>, data: map<WorkerId, M.WorkerData>, cpu: bool): seq<nat> {
    if order == [] then []
    else if order[0] in data && data[order[0]].cpu == cpu then [data[order[0]].ram] + KindRams(order[1..], data, cpu)
    else KindRams(order[1..], data, cpu)
  }

  lemma {:induction false} KindRamsAre(order: seq<WorkerId>, m: M.Manager, cpu: bool)
    ensures KindRams(order, m.data, cpu) == Rams(M.IdsOf(order, m.data, cpu), M.TotalRam(m))
  {
    if order != [] {
      KindRamsAre(order[1..], m, cpu);
      var rest := M.IdsOf(order[1..], m.data, cpu);
      if order[0] in m.data && m.data[order[0]].cpu == cpu {
        assert Rams([order[0]] + rest, M.TotalRam(m)) == [m.data[order[0]].ram] + Rams(rest, M.TotalRam(m));
      }
    }
  }

  lemma {:induction false} KindRamsAppend(order: seq<WorkerId>, id: WorkerId, data: map<WorkerId, M.WorkerData>,
                                          cpu: bool)
    requires id in data
    ensures KindRams(order + [id], data, cpu) == KindRams(order, data, cpu)
            + if data[id].cpu == cpu then [data[id].ram] else []
  {
    if order == [] {
      assert [id][1..] == [];
      assert KindRams([], data, cpu) == [];
    } else {
      assert (order + [id])[0] == order[0] && (order + [id])[1..] == order[1..] + [id];
      KindRamsAppend(order[1..], id, data, cpu);
    }
  }

  /** The statistics of `m` are those of its workers. */
  ghost predicate Current(m: M.Manager) {
    && m.minAny == M.MinOf(KindRams(m.order, m.data, true)) && m.maxAny == M.MaxOf(KindRams(m.order, m.data, true))
    && m.minVcpu == M.MinOf(KindRams(m.order, m.data, false)) && m.maxVcpu == M.MaxOf(KindRams(m.order, m.data, false))
  }

  lemma CurrentIs(m: M.Manager, m': M.Manager)
    requires Current(m') && m'.order == m.order && m'.data == m.data && m'.calls == m.calls
    ensures m' == M.UpdateStats(m)
  {
    KindRamsAre(m.order, m, true);
    KindRamsAre(m.order, m, false);
  }

  lemma RegisteredIs(m: M.Manager, m': M.Manager, id: WorkerId, concurrency: nat, ram: nat, cpu: bool)
    requires Current(m') && m'.order == m.order + [id] && m'.calls == m.calls
    requires m'.data == m.data[id := M.WorkerData(concurrency, ram, cpu, {}, false)]
    ensures m' == NewWorker(m, id, concurrency, ram, cpu)
  {
    CurrentIs(m.(order := m'.order, data := m'.data), m');
  }

  class WorkerManager {
    var order: seq<WorkerId>
    var workerData: Workers
    var deferreds: map<TaskId, Call>
    var minAnyCpuWorkerRam: Option<nat>
    var maxAnyCpuWorkerRam: Option<nat>
    var minVcpuOnlyWorkerRam: Option<nat>
    var maxVcpuOnlyWorkerRam: Option<nat>

    // The values of the objects above.
    ghost var records: map<WorkerId, M.WorkerData>
    ghost var calls: map<TaskId, WorkerId>

    ghost function Model(): M.Manager
      reads this
    {
      M.Manager(order, records, calls,
                minAnyCpuWorkerRam, maxAnyCpuWorkerRam, minVcpuOnlyWorkerRam, maxVcpuOnlyWorkerRam)
    }

    /** Workers have records of their own, and the call of a registered worker refers to its record. */
    ghost predicate Valid()
      reads this, workerData.Values
    {
      && RecordsLink(workerData, records) && CallsLink(deferreds, workerData, calls)
      && (forall i | 0 <= i < |order| :: order[i] in workerData)
      && (forall a, b | a in workerData && b in workerData && a != b :: workerData[a] != workerData[b])
    }

    constructor ()
      ensures Valid() && Model() == NO_WORKERS
    {
      order, workerData, deferreds, records, calls := [], map[], map[], map[], map[];
      minAnyCpuWorkerRam, maxAnyCpuWorkerRam, minVcpuOnlyWorkerRam, maxVcpuOnlyWorkerRam := None, None, None, None;
    }

    /** What is fixed about the workers agrees with their values. */
    ghost predicate Announced()
      reads this
    {
      && (forall i | 0 <= i < |order| :: order[i] in workerData)
      && (forall id | id in workerData ::
            id in records && workerData[id].availableRam == records[id].ram
            && workerData[id].canRunCpuExec == records[id].cpu)
    }

    method RamsOfKind(cpu: bool) returns (rams: seq<nat>)
      requires Announced()
      ensures rams == KindRams(order, records, cpu)
    {
      rams := [];
      for i := 0 to |order|
        invariant rams == KindRams(order[..i], records, cpu)
      {
        var wd := workerData[order[i]];
        if wd.canRunCpuExec == cpu {
          rams := rams + [wd.availableRam];
        }
        assert order[..i + 1] == order[..i] + [order[i]];
        KindRamsAppend(order[..i], order[i], records, cpu);
      }
      assert order[..|order|] == order;
    }

    /** `_updateWorkerStats`. */
    method UpdateWorkerStats()
      requires Valid()
      modifies `minAnyCpuWorkerRam, `maxAnyCpuWorkerRam, `minVcpuOnlyWorkerRam, `maxVcpuOnlyWorkerRam
      ensures Valid() && Current(Model())
    {
      var anyCpusRam := RamsOfKind(true);
      var vcpuOnlysRam := RamsOfKind(false);
      minAnyCpuWorkerRam := M.MinOf(anyCpusRam);
      maxAnyCpuWorkerRam := M.MaxOf(anyCpusRam);
      minVcpuOnlyWorkerRam := M.MinOf(vcpuOnlysRam);
      maxVcpuOnlyWorkerRam := M.MaxOf(vcpuOnlysRam);
      assert Model().order == order && Model().data == records;
    }

    /** `newWorker`, once the worker has said that it is running nothing. */
    method Register(id: WorkerId, concurrency: nat, ram: nat, cpu: bool)
      requires Valid() && id !in workerData && forall x | x in deferreds :: deferreds[x].worker != id
      modifies `order, `workerData, `records, `minAnyCpuWorkerRam, `maxAnyCpuWorkerRam, `minVcpuOnlyWorkerRam,
               `maxVcpuOnlyWorkerRam
      ensures Valid() && Model() == NewWorker(old(Model()), id, concurrency, ram, cpu)
      ensures id in workerData && fresh(workerData[id]) && workerData == old(workerData)[id := workerData[id]]
    {
      var worker := new Worker(concurrency, ram, cpu);
      AddRecord(id, worker);
      UpdateWorkerStats();
      RegisteredIs(old(Model()), Model(), id, concurrency, ram, cpu);
    }

    method AddRecord(id: WorkerId, worker: Worker)
      requires Valid() && id !in workerData
      requires forall x | x in deferreds :: deferreds[x].worker != id && deferreds[x].wd != worker
      requires worker !in workerData.Values
      modifies `order, `workerData, `records
      ensures Valid() && workerData == old(workerData)[id := worker]
      ensures order == old(order) + [id] && records == old(records)[id := worker.Model()]
    {
      assert forall a | a in workerData :: workerData[a] in workerData.Values;
      CallsWith(deferreds, workerData, calls, id, worker);
      workerData := workerData[id := worker];
      records := records[id := worker.Model()];
      order := order + [id];
    }

    /** `workerLost`, up to the callbacks of its calls; the record is returned for them. */
    method ForgetWorker(id: WorkerId) returns (wd: Worker)
      requires Valid() && id in workerData
      modifies `order, `workerData, `records
      ensures Valid() && Model() == Forget(old(Model()), id)
      ensures wd == old(workerData[id]) && workerData == old(workerData) - {id}
    {
      wd := workerData[id];
      CallsWithout(deferreds, workerData, calls, id);
      workerData := workerData - {id};
      records := records - {id};
      var rest := Without(order, id);
      forall i | 0 <= i < |rest| ensures rest[i] in workerData { assert rest[i] in rest; }
      order := rest;
    }

    /** `runOnWorker`, up to the call. */
    method RunTask(id: WorkerId, task: TaskId, realCpu: bool) returns (error: Option<RunError>)
      requires Valid()
      modifies `deferreds, `records, `calls, workerData.Values
      ensures Valid()
      ensures match RunOnWorker(old(Model()), id, task, realCpu)
              case Sent(m) => error == None && Model() == m
              case Refused(e) => error == Some(e) && Model() == old(Model())
    {
      if id !in workerData { return Some(UnknownWorker); }
      var wd := workerData[id];
      if wd.isRunningCpuExec { return Some(CpuExecRunning); }
      if |wd.tasks| >= wd.concurrency { return Some(FullyLoaded); }
      if realCpu {
        if wd.tasks != {} { return Some(WorkerBusy); }
        if !wd.canRunCpuExec { return Some(CpuExecNotAllowed); }
      }
      Occupy(wd, id, task, realCpu);
      return None;
    }

    /** The call is made and the worker's record says so. */
    method Occupy(wd: Worker, id: WorkerId, task: TaskId, realCpu: bool)
      requires Valid() && id in workerData && workerData[id] == wd && !wd.isRunningCpuExec
      modifies `deferreds, `records, `calls, wd
      ensures Valid() && calls == old(calls)[task := id] && id in old(records)
      ensures records == old(records)[id := old(records)[id].(tasks := old(records)[id].tasks + {task},
                                                              runningCpuExec := realCpu)]
    {
      Enter(wd, id, task, realCpu);
      CallAdded(deferreds, workerData, calls, task, id);
      deferreds := deferreds[task := Call(id, wd)];
      calls := calls[task := id];
    }

    method Enter(wd: Worker, id: WorkerId, task: TaskId, realCpu: bool)
      requires Valid() && id in workerData && workerData[id] == wd && !wd.isRunningCpuExec
      modifies `records, wd
      ensures Valid() && id in old(records)
      ensures records == old(records)[id := old(records)[id].(tasks := old(records)[id].tasks + {task},
                                                              runningCpuExec := realCpu)]
    {
      if realCpu {
        wd.isRunningCpuExec := true;
      }
      wd.tasks := wd.tasks + {task};
      records := records[id := wd.Model()];
    }

    /** `_free`. The record may belong to a worker that is gone. */
    method FreeTask(task: TaskId) returns (impossible: bool)
      requires Valid() && task in deferreds
      modifies `deferreds, `records, `calls, deferreds[task].wd
      ensures Valid() && deferreds == old(deferreds) - {task}
      ensures Model() == Free(old(Model()), task)
      ensures impossible == Impossible(old(deferreds[task].wd.Model()), task)
      ensures old(deferreds[task].wd).Model() == FreeSlot(old(deferreds[task].wd.Model()), task)
    {
      impossible := Release(deferreds[task].wd, deferreds[task].worker, task);
      CallRemoved(deferreds, workerData, calls, task);
      deferreds := deferreds - {task};
      calls := calls - {task};
    }

    method Release(wd: Worker, id: WorkerId, task: TaskId) returns (impossible: bool)
      requires Valid() && task in deferreds && deferreds[task] == Call(id, wd)
      modifies `records, wd
      ensures Valid()
      ensures records == (if id in old(records) then old(records)[id := FreeSlot(old(records)[id], task)]
                          else old(records))
      ensures impossible == Impossible(old(wd.Model()), task) && wd.Model() == FreeSlot(old(wd.Model()), task)
    {
      assert forall k | k in workerData :: workerData[k] == wd <==> k == id;
      impossible := wd.Free(task);
      if id in records { records := records[id := wd.Model()]; }
    }
  }

  lemma ValidAnnounced(m: WorkerManager)
    requires m.Valid()
    ensures m.Announced()
  {
  }

  /** Where nothing of the manager is written, its value is what it was. */
  twostate lemma Kept(m: WorkerManager)
    requires old(m.Announced()) && unchanged(m)
    ensures m.Announced() && m.Model() == old(m.Model())
  {
  }

  /** Where neither the manager nor its records are written, they stay consistent. */
  twostate lemma Untouched(m: WorkerManager)
    requires old(m.Valid()) && unchanged(m) && unchanged(m.workerData.Values)
    ensures m.Valid() && m.Model() == old(m.Model())
  {
  }
}

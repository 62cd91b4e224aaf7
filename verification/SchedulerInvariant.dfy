/** Every operation of the scheduler keeps the invariant, and every lookup in an index succeeds. */
module SchedulerInvariant {
  import opened Types
  import opened SortedSets
  import opened TaskQueues
  import opened SchedulerState

  // ----- worker queues

  lemma KeysOfInsert(kind: Kind, ws: Workers, q: seq<WorkerId>, p: nat, id: WorkerId)
    requires p <= |q| && id in ws
    ensures QueueKeys(kind, ws, InsertAt(q, p, id)) == InsertAt(QueueKeys(kind, ws, q), p, WorkerKey(kind, ws[id]))
  {
  }

  lemma KeysOfRemove(kind: Kind, ws: Workers, q: seq<WorkerId>, p: nat)
    requires p < |q|
    ensures QueueKeys(kind, ws, RemoveAt(q, p)) == RemoveAt(QueueKeys(kind, ws, q), p)
  {
  }

  ghost predicate KeysOk(kind: Kind, ws: Workers, q: seq<WorkerId>) {
    (forall id | id in q :: id in ws) && Increasing(QueueKeys(kind, ws, q))
  }

  /** `SortedSet.remove` finds the worker: its key has not changed since it was queued. */
  lemma RemoveWorkerFinds(kind: Kind, ws: Workers, q: seq<WorkerId>, id: WorkerId)
    requires KeysOk(kind, ws, q) && id in q
    ensures var p := Position(QueueKeys(kind, ws, q), WorkerKey(kind, ws[id])); p < |q| && q[p] == id
  {
    var i :| 0 <= i < |q| && q[i] == id;
    PositionFinds(QueueKeys(kind, ws, q), i);
  }

  lemma RemoveWorkerOk(kind: Kind, ws: Workers, q: seq<WorkerId>, id: WorkerId)
    requires KeysOk(kind, ws, q) && id in q
    ensures KeysOk(kind, ws, RemoveWorker(kind, ws, q, id))
    ensures forall x :: x in RemoveWorker(kind, ws, q, id) <==> x in q && x != id
  {
    RemoveWorkerFinds(kind, ws, q, id);
    var p := Position(QueueKeys(kind, ws, q), WorkerKey(kind, ws[id]));
    KeysOfRemove(kind, ws, q, p);
    RemoveKeepsIncreasing(QueueKeys(kind, ws, q), p);
    forall i, j | 0 <= i < j < |q| ensures q[i] != q[j] {
      assert Less(QueueKeys(kind, ws, q)[i], QueueKeys(kind, ws, q)[j]);
      assert q[i] in ws && q[j] in ws;
    }
    RemoveAtMembers(q, p);
  }

  lemma InsertWorkerOk(kind: Kind, ws: Workers, q: seq<WorkerId>, id: WorkerId)
    requires KeysOk(kind, ws, q) && id in ws && id !in q && WorkersOk(ws)
    ensures KeysOk(kind, ws, InsertWorker(kind, ws, q, id))
    ensures forall x :: x in InsertWorker(kind, ws, q, id) <==> x in q || x == id
  {
    var keys, key := QueueKeys(kind, ws, q), WorkerKey(kind, ws[id]);
    forall i | 0 <= i < |keys| ensures keys[i] != key {
      assert q[i] in q;
      assert keys[i] == WorkerKey(kind, ws[q[i]]);
    }
    KeysOfInsert(kind, ws, q, Position(keys, key), id);
    InsertKeepsIncreasing(keys, key);
    InsertAtMembers(q, Position(keys, key), id);
  }

  /** The effect of `ChangeWorker` on one of the queues. */
  function Reindexed(kind: Kind, ws: Workers, q: seq<WorkerId>, id: WorkerId, w: Worker): seq<WorkerId>
    requires id in ws
  {
    var out := if ws[id].Queue() == Some(kind) then RemoveWorker(kind, ws, q, id) else q;
    if w.Queue() == Some(kind) then InsertWorker(kind, ws[id := w], out, id) else out
  }

  lemma KeysElsewhere(kind: Kind, ws: Workers, ws': Workers, q: seq<WorkerId>)
    requires KeysOk(kind, ws, q) && forall id | id in q :: id in ws' && ws'[id] == ws[id]
    ensures KeysOk(kind, ws', q)
  {
    assert QueueKeys(kind, ws', q) == QueueKeys(kind, ws, q) by {
      forall i | 0 <= i < |q| ensures q[i] in ws && q[i] in ws' && ws'[q[i]] == ws[q[i]] { assert q[i] in q; }
    }
  }

  /** The changed worker goes back into its queue, if it still has a free slot. */
  lemma PutBackOk(kind: Kind, ws: Workers, out: seq<WorkerId>, id: WorkerId, w: Worker)
    requires WorkersOk(ws[id := w]) && KeysOk(kind, ws, out)
    requires forall x :: x in out <==> x in ws && x != id && ws[x].Queue() == Some(kind)
    ensures IndexOk(kind, ws[id := w],
                    if w.Queue() == Some(kind) then InsertWorker(kind, ws[id := w], out, id) else out)
  {
    KeysElsewhere(kind, ws, ws[id := w], out);
    if w.Queue() == Some(kind) { InsertWorkerOk(kind, ws[id := w], out, id); }
  }

  lemma ReindexedOk(kind: Kind, ws: Workers, q: seq<WorkerId>, id: WorkerId, w: Worker)
    requires WorkersOk(ws[id := w]) && id in ws && IndexOk(kind, ws, q)
    ensures IndexOk(kind, ws[id := w], Reindexed(kind, ws, q, id, w))
  {
    if ws[id].Queue() == Some(kind) {
      RemoveWorkerOk(kind, ws, q, id);
      PutBackOk(kind, ws, RemoveWorker(kind, ws, q, id), id, w);
    } else {
      PutBackOk(kind, ws, q, id, w);
    }
  }

  lemma ChangeWorkerIs(s: State, id: WorkerId, w: Worker)
    requires id in s.workers
    ensures ChangeWorker(s, id, w) ==
            s.(workers := s.workers[id := w],
               anyCpu := Reindexed(AnyCpuKind, s.workers, s.anyCpu, id, w),
               vcpuOnly := Reindexed(VcpuOnlyKind, s.workers, s.vcpuOnly, id, w))
  {
    var out := RemoveWorkerFromQueue(s, id);
    RemoveIs(s, id);
    InsertIs(out.(workers := s.workers[id := w]), id);
  }

  lemma RemoveIs(s: State, id: WorkerId)
    requires id in s.workers
    ensures RemoveWorkerFromQueue(s, id) ==
            s.(anyCpu := if s.workers[id].Queue() == Some(AnyCpuKind)
                         then RemoveWorker(AnyCpuKind, s.workers, s.anyCpu, id) else s.anyCpu,
               vcpuOnly := if s.workers[id].Queue() == Some(VcpuOnlyKind)
                           then RemoveWorker(VcpuOnlyKind, s.workers, s.vcpuOnly, id) else s.vcpuOnly)
  {
  }

  lemma InsertIs(s: State, id: WorkerId)
    requires id in s.workers
    ensures InsertWorkerToQueue(s, id) ==
            s.(anyCpu := if s.workers[id].Queue() == Some(AnyCpuKind)
                         then InsertWorker(AnyCpuKind, s.workers, s.anyCpu, id) else s.anyCpu,
               vcpuOnly := if s.workers[id].Queue() == Some(VcpuOnlyKind)
                           then InsertWorker(VcpuOnlyKind, s.workers, s.vcpuOnly, id) else s.vcpuOnly)
  {
  }

  lemma ChangeWorkerIndexes(s: State, id: WorkerId, w: Worker)
    requires IndexesOk(s) && id in s.workers
    requires w.id == id && w.concurrency > 0 && w.totalRam > 0
    ensures IndexesOk(ChangeWorker(s, id, w))
  {
    ChangeWorkerIs(s, id, w);
    ReindexedOk(AnyCpuKind, s.workers, s.anyCpu, id, w);
    ReindexedOk(VcpuOnlyKind, s.workers, s.vcpuOnly, id, w);
  }

  lemma AddedIndex(kind: Kind, ws: Workers, q: seq<WorkerId>, id: WorkerId, w: Worker)
    requires WorkersOk(ws[id := w]) && IndexOk(kind, ws, q) && id !in ws
    ensures var q' := if w.Queue() == Some(kind) then InsertWorker(kind, ws[id := w], q, id) else q;
            IndexOk(kind, ws[id := w], q')
  {
    KeysElsewhere(kind, ws, ws[id := w], q);
    if w.Queue() == Some(kind) { InsertWorkerOk(kind, ws[id := w], q, id); }
  }

  lemma RemovedIndex(kind: Kind, ws: Workers, q: seq<WorkerId>, id: WorkerId)
    requires IndexOk(kind, ws, q) && id in ws
    ensures var q' := if ws[id].Queue() == Some(kind) then RemoveWorker(kind, ws, q, id) else q;
            IndexOk(kind, ws - {id}, q')
  {
    var q' := if ws[id].Queue() == Some(kind) then RemoveWorker(kind, ws, q, id) else q;
    if ws[id].Queue() == Some(kind) { RemoveWorkerOk(kind, ws, q, id); }
    KeysElsewhere(kind, ws, ws - {id}, q');
  }

  // ----- worker counters

  lemma {:induction false} RamSumTake(on: set<TaskId>, tasks: map<TaskId, Task>, y: TaskId)
    requires on <= tasks.Keys && y in on
    ensures RamSum(on, tasks) == tasks[y].ram + RamSum(on - {y}, tasks)
    decreases on
  {
    var x: TaskId :| x in on && RamSum(on, tasks) == tasks[x].ram + RamSum(on - {x}, tasks);
    if x != y {
      RamSumTake(on - {x}, tasks, y);
      RamSumTake(on - {y}, tasks, x);
      assert on - {x} - {y} == on - {y} - {x};
    }
  }

  lemma {:induction false} RamSumSame(on: set<TaskId>, tasks: map<TaskId, Task>, tasks': map<TaskId, Task>)
    requires on <= tasks.Keys && on <= tasks'.Keys && forall x | x in on :: tasks[x] == tasks'[x]
    ensures RamSum(on, tasks) == RamSum(on, tasks')
    decreases on
  {
    if on != {} {
      var x: TaskId :| x in on;
      RamSumTake(on, tasks, x);
      RamSumTake(on, tasks', x);
      RamSumSame(on - {x}, tasks, tasks');
    }
  }

  lemma LoadSame(w: Worker, tasks: map<TaskId, Task>, tasks': map<TaskId, Task>, on: set<TaskId>)
    requires WorkerLoad(w, tasks, on) && on <= tasks'.Keys && forall x | x in on :: tasks[x] == tasks'[x]
    ensures WorkerLoad(w, tasks', on)
  {
    RamSumSame(on, tasks, tasks');
  }

  lemma AttachLoad(w: Worker, tasks: map<TaskId, Task>, on: set<TaskId>, t: Task)
    requires WorkerLoad(w, tasks, on) && t.id in tasks && tasks[t.id] == t && t.id !in on && w.CanAttach(t)
    ensures WorkerLoad(w.Attach(t), tasks, on + {t.id})
  {
    RamSumTake(on + {t.id}, tasks, t.id);
    assert on + {t.id} - {t.id} == on;
    if t.realCpu { assert on == {} && on + {t.id} == {t.id}; }
  }

  lemma LoadCanDetach(w: Worker, tasks: map<TaskId, Task>, on: set<TaskId>, t: Task)
    requires WorkerLoad(w, tasks, on) && t.id in on && tasks[t.id] == t
    ensures w.CanDetach(t)
  {
    RamSumTake(on, tasks, t.id);
    assert |on - {t.id}| == |on| - 1;
  }

  lemma DetachLoad(w: Worker, tasks: map<TaskId, Task>, on: set<TaskId>, t: Task)
    requires WorkerLoad(w, tasks, on) && t.id in on && tasks[t.id] == t
    ensures w.CanDetach(t) && WorkerLoad(w.Detach(t), tasks, on - {t.id})
  {
    LoadCanDetach(w, tasks, on, t);
    RamSumTake(on, tasks, t.id);
    assert |on - {t.id}| == |on| - 1;
  }

  lemma LoadOkTasks(ws: Workers, tasks: map<TaskId, Task>, tasks': map<TaskId, Task>, runsOn: map<TaskId, WorkerId>)
    requires LoadOk(ws, tasks, runsOn)
    requires forall x | x in runsOn :: x in tasks' && tasks[x] == tasks'[x]
    ensures LoadOk(ws, tasks', runsOn)
  {
    forall id | id in ws ensures WorkerLoad(ws[id], tasks', On(runsOn, id)) {
      LoadSame(ws[id], tasks, tasks', On(runsOn, id));
    }
  }

  lemma AttachLoadOk(ws: Workers, tasks: map<TaskId, Task>, runsOn: map<TaskId, WorkerId>, t: Task, id: WorkerId)
    requires LoadOk(ws, tasks, runsOn) && id in ws
    requires t.id in tasks && tasks[t.id] == t && t.id !in runsOn && ws[id].CanAttach(t)
    ensures LoadOk(ws[id := ws[id].Attach(t)], tasks, runsOn[t.id := id])
  {
    var ws', runsOn' := ws[id := ws[id].Attach(t)], runsOn[t.id := id];
    forall k | k in ws' ensures WorkerLoad(ws'[k], tasks, On(runsOn', k)) {
      assert WorkerLoad(ws[k], tasks, On(runsOn, k));
      OnAfterAttach(runsOn, t.id, id, k);
      if k == id { AttachLoad(ws[id], tasks, On(runsOn, id), t); }
    }
  }

  lemma OnAfterAttach(runsOn: map<TaskId, WorkerId>, x: TaskId, id: WorkerId, k: WorkerId)
    requires x !in runsOn
    ensures On(runsOn[x := id], k) == if k == id then On(runsOn, k) + {x} else On(runsOn, k)
  {
  }

  lemma DetachLoadOk(ws: Workers, tasks: map<TaskId, Task>, runsOn: map<TaskId, WorkerId>, t: Task)
    requires LoadOk(ws, tasks, runsOn) && t.id in runsOn && tasks[t.id] == t
    ensures ws[runsOn[t.id]].CanDetach(t)
    ensures LoadOk(ws[runsOn[t.id] := ws[runsOn[t.id]].Detach(t)], tasks, runsOn - {t.id})
  {
    var id := runsOn[t.id];
    assert WorkerLoad(ws[id], tasks, On(runsOn, id)) && t.id in On(runsOn, id);
    DetachLoad(ws[id], tasks, On(runsOn, id), t);
    var ws', runsOn' := ws[id := ws[id].Detach(t)], runsOn - {t.id};
    forall k | k in ws' ensures WorkerLoad(ws'[k], tasks, On(runsOn', k)) {
      assert WorkerLoad(ws[k], tasks, On(runsOn, k));
      if k == id {
        assert On(runsOn', id) == On(runsOn, id) - {t.id};
      } else {
        assert On(runsOn', k) == On(runsOn, k);
      }
    }
  }

  // ----- the waiting queue

  lemma AddWaitingOk(waiting: seq<Task>, ram: seq<nat>, t: Task)
    requires WaitingOk(waiting, ram) && t !in waiting
    ensures WaitingOk(waiting + [t], SortedAdd(ram, t.ram))
  {
    SortedAddKeeps(ram, t.ram);
    SortedAddMembers(ram, t.ram);
    assert RamsOfTasks(waiting + [t]) == RamsOfTasks(waiting) + [t.ram];
  }

  lemma {:induction false} RemoveFromMembers(ts: seq<Task>, t: Task)
    requires (forall i, j | 0 <= i < j < |ts| :: ts[i] != ts[j]) && t in ts
    ensures var r := RemoveFrom(ts, t);
            && (forall u :: u in r <==> u in ts && u != t)
            && (forall i, j | 0 <= i < j < |r| :: r[i] != r[j])
  {
    if ts[0] == t {
      forall u | u in ts[1..] ensures u != t {
        var k :| 0 <= k < |ts[1..]| && ts[1..][k] == u;
        assert ts[0] != ts[k + 1];
      }
    } else {
      RemoveFromMembers(ts[1..], t);
      var rest := RemoveFrom(ts[1..], t);
      forall u | u in rest ensures u != ts[0] {
        assert u in ts[1..];
        var k :| 0 <= k < |ts[1..]| && ts[1..][k] == u;
        assert ts[0] != ts[k + 1];
      }
      forall j | 0 <= j < |rest| ensures rest[j] != ts[0] { assert rest[j] in rest; }
    }
  }

  lemma ConsRams(t: Task, ts: seq<Task>)
    ensures RamsOfTasks([t] + ts) == [t.ram] + RamsOfTasks(ts)
  {
  }

  lemma {:induction false} RemoveFromRams(ts: seq<Task>, t: Task)
    requires t in ts
    ensures multiset(RamsOfTasks(RemoveFrom(ts, t))) == multiset(RamsOfTasks(ts)) - multiset{t.ram}
  {
    ConsRams(ts[0], ts[1..]);
    assert ts == [ts[0]] + ts[1..];
    if ts[0] != t {
      var rest := RemoveFrom(ts[1..], t);
      RemoveFromRams(ts[1..], t);
      ConsRams(ts[0], rest);
      var k :| 0 <= k < |ts[1..]| && ts[1..][k] == t;
      assert RamsOfTasks(ts[1..])[k] == t.ram;
    }
  }

  lemma RemoveWaitingOk(waiting: seq<Task>, ram: seq<nat>, t: Task)
    requires WaitingOk(waiting, ram) && t in waiting
    ensures WaitingOk(RemoveFrom(waiting, t), SortedDiscard(ram, t.ram))
    ensures forall u :: u in RemoveFrom(waiting, t) <==> u in waiting && u != t
  {
    RemoveFromMembers(waiting, t);
    RemoveFromRams(waiting, t);
    SortedDiscardKeeps(ram, t.ram);
    SortedDiscardMembers(ram, t.ram);
  }

  // ----- operations that come from outside

  lemma InitialInv()
    ensures Inv(INITIAL)
  {
  }

  lemma UpdateContestInv(s: State, c: ContestId, priority: int, weight: nat)
    requires Inv(s) && weight >= 1
    ensures Inv(UpdateContest(s, c, priority, weight))
  {
  }

  lemma AddWorkerLoad(ws: Workers, tasks: map<TaskId, Task>, runsOn: map<TaskId, WorkerId>, w: Worker)
    requires LoadOk(ws, tasks, runsOn) && w.id !in ws
    requires w.running == 0 && w.usedRam == 0 && !w.realBusy
    ensures LoadOk(ws[w.id := w], tasks, runsOn)
  {
    assert On(runsOn, w.id) == {};
  }

  lemma AddWorkerInv(s: State, id: WorkerId, concurrency: nat, ram: nat, cpu: bool)
    requires Inv(s) && id !in s.workers && concurrency > 0 && ram > 0
    ensures Inv(AddWorker(s, id, concurrency, ram, cpu))
  {
    var w := Worker(id, concurrency, ram, cpu, false, 0, 0);
    AddedIndex(AnyCpuKind, s.workers, s.anyCpu, id, w);
    AddedIndex(VcpuOnlyKind, s.workers, s.vcpuOnly, id, w);
    AddWorkerLoad(s.workers, s.tasks, s.runsOn, w);
  }

  lemma AddWorkerIs(s: State, id: WorkerId, concurrency: nat, ram: nat, cpu: bool)
    ensures var s' := AddWorker(s, id, concurrency, ram, cpu);
            s' == s.(workers := s.workers[id := Worker(id, concurrency, ram, cpu, false, 0, 0)],
                     anyCpu := s'.anyCpu, vcpuOnly := s'.vcpuOnly)
  {
  }

  lemma DelWorkerIs(s: State, id: WorkerId)
    requires id in s.workers
    ensures var s' := DelWorker(s, id);
            s' == s.(workers := s.workers - {id}, anyCpu := s'.anyCpu, vcpuOnly := s'.vcpuOnly)
  {
  }

  lemma DelWorkerLoad(ws: Workers, tasks: map<TaskId, Task>, runsOn: map<TaskId, WorkerId>, id: WorkerId)
    requires LoadOk(ws, tasks, runsOn) && id in ws && ws[id].running == 0
    ensures LoadOk(ws - {id}, tasks, runsOn)
  {
    assert On(runsOn, id) == {};
    assert forall x | x in runsOn :: x in On(runsOn, runsOn[x]);
  }

  lemma DelWorkerInv(s: State, id: WorkerId)
    requires Inv(s) && id in s.workers && s.workers[id].running == 0
    ensures Inv(DelWorker(s, id))
  {
    RemovedIndex(AnyCpuKind, s.workers, s.anyCpu, id);
    RemovedIndex(VcpuOnlyKind, s.workers, s.vcpuOnly, id);
    DelWorkerLoad(s.workers, s.tasks, s.runsOn, id);
  }

  lemma QueueTaskOk(s: State, t: Task)
    requires TaskIndexOk(s.virtualQ, s.bothQ, s.contests)
    requires t.contest in s.contests && s.contests[t.contest].weight >= 1
    requires forall u | u in Content(s.bothQ) :: u.sequence != t.sequence
    ensures var s' := AddTaskToQueues(s, t);
            TaskIndexOk(s'.virtualQ, s'.bothQ, s.contests) && Content(s'.bothQ) == Content(s.bothQ) + {t}
  {
    EnqueueOk(s.bothQ, t);
    EntriesStayWeighted(s.bothQ, s.contests, t);
    EntriesStayWeighted(s.virtualQ, s.contests, t);
    if !t.realCpu { EnqueueOk(s.virtualQ, t); }
  }

  lemma UnqueueTaskOk(s: State, t: Task)
    requires TaskIndexOk(s.virtualQ, s.bothQ, s.contests) && t in Content(s.bothQ)
    requires t.contest in s.contests && s.contests[t.contest].weight >= 1
    ensures var s' := RemoveTaskFromQueues(s, t);
            TaskIndexOk(s'.virtualQ, s'.bothQ, s.contests) && Content(s'.bothQ) == Content(s.bothQ) - {t}
  {
    DequeueOk(s.bothQ, t);
    EntriesStayWeighted(s.bothQ, s.contests, t);
    VirtualMinus(Content(s.bothQ), t);
    if !t.realCpu {
      DequeueOk(s.virtualQ, t);
      EntriesStayWeighted(s.virtualQ, s.contests, t);
    }
  }

  lemma VirtualMinus(ts: set<Task>, t: Task)
    ensures VirtualTasks(ts - {t}) == VirtualTasks(ts) - {t}
    ensures t.realCpu ==> VirtualTasks(ts) - {t} == VirtualTasks(ts)
  {
  }

  lemma AddPlace(tasks: map<TaskId, Task>, runsOn: map<TaskId, WorkerId>, waiting: seq<Task>, queued: set<Task>,
                 t: Task)
    requires PlacesOk(tasks, runsOn, waiting, queued) && t.id !in tasks && t.id !in runsOn
    ensures PlacesOk(tasks[t.id := t], runsOn, waiting, queued + {t})
  {
  }

  lemma AddTaskIs(s: State, job: Job, c: ContestId)
    ensures var t, s' := NewTask(s, job, c), AddTask(s, job, c);
            s' == s.(tasks := s.tasks[t.id := t], lastSequence := s.lastSequence + 1,
                     virtualQ := s'.virtualQ, bothQ := s'.bothQ)
  {
  }

  lemma AddKnown(tasks: map<TaskId, Task>, contests: Contests, last: int, t: Task)
    requires TasksOk(tasks, contests, last) && t.contest in contests && t.sequence == last + 1
    ensures TasksOk(tasks[t.id := t], contests, last + 1)
  {
  }

  lemma DropKnown(tasks: map<TaskId, Task>, contests: Contests, last: int, x: TaskId)
    requires TasksOk(tasks, contests, last)
    ensures TasksOk(tasks - {x}, contests, last)
  {
  }

  lemma QueuedSequences(s: State)
    requires Inv(s)
    ensures forall u | u in Content(s.bothQ) :: u.sequence <= s.lastSequence && u.contest in s.contests
    ensures forall c | c in s.contests :: s.contests[c].weight >= 1
  {
  }

  lemma AddTaskInv(s: State, job: Job, c: ContestId)
    requires Inv(s) && c in s.contests && job.id !in s.tasks
    ensures Inv(AddTask(s, job, c))
  {
    var t := NewTask(s, job, c);
    QueuedSequences(s);
    QueueTaskOk(s, t);
    AddKnown(s.tasks, s.contests, s.lastSequence, t);
    LoadOkTasks(s.workers, s.tasks, s.tasks[t.id := t], s.runsOn);
    AddPlace(s.tasks, s.runsOn, s.waiting, Content(s.bothQ), t);
  }

  lemma DropPlace(tasks: map<TaskId, Task>, runsOn: map<TaskId, WorkerId>, waiting: seq<Task>, waiting': seq<Task>,
                  queued: set<Task>, x: TaskId)
    requires PlacesOk(tasks, runsOn, waiting, queued) && NamesOk(tasks) && x in tasks
    requires forall u :: u in waiting' <==> u in waiting && u != tasks[x]
    ensures PlacesOk(tasks - {x}, runsOn - {x}, waiting', queued - {tasks[x]})
  {
  }

  /** What is left to check when a task is forgotten. */
  lemma ForgetTask(s: State, s': State, id: TaskId)
    requires Inv(s) && id in s.tasks
    requires s'.tasks == s.tasks - {id} && s'.runsOn == s.runsOn - {id}
    requires s'.contests == s.contests && s'.lastSequence == s.lastSequence
    requires IndexesOk(s') && LoadOk(s'.workers, s.tasks, s'.runsOn)
    requires TaskIndexOk(s'.virtualQ, s'.bothQ, s'.contests) && Content(s'.bothQ) == Content(s.bothQ) - {s.tasks[id]}
    requires WaitingOk(s'.waiting, s'.waitingRam)
    requires forall u :: u in s'.waiting <==> u in s.waiting && u != s.tasks[id]
    ensures Inv(s')
  {
    assert LoadOk(s'.workers, s'.tasks, s'.runsOn) by { LoadOkTasks(s'.workers, s.tasks, s'.tasks, s'.runsOn); }
    assert TasksOk(s'.tasks, s'.contests, s'.lastSequence) by { DropKnown(s.tasks, s.contests, s.lastSequence, id); }
    assert PlacesOk(s'.tasks, s'.runsOn, s'.waiting, Content(s'.bothQ)) by {
      DropPlace(s.tasks, s.runsOn, s.waiting, s'.waiting, Content(s.bothQ), id);
    }
  }

  lemma DelAttachedIs(s: State, id: TaskId)
    requires Inv(s) && id in s.runsOn
    ensures s.workers[s.runsOn[id]].CanDetach(s.tasks[id])
    ensures var t, w, s' := s.tasks[id], s.runsOn[id], DelTask(s, id);
            && s' == s.(tasks := s.tasks - {id}, runsOn := s.runsOn - {id},
                        workers := s.workers[w := s.workers[w].Detach(t)], anyCpu := s'.anyCpu, vcpuOnly := s'.vcpuOnly)
            && IndexesOk(s') && LoadOk(s'.workers, s.tasks, s'.runsOn)
  {
    var t, w := s.tasks[id], s.runsOn[id];
    DetachLoadOk(s.workers, s.tasks, s.runsOn, t);
    var rest := s.(tasks := s.tasks - {id}, runsOn := s.runsOn - {id});
    ChangeWorkerIs(rest, w, s.workers[w].Detach(t));
    ChangeWorkerIndexes(rest, w, s.workers[w].Detach(t));
  }

  lemma AttachedElsewhere(tasks: map<TaskId, Task>, runsOn: map<TaskId, WorkerId>, waiting: seq<Task>,
                          queued: set<Task>, id: TaskId)
    requires PlacesOk(tasks, runsOn, waiting, queued) && NamesOk(tasks) && id in runsOn && id in tasks
    ensures queued - {tasks[id]} == queued && tasks[id] !in waiting
  {
    assert tasks[id] !in queued;
  }

  lemma DelAttachedInv(s: State, id: TaskId)
    requires Inv(s) && id in s.runsOn
    ensures s.workers[s.runsOn[id]].CanDetach(s.tasks[id]) && Inv(DelTask(s, id))
  {
    DelAttachedIs(s, id);
    assert Content(s.bothQ) - {s.tasks[id]} == Content(s.bothQ) && s.tasks[id] !in s.waiting by {
      AttachedElsewhere(s.tasks, s.runsOn, s.waiting, Content(s.bothQ), id);
    }
    ForgetTask(s, DelTask(s, id), id);
  }

  lemma DelWaitingInv(s: State, id: TaskId)
    requires Inv(s) && id in s.tasks && id !in s.runsOn && s.tasks[id] in s.waiting
    ensures Inv(DelTask(s, id))
  {
    RemoveWaitingOk(s.waiting, s.waitingRam, s.tasks[id]);
    assert Content(s.bothQ) - {s.tasks[id]} == Content(s.bothQ) && s.runsOn - {id} == s.runsOn;
    ForgetTask(s, DelTask(s, id), id);
  }

  lemma DelQueuedInv(s: State, id: TaskId)
    requires Inv(s) && id in s.tasks && id !in s.runsOn && s.tasks[id] !in s.waiting
    ensures Inv(DelTask(s, id))
  {
    UnqueueTaskOk(s, s.tasks[id]);
    assert s.runsOn - {id} == s.runsOn;
    ForgetTask(s, DelTask(s, id), id);
  }

  /** Deleting a known task never fails: its worker can detach it, its queue contains it. */
  lemma DelTaskInv(s: State, id: TaskId)
    requires Inv(s) && id in s.tasks
    ensures id in s.runsOn ==> s.runsOn[id] in s.workers && s.workers[s.runsOn[id]].CanDetach(s.tasks[id])
    ensures s.tasks[id].id == id && Inv(DelTask(s, id))
  {
    if id in s.runsOn { DelAttachedInv(s, id); }
    else if s.tasks[id] in s.waiting { DelWaitingInv(s, id); }
    else { DelQueuedInv(s, id); }
  }

  // ----- operations of the scheduler itself

  /** Attaching a task that has just left its queue. */
  lemma AttachInv(s: State, t: Task, id: WorkerId)
    requires IndexesOk(s) && LoadOk(s.workers, s.tasks, s.runsOn) && TasksOk(s.tasks, s.contests, s.lastSequence)
    requires TaskIndexOk(s.virtualQ, s.bothQ, s.contests) && WaitingOk(s.waiting, s.waitingRam)
    requires PlacesOk(s.tasks, s.runsOn[t.id := id], s.waiting, Content(s.bothQ))
    requires id in s.workers && s.workers[id].CanAttach(t)
    requires t.id in s.tasks && s.tasks[t.id] == t && t.id !in s.runsOn
    ensures Inv(AttachTaskToWorker(s, t, id))
  {
    var w := s.workers[id].Attach(t);
    var s0 := s.(runsOn := s.runsOn[t.id := id]);
    AttachLoadOk(s.workers, s.tasks, s.runsOn, t, id);
    ChangeWorkerIs(s0, id, w);
    ChangeWorkerIndexes(s0, id, w);
  }

  lemma AttachPlace(tasks: map<TaskId, Task>, runsOn: map<TaskId, WorkerId>, waiting: seq<Task>, waiting': seq<Task>,
                    queued: set<Task>, t: Task, id: WorkerId)
    requires PlacesOk(tasks, runsOn, waiting, queued) && NamesOk(tasks) && (t in queued || t in waiting)
    requires forall u :: u in waiting' <==> u in waiting && u != t
    ensures PlacesOk(tasks, runsOn[t.id := id], waiting', queued - {t})
  {
  }

  lemma AttachQueuedInv(s: State, t: Task, id: WorkerId)
    requires Inv(s) && t in Content(s.bothQ) && id in s.workers && s.workers[id].CanAttach(t)
    ensures Inv(AttachTaskToWorker(RemoveTaskFromQueues(s, t), t, id))
  {
    UnqueueTaskOk(s, t);
    AttachPlace(s.tasks, s.runsOn, s.waiting, s.waiting, Content(s.bothQ), t, id);
    AttachInv(RemoveTaskFromQueues(s, t), t, id);
  }

  lemma AttachWaitingInv(s: State, id: WorkerId)
    requires Inv(s) && s.waiting != [] && id in s.workers && s.workers[id].CanAttach(s.waiting[0])
    ensures Inv(AttachTaskToWorker(PopWaiting(s), s.waiting[0], id))
  {
    var t := s.waiting[0];
    assert t in s.waiting && RemoveFrom(s.waiting, t) == s.waiting[1..];
    RemoveWaitingOk(s.waiting, s.waitingRam, t);
    AttachPlace(s.tasks, s.runsOn, s.waiting, s.waiting[1..], Content(s.bothQ), t, id);
    assert Content(s.bothQ) - {t} == Content(s.bothQ);
    AttachInv(PopWaiting(s), t, id);
  }

  lemma ReservePlace(tasks: map<TaskId, Task>, runsOn: map<TaskId, WorkerId>, waiting: seq<Task>, queued: set<Task>,
                     t: Task)
    requires PlacesOk(tasks, runsOn, waiting, queued) && t in queued && t.realCpu
    ensures PlacesOk(tasks, runsOn, waiting + [t], queued - {t})
  {
  }

  lemma ReserveInv(s: State, t: Task)
    requires Inv(s) && t in Content(s.bothQ) && t.realCpu
    ensures Inv(AddWaiting(RemoveTaskFromQueues(s, t), t))
  {
    UnqueueTaskOk(s, t);
    AddWaitingOk(s.waiting, s.waitingRam, t);
    ReservePlace(s.tasks, s.runsOn, s.waiting, Content(s.bothQ), t);
  }
}

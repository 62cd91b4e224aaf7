/**
 The objects that the scheduler keeps (prioritizing.py:58-314). Tasks and contests are values, told apart by
 their names.
 */
module SchedulerParts {
  import opened Types
  import opened SortedSets
  import TQ = TaskQueues
  import S = SchedulerState

  class WorkerInfo {
    const id: WorkerId
    const concurrency: nat
    const totalRam: nat
    const cpuEnabled: bool
    var isRunningRealCpu: bool
    var runningTasks: nat
    var usedRam: nat

    function Model(): S.Worker
      reads this
    {
      S.Worker(id, concurrency, totalRam, cpuEnabled, isRunningRealCpu, runningTasks, usedRam)
    }

    constructor (wid: WorkerId, slots: nat, ram: nat, cpu: bool)
      requires slots > 0 && ram > 0
      ensures Model() == S.Worker(wid, slots, ram, cpu, false, 0, 0)
    {
      id, concurrency, totalRam, cpuEnabled := wid, slots, ram, cpu;
      isRunningRealCpu, runningTasks, usedRam := false, 0, 0;
    }

    method AttachTask(t: TQ.Task)
      requires Model().CanAttach(t)
      modifies this
      ensures Model() == old(Model()).Attach(t)
    {
      if t.realCpu {
        isRunningRealCpu := true;
      }
      usedRam := usedRam + t.ram;
      runningTasks := runningTasks + 1;
    }

    method DetachTask(t: TQ.Task)
      requires Model().CanDetach(t)
      modifies this
      ensures Model() == old(Model()).Detach(t)
    {
      usedRam := usedRam - t.ram;
      runningTasks := runningTasks - 1;
      isRunningRealCpu := false;
    }
  }

  // ----- the queue of waiting tasks

  /** `dict` is the ordered dictionary of tasks, `tasksRequiredRam` the sorted list. */
  class WaitingTasksQueue {
    var dict: seq<TQ.Task>
    var tasksRequiredRam: seq<nat>

    constructor ()
      ensures dict == [] && tasksRequiredRam == []
    {
      dict, tasksRequiredRam := [], [];
    }

    method Add(t: TQ.Task)
      modifies this
      ensures dict == old(dict) + [t]
      ensures tasksRequiredRam == SortedAdd(old(tasksRequiredRam), t.ram)
    {
      dict := dict + [t];
      tasksRequiredRam := SortedAdd(tasksRequiredRam, t.ram);
    }

    method Remove(t: TQ.Task)
      requires t in dict
      modifies this
      ensures dict == S.RemoveFrom(old(dict), t)
      ensures tasksRequiredRam == SortedDiscard(old(tasksRequiredRam), t.ram)
    {
      var i := 0;
      while dict[i] != t
        invariant 0 <= i < |dict| && t !in dict[..i]
        decreases |dict| - i
      {
        i := i + 1;
      }
      RemoveFromAt(dict, i);
      dict := RemoveAt(dict, i);
      tasksRequiredRam := SortedDiscard(tasksRequiredRam, t.ram);
    }

    method PopLeft() returns (t: TQ.Task)
      requires dict != []
      modifies this
      ensures t == old(dict[0]) && dict == old(dict)[1..]
      ensures tasksRequiredRam == SortedDiscard(old(tasksRequiredRam), t.ram)
    {
      t := dict[0];
      dict := dict[1..];
      tasksRequiredRam := SortedDiscard(tasksRequiredRam, t.ram);
    }
  }

  lemma {:induction false} RemoveFromAt(ts: seq<TQ.Task>, i: nat)
    requires i < |ts| && ts[i] !in ts[..i]
    ensures S.RemoveFrom(ts, ts[i]) == RemoveAt(ts, i)
  {
    if i > 0 {
      assert ts[0] == ts[..i][0];
      assert ts[1..][..i - 1] == ts[..i][1..];
      RemoveFromAt(ts[1..], i - 1);
    }
  }

  // ----- the priority queues

  class TasksQueues {
    var queues: TQ.Queues

    constructor ()
      ensures queues == []
    {
      queues := [];
    }

    method Find(c: ContestId) returns (i: nat)
      ensures i == TQ.Index(queues, c)
    {
      i := 0;
      while i < |queues| && queues[i].contest != c
        invariant i <= |queues| && TQ.Index(queues, c) == i + TQ.Index(queues[i..], c)
      {
        assert queues[i..][1..] == queues[i + 1..];
        i := i + 1;
      }
    }

    method AddTask(t: TQ.Task)
      modifies this
      ensures queues == TQ.Enqueue(old(queues), t)
    {
      var i := Find(t.contest);
      if i < |queues| {
        queues := queues[i := TQ.Entry(t.contest, TQ.InsertTask(queues[i].tasks, t))];
      } else {
        queues := queues + [TQ.Entry(t.contest, [t])];
      }
    }

    method DelTask(t: TQ.Task)
      modifies this
      ensures queues == TQ.Dequeue(old(queues), t)
    {
      var i := Find(t.contest);
      if i < |queues| {
        var rest := TQ.RemoveTask(queues[i].tasks, t);
        queues := queues[i := TQ.Entry(t.contest, rest)];
        if rest == [] {
          queues := RemoveAt(queues, i);
        }
      }
    }

    /** First loop of `chooseTask`. */
    method HighestPriority(contests: TQ.Contests) returns (top: int, sum: nat)
      requires queues != [] && TQ.Weighted(queues, contests)
      ensures (top, sum) == TQ.Scan(queues, contests)
    {
      top, sum := 0, 0;
      var i, started := 0, false;
      while i < |queues|
        invariant i <= |queues| && started == (i > 0)
        invariant i > 0 ==> (top, sum) == TQ.Scan(queues[..i], contests)
      {
        var contest := contests[queues[i].contest];
        if !started || contest.priority > top {
          top, sum, started := contest.priority, 0, true;
        }
        if top == contest.priority {
          sum := sum + contest.weight;
        }
        assert queues[..i + 1][..i] == queues[..i] && queues[..i + 1][i] == queues[i];
        i := i + 1;
      }
      assert queues[..i] == queues;
    }

    /** Second loop of `chooseTask`. */
    method PickContest(top: int, draw: nat, contests: TQ.Contests) returns (i: nat)
      requires TQ.Weighted(queues, contests) && draw >= 1 && TQ.Pick(queues, contests, top, draw) < |queues|
      ensures i == TQ.Pick(queues, contests, top, draw)
    {
      var prefix := 0;
      i := 0;
      while true
        invariant i < |queues| && prefix < draw
        invariant TQ.Pick(queues, contests, top, draw) == i + TQ.Pick(queues[i..], contests, top, draw - prefix)
        decreases |queues| - i
      {
        var contest := contests[queues[i].contest];
        assert queues[i..] != [] && queues[i..][0] == queues[i] && queues[i..][1..] == queues[i + 1..];
        if contest.priority == top {
          prefix := prefix + contest.weight;
          if prefix >= draw { break; }
        }
        i := i + 1;
      }
    }

    /** `raw` is what the generator produces for `randint`. */
    method ChooseTask(contests: TQ.Contests, raw: nat) returns (t: TQ.Task)
      requires TQ.CanChoose(queues, contests)
      ensures t == TQ.ChooseTask(queues, contests, raw)
    {
      assert PickInRange(queues, contests, raw) by {
        TQ.PickFinds(queues, contests);
      }
      var top, sum := HighestPriority(contests);
      var i := PickContest(top, TQ.Draw(raw, sum), contests);
      assert TQ.EntryOk(queues[i]);
      t := queues[i].tasks[|queues[i].tasks| - 1];
    }
  }

  ghost predicate PickInRange(q: TQ.Queues, contests: TQ.Contests, raw: nat)
    requires q != []
  {
    var (top, sum) := TQ.Scan(q, contests);
    sum >= 1 && TQ.Pick(q, contests, top, TQ.Draw(raw, sum)) < |q|
  }
}

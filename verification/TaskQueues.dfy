/**
 Per-contest priority queues of tasks and the weighted random choice among contests
 (`TasksQueues`, prioritizing.py:233-314).
 */
module TaskQueues {
  import opened Types
  import opened SortedSets

  /** The immutable part of a task. `ram` is the required RAM in KiB. */
  datatype Task = Task(id: TaskId, realCpu: bool, ram: nat, priority: int, contest: ContestId, sequence: int)

  datatype Contest = Contest(priority: int, weight: nat)

  /** The dictionary from contests to their sorted tasks, in insertion order. */
  datatype Entry = Entry(contest: ContestId, tasks: seq<Task>)
  type Queues = seq<Entry>

  type Contests = map<ContestId, Contest>

  function TaskKey(t: Task): Key {
    Key(0, t.priority, -t.sequence)
  }

  function TaskKeys(ts: seq<Task>): (keys: seq<Key>)
    ensures |keys| == |ts|
    ensures forall i | 0 <= i < |ts| :: keys[i] == TaskKey(ts[i])
  {
    seq(|ts|, i requires 0 <= i < |ts| => TaskKey(ts[i]))
  }

  function InsertTask(ts: seq<Task>, t: Task): seq<Task> {
    InsertAt(ts, Position(TaskKeys(ts), TaskKey(t)), t)
  }

  function RemoveTask(ts: seq<Task>, t: Task): seq<Task> {
    var p := Position(TaskKeys(ts), TaskKey(t));
    if p < |ts| then RemoveAt(ts, p) else ts
  }

  function Index(q: Queues, c: ContestId): (i: nat)
    ensures i <= |q|
    ensures i < |q| ==> q[i].contest == c
    ensures forall j | 0 <= j < i :: q[j].contest != c
  {
    if q == [] || q[0].contest == c then 0 else 1 + Index(q[1..], c)
  }

  function TasksOf(q: Queues, c: ContestId): seq<Task> {
    var i := Index(q, c);
    if i < |q| then q[i].tasks else []
  }

  predicate Has(q: Queues, t: Task) {
    t in TasksOf(q, t.contest)
  }

  /** All queued tasks. */
  ghost function Content(q: Queues): set<Task> {
    if q == [] then {} else (set t | t in q[0].tasks) + Content(q[1..])
  }

  function Enqueue(q: Queues, t: Task): Queues {
    var i := Index(q, t.contest);
    if i < |q| then q[i := Entry(t.contest, InsertTask(q[i].tasks, t))] else q + [Entry(t.contest, [t])]
  }

  function Dequeue(q: Queues, t: Task): Queues {
    var i := Index(q, t.contest);
    if i == |q| then q
    else
      var rest := RemoveTask(q[i].tasks, t);
      if rest == [] then RemoveAt(q, i) else q[i := Entry(t.contest, rest)]
  }

  ghost predicate EntryOk(e: Entry) {
    && e.tasks != []
    && Increasing(TaskKeys(e.tasks))
    && (forall t | t in e.tasks :: t.contest == e.contest)
  }

  ghost predicate QueuesOk(q: Queues) {
    && (forall i, j | 0 <= i < j < |q| :: q[i].contest != q[j].contest)
    && (forall i | 0 <= i < |q| :: EntryOk(q[i]))
  }

  lemma KeysOfInsert(ts: seq<Task>, p: nat, t: Task)
    requires p <= |ts|
    ensures TaskKeys(InsertAt(ts, p, t)) == InsertAt(TaskKeys(ts), p, TaskKey(t))
  {
  }

  lemma KeysOfRemove(ts: seq<Task>, p: nat)
    requires p < |ts|
    ensures TaskKeys(RemoveAt(ts, p)) == RemoveAt(TaskKeys(ts), p)
  {
  }

  lemma IncreasingDistinct(ts: seq<Task>)
    requires Increasing(TaskKeys(ts))
    ensures forall i, j | 0 <= i < j < |ts| :: ts[i] != ts[j]
  {
    forall i, j | 0 <= i < j < |ts| ensures ts[i] != ts[j] {
      assert Less(TaskKeys(ts)[i], TaskKeys(ts)[j]);
    }
  }

  lemma InsertTaskOk(ts: seq<Task>, t: Task)
    requires Increasing(TaskKeys(ts))
    requires forall u | u in ts :: TaskKey(u) != TaskKey(t)
    ensures Increasing(TaskKeys(InsertTask(ts, t)))
    ensures forall u :: u in InsertTask(ts, t) <==> u in ts || u == t
  {
    var p := Position(TaskKeys(ts), TaskKey(t));
    KeysOfInsert(ts, p, t);
    InsertKeepsIncreasing(TaskKeys(ts), TaskKey(t));
    InsertAtMembers(ts, p, t);
  }

  /** `SortedSet.remove` finds the task, because the keys are in order. */
  lemma RemoveTaskFinds(ts: seq<Task>, t: Task)
    requires Increasing(TaskKeys(ts)) && t in ts
    ensures var p := Position(TaskKeys(ts), TaskKey(t)); p < |ts| && ts[p] == t
  {
    var i :| 0 <= i < |ts| && ts[i] == t;
    PositionFinds(TaskKeys(ts), i);
  }

  lemma RemoveTaskOk(ts: seq<Task>, t: Task)
    requires Increasing(TaskKeys(ts)) && t in ts
    ensures Increasing(TaskKeys(RemoveTask(ts, t)))
    ensures forall u :: u in RemoveTask(ts, t) <==> u in ts && u != t
  {
    RemoveTaskFinds(ts, t);
    var p := Position(TaskKeys(ts), TaskKey(t));
    KeysOfRemove(ts, p);
    RemoveKeepsIncreasing(TaskKeys(ts), p);
    IncreasingDistinct(ts);
    RemoveAtMembers(ts, p);
  }

  lemma IndexIs(q: Queues, c: ContestId, i: nat)
    requires i <= |q| && (i < |q| ==> q[i].contest == c)
    requires forall j | 0 <= j < i :: q[j].contest != c
    ensures Index(q, c) == i
  {
  }

  lemma IndexUnique(q: Queues, i: nat)
    requires QueuesOk(q) && i < |q|
    ensures Index(q, q[i].contest) == i
  {
    IndexIs(q, q[i].contest, i);
  }

  lemma {:induction false} ContentAt(q: Queues, t: Task)
    ensures t in Content(q) <==> exists i :: 0 <= i < |q| && t in q[i].tasks
  {
    if q != [] {
      ContentAt(q[1..], t);
      if t in Content(q[1..]) {
        var i :| 0 <= i < |q[1..]| && t in q[1..][i].tasks;
        assert t in q[i + 1].tasks;
      }
      if i :| 0 <= i < |q| && t in q[i].tasks {
        if i > 0 { assert t in q[1..][i - 1].tasks; }
      }
    }
  }

  lemma ContentHas(q: Queues, t: Task)
    requires QueuesOk(q)
    ensures t in Content(q) <==> Has(q, t)
  {
    ContentAt(q, t);
    if i :| 0 <= i < |q| && t in q[i].tasks {
      assert EntryOk(q[i]);
      IndexUnique(q, i);
    }
  }

  // One entry is replaced, added or dropped: nothing changes for the other contests.

  lemma ReplacedEntry(q: Queues, i: nat, e: Entry, c: ContestId)
    requires QueuesOk(q) && i < |q| && e.contest == q[i].contest
    ensures TasksOf(q[i := e], c) == if c == e.contest then e.tasks else TasksOf(q, c)
  {
    IndexUnique(q, i);
    var k := Index(q, c);
    var r := q[i := e];
    forall j | 0 <= j < |q| ensures r[j].contest == q[j].contest {}
    IndexIs(r, c, k);
  }

  lemma AddedEntry(q: Queues, e: Entry, c: ContestId)
    requires Index(q, e.contest) == |q|
    ensures TasksOf(q + [e], c) == if c == e.contest then e.tasks else TasksOf(q, c)
  {
    var k, r := Index(q, c), q + [e];
    forall j | 0 <= j < |q| ensures r[j] == q[j] {}
    IndexIs(r, c, if k < |q| || c == e.contest then k else |r|);
  }

  lemma DroppedEntry(q: Queues, i: nat, c: ContestId)
    requires QueuesOk(q) && i < |q|
    ensures TasksOf(RemoveAt(q, i), c) == if c == q[i].contest then [] else TasksOf(q, c)
  {
    var k, r := Index(q, c), RemoveAt(q, i);
    forall j | 0 <= j < |r| ensures r[j] == q[if j < i then j else j + 1] {}
    IndexUnique(q, i);
    if c == q[i].contest || k == |q| {
      IndexIs(r, c, |r|);
    } else {
      IndexIs(r, c, if k < i then k else k - 1);
    }
  }

  lemma FirstTask(t: Task)
    ensures InsertTask([], t) == [t]
  {
    assert TaskKeys([]) == [];
    assert Position([], TaskKey(t)) == 0;
    assert InsertAt([], 0, t) == [t];
  }

  lemma EnqueueOf(q: Queues, t: Task, c: ContestId)
    requires QueuesOk(q)
    ensures TasksOf(Enqueue(q, t), c) == if c == t.contest then InsertTask(TasksOf(q, c), t) else TasksOf(q, c)
  {
    var i := Index(q, t.contest);
    if i < |q| {
      ReplacedEntry(q, i, Entry(t.contest, InsertTask(q[i].tasks, t)), c);
    } else {
      AddedEntry(q, Entry(t.contest, [t]), c);
      FirstTask(t);
    }
  }

  lemma DequeueOf(q: Queues, t: Task, c: ContestId)
    requires QueuesOk(q)
    ensures TasksOf(Dequeue(q, t), c) == if c == t.contest then RemoveTask(TasksOf(q, c), t) else TasksOf(q, c)
  {
    var i := Index(q, t.contest);
    if i < |q| {
      var rest := RemoveTask(q[i].tasks, t);
      if rest == [] { DroppedEntry(q, i, c); } else { ReplacedEntry(q, i, Entry(t.contest, rest), c); }
    }
  }

  lemma EntryPutOk(q: Queues, i: nat, e: Entry)
    requires QueuesOk(q) && EntryOk(e) && i == Index(q, e.contest)
    ensures QueuesOk(if i < |q| then q[i := e] else q + [e])
  {
  }

  lemma InsertedEntryOk(c: ContestId, ts: seq<Task>, t: Task)
    requires ts == [] || EntryOk(Entry(c, ts))
    requires t.contest == c && forall u | u in ts :: TaskKey(u) != TaskKey(t)
    ensures EntryOk(Entry(c, InsertTask(ts, t)))
    ensures forall u :: u in InsertTask(ts, t) <==> u in ts || u == t
  {
    InsertTaskOk(ts, t);
    assert t in InsertTask(ts, t);
  }

  lemma EnqueueOrder(q: Queues, t: Task)
    requires QueuesOk(q)
    requires forall u | u in TasksOf(q, t.contest) :: TaskKey(u) != TaskKey(t)
    ensures QueuesOk(Enqueue(q, t))
    ensures forall u :: u in InsertTask(TasksOf(q, t.contest), t) <==> u in TasksOf(q, t.contest) || u == t
  {
    var i := Index(q, t.contest);
    if i < |q| {
      assert EntryOk(q[i]);
      InsertedEntryOk(t.contest, q[i].tasks, t);
      EntryPutOk(q, i, Entry(t.contest, InsertTask(q[i].tasks, t)));
    } else {
      InsertedEntryOk(t.contest, [], t);
      assert InsertTask([], t) == [t];
      EntryPutOk(q, i, Entry(t.contest, [t]));
    }
  }

  lemma EnqueueOk(q: Queues, t: Task)
    requires QueuesOk(q)
    requires forall u | u in Content(q) :: u.sequence != t.sequence
    ensures QueuesOk(Enqueue(q, t))
    ensures Content(Enqueue(q, t)) == Content(q) + {t}
  {
    forall u | u in TasksOf(q, t.contest) ensures TaskKey(u) != TaskKey(t) {
      if Index(q, t.contest) < |q| { assert EntryOk(q[Index(q, t.contest)]); }
      ContentHas(q, u);
    }
    EnqueueOrder(q, t);
    forall u ensures u in Content(Enqueue(q, t)) <==> u in Content(q) + {t} {
      EnqueueOf(q, t, u.contest);
      ContentHas(q, u);
      ContentHas(Enqueue(q, t), u);
    }
  }

  lemma DequeueOrder(q: Queues, t: Task)
    requires QueuesOk(q) && t in TasksOf(q, t.contest)
    ensures QueuesOk(Dequeue(q, t))
    ensures forall u :: u in RemoveTask(TasksOf(q, t.contest), t) <==> u in TasksOf(q, t.contest) && u != t
  {
    var i := Index(q, t.contest);
    assert EntryOk(q[i]);
    RemoveTaskOk(q[i].tasks, t);
    var rest := RemoveTask(q[i].tasks, t);
    if rest == [] {
      EntryDropOk(q, i);
    } else {
      assert EntryOk(Entry(t.contest, rest));
      EntryPutOk(q, i, Entry(t.contest, rest));
    }
  }

  lemma EntryDropOk(q: Queues, i: nat)
    requires QueuesOk(q) && i < |q|
    ensures QueuesOk(RemoveAt(q, i))
  {
    forall j | 0 <= j < |RemoveAt(q, i)| ensures RemoveAt(q, i)[j] == q[if j < i then j else j + 1] {}
  }

  lemma DequeueOk(q: Queues, t: Task)
    requires QueuesOk(q) && t in Content(q)
    ensures QueuesOk(Dequeue(q, t))
    ensures Content(Dequeue(q, t)) == Content(q) - {t}
  {
    ContentHas(q, t);
    DequeueOrder(q, t);
    forall u ensures u in Content(Dequeue(q, t)) <==> u in Content(q) - {t} {
      DequeueOf(q, t, u.contest);
      ContentHas(q, u);
      ContentHas(Dequeue(q, t), u);
    }
  }

  /** No new contest appears among the entries, except the one of an added task. */
  lemma EntriesStayWeighted(q: Queues, contests: Contests, t: Task)
    requires Weighted(q, contests) && t.contest in contests && contests[t.contest].weight >= 1
    ensures Weighted(Enqueue(q, t), contests) && Weighted(Dequeue(q, t), contests)
  {
    var i := Index(q, t.contest);
    if i < |q| {
      WeightedReplaced(q, contests, i, Entry(t.contest, InsertTask(q[i].tasks, t)));
      WeightedReplaced(q, contests, i, Entry(t.contest, RemoveTask(q[i].tasks, t)));
      WeightedDropped(q, contests, i);
    }
  }

  lemma WeightedReplaced(q: Queues, contests: Contests, i: nat, e: Entry)
    requires Weighted(q, contests) && i < |q| && e.contest == q[i].contest
    ensures Weighted(q[i := e], contests)
  {
  }

  lemma WeightedDropped(q: Queues, contests: Contests, i: nat)
    requires Weighted(q, contests) && i < |q|
    ensures Weighted(RemoveAt(q, i), contests)
  {
  }

  // ----- choosing a contest

  function PriorityOf(contests: Contests, e: Entry): int {
    if e.contest in contests then contests[e.contest].priority else 0
  }

  function WeightOf(contests: Contests, e: Entry): nat {
    if e.contest in contests then contests[e.contest].weight else 0
  }

  /** Every queued contest is known and has a positive weight. */
  predicate Weighted(q: Queues, contests: Contests) {
    forall i | 0 <= i < |q| :: q[i].contest in contests && contests[q[i].contest].weight >= 1
  }

  /** First loop of `chooseTask`: highest priority so far and the total weight of the contests having it. */
  function Scan(q: Queues, contests: Contests): (int, nat)
    requires q != []
  {
    var last := q[|q| - 1];
    var p, w := PriorityOf(contests, last), WeightOf(contests, last);
    if |q| == 1 then (p, w)
    else
      var (top, sum) := Scan(q[..|q| - 1], contests);
      if p > top then (p, w) else if p == top then (top, sum + w) else (top, sum)
  }

  /** Second loop of `chooseTask`: the contest in whose share of the weights `draw` falls. */
  function Pick(q: Queues, contests: Contests, top: int, draw: int): (i: nat)
    ensures i <= |q|
  {
    if q == [] then 0
    else if PriorityOf(contests, q[0]) != top then 1 + Pick(q[1..], contests, top, draw)
    else if WeightOf(contests, q[0]) >= draw then 0
    else 1 + Pick(q[1..], contests, top, draw - WeightOf(contests, q[0]))
  }

  /** Total weight of the contests of priority `top` among the first `n` entries. */
  function Share(q: Queues, contests: Contests, top: int, n: nat): nat
    requires n <= |q|
  {
    if n == 0 then 0
    else Share(q, contests, top, n - 1) +
         if PriorityOf(contests, q[n - 1]) == top then WeightOf(contests, q[n - 1]) else 0
  }

  lemma {:induction false} ShareShift(q: Queues, contests: Contests, top: int, n: nat)
    requires q != [] && n <= |q| - 1
    ensures Share(q, contests, top, n + 1) == Share(q, contests, top, 1) + Share(q[1..], contests, top, n)
  {
    if n > 0 { ShareShift(q, contests, top, n - 1); }
  }

  lemma {:induction false} SharePrefix(q: Queues, contests: Contests, top: int, n: nat, m: nat)
    requires n <= m <= |q|
    ensures Share(q[..m], contests, top, n) == Share(q, contests, top, n)
  {
    if n > 0 { SharePrefix(q, contests, top, n - 1, m); }
  }

  lemma {:induction false} ShareMonotone(q: Queues, contests: Contests, top: int, n: nat, m: nat)
    requires n <= m <= |q|
    ensures Share(q, contests, top, n) <= Share(q, contests, top, m)
  {
    if n < m { ShareMonotone(q, contests, top, n, m - 1); }
  }

  lemma {:induction false} ScanIsMaximum(q: Queues, contests: Contests)
    requires q != []
    ensures var (top, sum) := Scan(q, contests);
            && (forall i | 0 <= i < |q| :: PriorityOf(contests, q[i]) <= top)
            && (exists i :: 0 <= i < |q| && PriorityOf(contests, q[i]) == top)
            && sum == Share(q, contests, top, |q|)
  {
    var n := |q| - 1;
    var (top, sum) := Scan(q, contests);
    if n == 0 {
      assert PriorityOf(contests, q[0]) == top;
    } else {
      ScanIsMaximum(q[..n], contests);
      var (top', sum') := Scan(q[..n], contests);
      SharePrefix(q, contests, top', n, n);
      if PriorityOf(contests, q[n]) > top' {
        NoShare(q, contests, top, n);
        assert PriorityOf(contests, q[n]) == top;
      } else {
        var i :| 0 <= i < n && PriorityOf(contests, q[..n][i]) == top';
        assert PriorityOf(contests, q[i]) == top;
      }
    }
  }

  lemma {:induction false} NoShare(q: Queues, contests: Contests, top: int, n: nat)
    requires n <= |q| && forall e | e in q[..n] :: PriorityOf(contests, e) < top
    ensures Share(q, contests, top, n) == 0
  {
    if n > 0 {
      assert q[..n][n - 1] == q[n - 1] && q[..n][..n - 1] == q[..n - 1];
      NoShare(q, contests, top, n - 1);
    }
  }

  /** The draw selects entry `i` exactly when it falls into that entry's share. */
  lemma {:induction false} PickIsShare(q: Queues, contests: Contests, top: int, draw: int, i: nat)
    requires Weighted(q, contests) && i < |q| && draw >= 1
    ensures Pick(q, contests, top, draw) == i <==>
            PriorityOf(contests, q[i]) == top
            && Share(q, contests, top, i) < draw <= Share(q, contests, top, i + 1)
  {
    var w := WeightOf(contests, q[0]);
    assert Share(q, contests, top, 1) == if PriorityOf(contests, q[0]) == top then w else 0;
    if i == 0 {
    } else {
      ShareShift(q, contests, top, i - 1);
      ShareShift(q, contests, top, i);
      if PriorityOf(contests, q[0]) != top {
        PickIsShare(q[1..], contests, top, draw, i - 1);
      } else if w >= draw {
        ShareMonotone(q, contests, top, 1, i);
      } else {
        PickIsShare(q[1..], contests, top, draw - w, i - 1);
      }
    }
  }

  lemma {:induction false} PickExists(q: Queues, contests: Contests, top: int, draw: int)
    requires Weighted(q, contests) && 1 <= draw <= Share(q, contests, top, |q|)
    ensures Pick(q, contests, top, draw) < |q|
  {
    var w := WeightOf(contests, q[0]);
    ShareShift(q, contests, top, |q| - 1);
    if PriorityOf(contests, q[0]) != top {
      PickExists(q[1..], contests, top, draw);
    } else if w < draw {
      PickExists(q[1..], contests, top, draw - w);
    }
  }

  /** Whatever is drawn, the second loop ends at a contest. */
  lemma PickFinds(q: Queues, contests: Contests)
    requires q != [] && Weighted(q, contests)
    ensures var (top, sum) := Scan(q, contests);
            && sum >= 1
            && (forall d | 1 <= d <= sum :: Pick(q, contests, top, d) < |q|)
            && (forall j | 0 <= j < |q| :: PriorityOf(contests, q[j]) <= top)
  {
    var (top, sum) := Scan(q, contests);
    ScanIsMaximum(q, contests);
    var j :| 0 <= j < |q| && PriorityOf(contests, q[j]) == top;
    ShareMonotone(q, contests, top, j + 1, |q|);
    forall d | 1 <= d <= sum ensures Pick(q, contests, top, d) < |q| {
      PickExists(q, contests, top, d);
    }
  }

  /** A draw out of `1..sum`; `raw` is whatever the generator produces. */
  function Draw(raw: nat, sum: nat): (d: nat)
    requires sum >= 1
    ensures 1 <= d <= sum
  {
    1 + raw % sum
  }

  ghost predicate CanChoose(q: Queues, contests: Contests) {
    q != [] && QueuesOk(q) && Weighted(q, contests)
  }

  function ChooseTask(q: Queues, contests: Contests, raw: nat): (t: Task)
    requires CanChoose(q, contests)
  {
    var (top, sum) := Scan(q, contests);
    PickFinds(q, contests);
    var i := Pick(q, contests, top, Draw(raw, sum));
    assert EntryOk(q[i]);
    q[i].tasks[|q[i].tasks| - 1]
  }

  /** `a` must be judged before `b`: higher priority, or equal priority and earlier arrival. */
  predicate Before(a: Task, b: Task) {
    a.priority > b.priority || (a.priority == b.priority && a.sequence < b.sequence)
  }

  lemma ChosenIndex(q: Queues, contests: Contests, raw: nat) returns (i: nat)
    requires CanChoose(q, contests)
    ensures i < |q| && EntryOk(q[i]) && ChooseTask(q, contests, raw) == q[i].tasks[|q[i].tasks| - 1]
    ensures Index(q, q[i].contest) == i
    ensures forall k | 0 <= k < |q| :: PriorityOf(contests, q[k]) <= PriorityOf(contests, q[i])
  {
    var (top, sum) := Scan(q, contests);
    PickFinds(q, contests);
    i := Pick(q, contests, top, Draw(raw, sum));
    PickIsShare(q, contests, top, Draw(raw, sum), i);
    IndexUnique(q, i);
  }

  /** `top` is the highest priority of a queued contest. */
  ghost predicate IsHighest(q: Queues, contests: Contests, top: int)
    requires Weighted(q, contests)
  {
    && (exists i :: 0 <= i < |q| && contests[q[i].contest].priority == top)
    && (forall i | 0 <= i < |q| :: contests[q[i].contest].priority <= top)
  }

  lemma ScanIs(q: Queues, contests: Contests, top: int)
    requires q != [] && Weighted(q, contests) && IsHighest(q, contests, top)
    ensures Scan(q, contests) == (top, Share(q, contests, top, |q|)) && Share(q, contests, top, |q|) >= 1
  {
    ScanIsMaximum(q, contests);
    PickFinds(q, contests);
  }

  lemma DrawIs(raw: nat, sum: nat)
    requires sum >= 1
    ensures Draw(raw, sum) == 1 + raw % sum && Draw(raw % sum, sum) == Draw(raw, sum)
    ensures raw < sum ==> raw % sum == raw
  {
  }

  lemma ChosenPick(q: Queues, contests: Contests, top: int, sum: nat, raw: nat) returns (k: nat)
    requires CanChoose(q, contests) && Scan(q, contests) == (top, sum) && sum >= 1
    ensures k < |q| && k == Pick(q, contests, top, Draw(raw, sum))
    ensures ChooseTask(q, contests, raw) == q[k].tasks[|q[k].tasks| - 1]
    ensures ChooseTask(q, contests, raw).contest == q[k].contest
  {
    PickFinds(q, contests);
    k := Pick(q, contests, top, Draw(raw, sum));
    assert EntryOk(q[k]);
    assert q[k].tasks[|q[k].tasks| - 1] in q[k].tasks;
  }

  lemma PickedContest(q: Queues, contests: Contests, top: int, draw: nat, k: nat, i: nat)
    requires Weighted(q, contests) && draw >= 1 && k == Pick(q, contests, top, draw) < |q| && i < |q|
    requires forall i, j | 0 <= i < j < |q| :: q[i].contest != q[j].contest
    ensures q[k].contest == q[i].contest <==>
            PriorityOf(contests, q[i]) == top && Share(q, contests, top, i) < draw <= Share(q, contests, top, i + 1)
  {
    PickIsShare(q, contests, top, draw, i);
  }

  /** The chosen contest is the one in whose share of the weights the number falls, modulo their sum. */
  lemma ChosenByShare(q: Queues, contests: Contests, top: int, sum: nat, raw: nat, i: nat)
    requires CanChoose(q, contests) && Scan(q, contests) == (top, sum) && sum >= 1 && i < |q|
    ensures ChooseTask(q, contests, raw).contest == q[i].contest <==>
            contests[q[i].contest].priority == top
            && Share(q, contests, top, i) <= raw % sum < Share(q, contests, top, i + 1)
  {
    var k := ChosenPick(q, contests, top, sum, raw);
    DrawIs(raw, sum);
    PickedContest(q, contests, top, Draw(raw, sum), k, i);
    assert PriorityOf(contests, q[i]) == contests[q[i].contest].priority;
  }

  lemma ChosenModulo(q: Queues, contests: Contests, top: int, sum: nat, raw: nat)
    requires CanChoose(q, contests) && Scan(q, contests) == (top, sum) && sum >= 1
    ensures ChooseTask(q, contests, raw) == ChooseTask(q, contests, raw % sum)
  {
    DrawIs(raw, sum);
    var k := ChosenPick(q, contests, top, sum, raw);
    var k' := ChosenPick(q, contests, top, sum, raw % sum);
  }

  function Interval(a: nat, b: nat): (s: set<nat>)
    requires a <= b
    ensures forall n :: n in s <==> a <= n < b
    ensures |s| == b - a
  {
    if a == b then {} else Interval(a, b - 1) + {b - 1}
  }

  /** The numbers below `sum` for which a task of contest `c` is chosen. */
  ghost function NumbersFor(q: Queues, contests: Contests, c: ContestId, sum: nat): set<nat>
    requires CanChoose(q, contests)
  {
    set raw: nat | raw < sum && ChooseTask(q, contests, raw).contest == c
  }

  lemma NumbersAreInterval(q: Queues, contests: Contests, top: int, sum: nat, i: nat)
    requires CanChoose(q, contests) && Scan(q, contests) == (top, sum) && sum >= 1 && i < |q|
    requires Share(q, contests, top, i) <= Share(q, contests, top, i + 1) <= sum
    ensures NumbersFor(q, contests, q[i].contest, sum)
            == if contests[q[i].contest].priority == top
               then Interval(Share(q, contests, top, i), Share(q, contests, top, i + 1)) else {}
  {
    forall raw: nat | raw < sum
      ensures ChooseTask(q, contests, raw).contest == q[i].contest <==>
              contests[q[i].contest].priority == top
              && Share(q, contests, top, i) <= raw < Share(q, contests, top, i + 1)
    {
      ChosenByShare(q, contests, top, sum, raw, i);
      DrawIs(raw, sum);
    }
  }

  /**
   Of the numbers below the total weight of the contests of the highest priority, exactly as many choose a task
   of a contest as its weight if it has that priority, and none otherwise; larger numbers count modulo that sum.
   */
  lemma ExactWeightedChoice(q: Queues, contests: Contests, top: int, i: nat)
    requires CanChoose(q, contests) && IsHighest(q, contests, top) && i < |q|
    ensures var sum := Share(q, contests, top, |q|);
            && sum >= 1
            && |NumbersFor(q, contests, q[i].contest, sum)|
               == (if contests[q[i].contest].priority == top then contests[q[i].contest].weight else 0)
            && forall raw: nat :: ChooseTask(q, contests, raw) == ChooseTask(q, contests, raw % sum)
  {
    var sum := Share(q, contests, top, |q|);
    ScanIs(q, contests, top);
    ShareMonotone(q, contests, top, i, i + 1);
    ShareMonotone(q, contests, top, i + 1, |q|);
    NumbersAreInterval(q, contests, top, sum, i);
    forall raw: nat ensures ChooseTask(q, contests, raw) == ChooseTask(q, contests, raw % sum) {
      ChosenModulo(q, contests, top, sum, raw);
    }
  }

  lemma LastIsBefore(ts: seq<Task>, u: Task)
    requires Increasing(TaskKeys(ts)) && u in ts && u != ts[|ts| - 1]
    ensures Before(ts[|ts| - 1], u)
  {
    var k :| 0 <= k < |ts| && ts[k] == u;
    assert Less(TaskKeys(ts)[k], TaskKeys(ts)[|ts| - 1]);
  }

  /** The chosen task is queued, is the first of its contest, and its contest has top priority. */
  lemma ChosenIsFirst(q: Queues, contests: Contests, raw: nat)
    requires CanChoose(q, contests)
    ensures var t := ChooseTask(q, contests, raw);
            && t in Content(q)
            && (forall u | u in Content(q) && u.contest == t.contest && u != t :: Before(t, u))
            && t.contest in contests
            && (forall u | u in Content(q) :: u.contest in contests
                                        && contests[u.contest].priority <= contests[t.contest].priority)
  {
    var i := ChosenIndex(q, contests, raw);
    var ts := q[i].tasks;
    var t := ts[|ts| - 1];
    assert t in ts;
    ContentHas(q, t);
    forall u | u in Content(q) && u.contest == t.contest && u != t ensures Before(t, u) {
      ContentHas(q, u);
      LastIsBefore(ts, u);
    }
    forall u | u in Content(q)
      ensures u.contest in contests && contests[u.contest].priority <= contests[t.contest].priority
    {
      ContentHas(q, u);
      var k := Index(q, u.contest);
      assert PriorityOf(contests, q[k]) <= PriorityOf(contests, q[i]);
    }
  }
}

/**
 Which sets of workers can run all waiting real-cpu tasks at once, one task per worker, and the
 greedy count the scheduler uses to answer that question.
 */
module Matching {
  import opened Types
  import opened SortedSets

  /** `chosen[i]` runs task `i`: distinct workers out of `pool`, each with enough total RAM. */
  ghost predicate Serves(chosen: seq<WorkerId>, pool: set<WorkerId>, ram: map<WorkerId, nat>, tasks: seq<nat>) {
    && |chosen| == |tasks|
    && (forall i | 0 <= i < |chosen| :: chosen[i] in pool && chosen[i] in ram && tasks[i] <= ram[chosen[i]])
    && (forall i, j | 0 <= i < j < |chosen| :: chosen[i] != chosen[j])
  }

  ghost predicate CanServe(pool: set<WorkerId>, ram: map<WorkerId, nat>, tasks: seq<nat>) {
    exists chosen :: Serves(chosen, pool, ram, tasks)
  }

  /** Any `n` workers out of `pool` can serve all the tasks. */
  ghost predicate AnyCanServe(n: nat, pool: set<WorkerId>, ram: map<WorkerId, nat>, tasks: seq<nat>) {
    forall s: set<WorkerId> | s <= pool && |s| == n :: CanServe(s, ram, tasks)
  }

  /** The inner loop: the first index from `start` on whose RAM covers `task`, or the length. */
  function NextFit(rams: seq<nat>, task: nat, start: nat): (k: nat)
    requires start <= |rams|
    ensures start <= k <= |rams|
    ensures forall i | start <= i < k :: rams[i] < task
    ensures k < |rams| ==> task <= rams[k]
    decreases |rams| - start
  {
    if start < |rams| && rams[start] < task then NextFit(rams, task, start + 1) else start
  }

  /** The outer loop: `Some(next_worker_index)` when every task found a worker, `None` otherwise. */
  function Walk(rams: seq<nat>, tasks: seq<nat>, start: nat): (r: Option<nat>)
    requires start <= |rams|
    ensures r.Some? ==> start <= r.value <= |rams|
    decreases tasks
  {
    if tasks == [] then Some(start)
    else
      var k := NextFit(rams, tasks[0], start);
      if k < |rams| then Walk(rams, tasks[1..], k + 1) else None
  }

  function GreedyBlocked(rams: seq<nat>, tasks: seq<nat>): (n: nat)
    ensures n <= |rams|
  {
    match Walk(rams, tasks, 0) case Some(n) => n case None => |rams|
  }

  // ----- assignments to positions of a sorted RAM list

  ghost predicate ServesAt(at: seq<nat>, lo: nat, hi: nat, rams: seq<nat>, tasks: seq<nat>) {
    && |at| == |tasks|
    && hi <= |rams|
    && (forall i | 0 <= i < |at| :: lo <= at[i] < hi && tasks[i] <= rams[at[i]])
    && (forall i, j | 0 <= i < j < |at| :: at[i] != at[j])
  }

  /** Whatever the walk returns is a real assignment. */
  lemma {:induction false} WalkServes(rams: seq<nat>, tasks: seq<nat>, start: nat) returns (at: seq<nat>)
    requires start <= |rams|
    requires Walk(rams, tasks, start).Some?
    ensures ServesAt(at, start, Walk(rams, tasks, start).value, rams, tasks)
  {
    if tasks == [] {
      at := [];
    } else {
      var k := NextFit(rams, tasks[0], start);
      var rest := WalkServes(rams, tasks[1..], k + 1);
      at := [k] + rest;
    }
  }

  /** The exchange step: the first task can be moved to the first worker that fits it. */
  lemma Exchange(at: seq<nat>, lo: nat, hi: nat, rams: seq<nat>, tasks: seq<nat>) returns (rest: seq<nat>)
    requires tasks != [] && Ascending(rams) && Ascending(tasks) && lo <= |rams|
    requires ServesAt(at, lo, hi, rams, tasks)
    ensures NextFit(rams, tasks[0], lo) < hi
    ensures ServesAt(rest, NextFit(rams, tasks[0], lo) + 1, hi, rams, tasks[1..])
  {
    var k := NextFit(rams, tasks[0], lo);
    forall i | 0 <= i < |at| ensures k <= at[i] {
      assert tasks[0] <= tasks[i] <= rams[at[i]];
    }
    rest := seq(|at| - 1, i requires 0 <= i < |at| - 1 => if at[i + 1] == k then at[0] else at[i + 1]);
    forall i | 0 <= i < |rest| ensures k < rest[i] < hi && tasks[1..][i] <= rams[rest[i]] {
      assert at[0] != at[i + 1] && k <= at[0] && k <= at[i + 1];
      if at[i + 1] == k { assert rams[k] <= rams[at[0]]; }
    }
  }

  /** No assignment uses fewer positions than the walk: it succeeds and stops at or before `hi`. */
  lemma {:induction false} WalkIsLeast(at: seq<nat>, lo: nat, hi: nat, rams: seq<nat>, tasks: seq<nat>)
    requires Ascending(rams) && Ascending(tasks) && lo <= hi
    requires ServesAt(at, lo, hi, rams, tasks) && lo <= |rams|
    ensures Walk(rams, tasks, lo).Some? && Walk(rams, tasks, lo).value <= hi
    decreases tasks
  {
    if tasks != [] {
      var rest := Exchange(at, lo, hi, rams, tasks);
      WalkIsLeast(rest, NextFit(rams, tasks[0], lo) + 1, hi, rams, tasks[1..]);
    }
  }

  // ----- from positions to sets of workers

  ghost predicate Distinct<T>(xs: seq<T>) {
    forall i, j | 0 <= i < j < |xs| :: xs[i] != xs[j]
  }

  function Elements<T>(xs: seq<T>): set<T> {
    set x | x in xs
  }

  lemma SubsetCardinality<T>(a: set<T>, b: set<T>)
    requires a <= b
    ensures |a| <= |b|
  {
    assert b == a + (b - a);
  }

  lemma {:induction false} DistinctCardinality<T>(xs: seq<T>)
    requires Distinct(xs)
    ensures |Elements(xs)| == |xs|
  {
    if xs != [] {
      var n := |xs| - 1;
      DistinctCardinality(xs[..n]);
      assert Elements(xs) == Elements(xs[..n]) + {xs[n]};
    }
  }

  function Rams(ids: seq<WorkerId>, ram: map<WorkerId, nat>): (r: seq<nat>)
    requires forall i | 0 <= i < |ids| :: ids[i] in ram
    ensures |r| == |ids|
    ensures forall i | 0 <= i < |ids| :: r[i] == ram[ids[i]]
  {
    seq(|ids|, i requires 0 <= i < |ids| => ram[ids[i]])
  }

  ghost predicate SortedByRam(ids: seq<WorkerId>, ram: map<WorkerId, nat>) {
    && Distinct(ids)
    && (forall i | 0 <= i < |ids| :: ids[i] in ram)
    && (forall i, j | 0 <= i < j < |ids| :: ram[ids[i]] <= ram[ids[j]])
  }

  /** `line` lists the workers of `s` so that each has at least the RAM of the worker at its place in `ids`. */
  ghost predicate Outranks(line: seq<WorkerId>, s: set<WorkerId>, ids: seq<WorkerId>, ram: map<WorkerId, nat>) {
    && |line| == |s| <= |ids|
    && Distinct(line)
    && (forall i | 0 <= i < |line| :: line[i] in s)
    && (forall i | 0 <= i < |line| :: line[i] in ram && ids[i] in ram && ram[ids[i]] <= ram[line[i]])
  }

  /** Any set of `n` workers dominates, position by position, the `n` weakest ones. */
  lemma {:induction false} Dominates(ids: seq<WorkerId>, ram: map<WorkerId, nat>, s: set<WorkerId>)
    returns (line: seq<WorkerId>)
    requires SortedByRam(ids, ram)
    requires s <= Elements(ids)
    ensures Outranks(line, s, ids, ram)
    decreases |ids|
  {
    if ids == [] {
      assert Elements(ids) == {};
      line := [];
    } else {
      var n := |ids| - 1;
      var last := ids[n];
      assert Elements(ids) == Elements(ids[..n]) + {last};
      var rest := Dominates(ids[..n], ram, s - {last});
      line := if last in s then rest + [last] else rest;
      OutranksStep(ids, ram, s, rest);
    }
  }

  lemma OutranksStep(ids: seq<WorkerId>, ram: map<WorkerId, nat>, s: set<WorkerId>, rest: seq<WorkerId>)
    requires ids != [] && SortedByRam(ids, ram)
    requires Outranks(rest, s - {ids[|ids| - 1]}, ids[..|ids| - 1], ram)
    ensures var last := ids[|ids| - 1];
            Outranks(if last in s then rest + [last] else rest, s, ids, ram)
  {
    var last := ids[|ids| - 1];
    if last !in s {
      assert s - {last} == s;
    }
  }

  /** An assignment to positions becomes one to the workers standing in line at those positions. */
  lemma ServedByLine(at: seq<nat>, n: nat, line: seq<WorkerId>, s: set<WorkerId>, ids: seq<WorkerId>,
                     ram: map<WorkerId, nat>, tasks: seq<nat>)
    requires forall i | 0 <= i < |ids| :: ids[i] in ram
    requires ServesAt(at, 0, n, Rams(ids, ram), tasks) && n <= |line|
    requires Outranks(line, s, ids, ram)
    ensures CanServe(s, ram, tasks)
  {
    var chosen := seq(|at|, i requires 0 <= i < |at| => line[at[i]]);
    forall i | 0 <= i < |chosen| ensures chosen[i] in s && chosen[i] in ram && tasks[i] <= ram[chosen[i]] {
      assert Rams(ids, ram)[at[i]] == ram[ids[at[i]]];
    }
    forall i, j | 0 <= i < j < |chosen| ensures chosen[i] != chosen[j] {
      assert at[i] != at[j];
    }
    assert Serves(chosen, s, ram, tasks);
  }

  lemma FeasibleAbove(ids: seq<WorkerId>, ram: map<WorkerId, nat>, tasks: seq<nat>, s: set<WorkerId>)
    requires SortedByRam(ids, ram) && s <= Elements(ids)
    requires Walk(Rams(ids, ram), tasks, 0).Some? && Walk(Rams(ids, ram), tasks, 0).value <= |s|
    ensures CanServe(s, ram, tasks)
  {
    var at := WalkServes(Rams(ids, ram), tasks, 0);
    var line := Dominates(ids, ram, s);
    ServedByLine(at, Walk(Rams(ids, ram), tasks, 0).value, line, s, ids, ram, tasks);
  }

  lemma NecessaryBelow(ids: seq<WorkerId>, ram: map<WorkerId, nat>, tasks: seq<nat>, n: nat)
    requires SortedByRam(ids, ram) && Ascending(tasks) && n <= |ids|
    requires CanServe(Elements(ids[..n]), ram, tasks)
    ensures Walk(Rams(ids, ram), tasks, 0).Some? && Walk(Rams(ids, ram), tasks, 0).value <= n
  {
    var chosen :| Serves(chosen, Elements(ids[..n]), ram, tasks);
    var at: seq<nat> := [];
    while |at| < |chosen|
      invariant |at| <= |chosen|
      invariant forall i | 0 <= i < |at| :: at[i] < n && ids[at[i]] == chosen[i]
    {
      assert chosen[|at|] in ids[..n];
      var k: nat :| k < n && ids[k] == chosen[|at|];
      at := at + [k];
    }
    WalkIsLeast(at, 0, n, Rams(ids, ram), tasks);
  }

  /** The greedy count is the least number of workers any choice of which serves every task. */
  lemma GreedyIsLeast(ids: seq<WorkerId>, ram: map<WorkerId, nat>, tasks: seq<nat>, n: nat)
    requires SortedByRam(ids, ram) && Ascending(tasks) && n <= |ids|
    ensures AnyCanServe(n, Elements(ids), ram, tasks) <==>
            Walk(Rams(ids, ram), tasks, 0).Some? && Walk(Rams(ids, ram), tasks, 0).value <= n
  {
    if AnyCanServe(n, Elements(ids), ram, tasks) {
      DistinctCardinality(ids[..n]);
      assert Elements(ids[..n]) <= Elements(ids);
      NecessaryBelow(ids, ram, tasks, n);
    }
    if Walk(Rams(ids, ram), tasks, 0).Some? && Walk(Rams(ids, ram), tasks, 0).value <= n {
      forall s: set<WorkerId> | s <= Elements(ids) && |s| == n ensures CanServe(s, ram, tasks) {
        FeasibleAbove(ids, ram, tasks, s);
      }
    }
  }

  /** When even the weakest worker covers the largest task, the walk takes one worker per task. */
  lemma {:induction false} UniformWalk(rams: seq<nat>, tasks: seq<nat>, start: nat)
    requires start <= |rams|
    requires forall i, j | 0 <= i < |rams| && 0 <= j < |tasks| :: tasks[j] <= rams[i]
    ensures start + |tasks| <= |rams| ==> Walk(rams, tasks, start) == Some(start + |tasks|)
    ensures start + |tasks| > |rams| ==> Walk(rams, tasks, start) == None
    decreases tasks
  {
    if tasks != [] {
      var k := NextFit(rams, tasks[0], start);
      if start < |rams| {
        assert k == start;
        UniformWalk(rams, tasks[1..], start + 1);
      }
    }
  }
}

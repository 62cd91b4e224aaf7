/**
 How many any-cpu workers are kept free for the waiting real-cpu tasks
 (`_getNumberOfBlockedAnyCpuWorkers`, prioritizing.py:544-596).
 */
module Blocking {
  import opened Types
  import opened SortedSets
  import opened Matching
  import opened ManagerModel

  function AnyCpuRams(m: Manager): seq<nat> {
    Rams(IdsOf(m.order, m.data, true), TotalRam(m))
  }

  function BlockedCount(least: Option<nat>, rams: seq<nat>, waitingRam: seq<nat>): nat {
    if least.None? || waitingRam == [] then 0
    else if least.value >= waitingRam[|waitingRam| - 1] then |waitingRam|
    else GreedyBlocked(Sort(rams), waitingRam)
  }

  function Blocked(m: Manager, waitingRam: seq<nat>): nat {
    BlockedCount(m.minAny, AnyCpuRams(m), waitingRam)
  }

  // ----- the workers behind the sorted RAM list

  ghost predicate HaveRam(ids: seq<WorkerId>, ram: map<WorkerId, nat>) {
    forall i | 0 <= i < |ids| :: ids[i] in ram
  }

  lemma RamsOfCons(id: WorkerId, ids: seq<WorkerId>, ram: map<WorkerId, nat>)
    requires id in ram && HaveRam(ids, ram)
    ensures HaveRam([id] + ids, ram) && Rams([id] + ids, ram) == [ram[id]] + Rams(ids, ram)
  {
  }

  ghost function PlaceId(ids: seq<WorkerId>, ram: map<WorkerId, nat>, id: WorkerId): (r: seq<WorkerId>)
    requires id in ram && HaveRam(ids, ram)
    ensures HaveRam(r, ram) && multiset(r) == multiset(ids) + multiset{id}
  {
    if ids == [] || ram[id] < ram[ids[0]] then [id] + ids
    else
      assert ids == [ids[0]] + ids[1..];
      [ids[0]] + PlaceId(ids[1..], ram, id)
  }

  lemma {:induction false} PlaceIdSorts(ids: seq<WorkerId>, ram: map<WorkerId, nat>, id: WorkerId)
    requires id in ram && HaveRam(ids, ram)
    ensures Rams(PlaceId(ids, ram, id), ram) == SortedAdd(Rams(ids, ram), ram[id])
  {
    if ids == [] || ram[id] < ram[ids[0]] {
      RamsOfCons(id, ids, ram);
    } else {
      assert ids == [ids[0]] + ids[1..];
      RamsOfCons(ids[0], ids[1..], ram);
      PlaceIdSorts(ids[1..], ram, id);
      RamsOfCons(ids[0], PlaceId(ids[1..], ram, id), ram);
    }
  }

  /** Sorting the RAM amounts is the same as sorting the workers by RAM. */
  ghost function SortIds(ids: seq<WorkerId>, ram: map<WorkerId, nat>): (r: seq<WorkerId>)
    requires HaveRam(ids, ram)
    ensures HaveRam(r, ram) && multiset(r) == multiset(ids)
    ensures Rams(r, ram) == Sort(Rams(ids, ram))
  {
    if ids == [] then []
    else
      assert ids == [ids[0]] + ids[1..] && Rams(ids, ram)[1..] == Rams(ids[1..], ram);
      PlaceIdSorts(SortIds(ids[1..], ram), ram, ids[0]);
      PlaceId(SortIds(ids[1..], ram), ram, ids[0])
  }

  lemma PermutationDistinct(xs: seq<WorkerId>, ys: seq<WorkerId>)
    requires Distinct(xs) && multiset(xs) == multiset(ys)
    ensures Distinct(ys) && Elements(ys) == Elements(xs)
  {
    forall i, j | 0 <= i < j < |ys| ensures ys[i] != ys[j] {
      AtMostOnce(xs, ys[i]);
      Occurrences(ys, i, j);
    }
    forall x ensures x in Elements(ys) <==> x in Elements(xs) {
      assert x in Elements(ys) <==> x in multiset(ys);
    }
  }

  lemma Occurrences(ys: seq<WorkerId>, i: nat, j: nat)
    requires i < j < |ys|
    ensures ys[i] == ys[j] ==> multiset(ys)[ys[i]] >= 2
  {
    assert ys == ys[..i] + [ys[i]] + ys[i + 1..j] + [ys[j]] + ys[j + 1..];
  }

  lemma {:induction false} AtMostOnce(xs: seq<WorkerId>, x: WorkerId)
    requires Distinct(xs)
    ensures multiset(xs)[x] <= 1
  {
    if xs != [] {
      assert xs == [xs[0]] + xs[1..];
      AtMostOnce(xs[1..], x);
      if x == xs[0] {
        forall i | 0 <= i < |xs[1..]| ensures xs[1..][i] != x { assert xs[i + 1] != xs[0]; }
      }
    }
  }

  lemma AnyCpuList(m: Manager)
    requires DictionaryOk(m)
    ensures Elements(IdsOf(m.order, m.data, true)) == AnyCpu(m)
  {
    forall id | id in AnyCpu(m) ensures id in m.order { assert id in Elements(m.order); }
  }

  lemma SortedWorkers(m: Manager) returns (ids: seq<WorkerId>)
    requires DictionaryOk(m)
    ensures SortedByRam(ids, TotalRam(m))
    ensures Elements(ids) == AnyCpu(m) && |ids| == |AnyCpu(m)|
    ensures Rams(ids, TotalRam(m)) == Sort(AnyCpuRams(m))
  {
    AnyCpuList(m);
    var ram, all := TotalRam(m), IdsOf(m.order, m.data, true);
    ids := SortIds(all, ram);
    PermutationDistinct(all, ids);
    DistinctCardinality(ids);
    SortSorts(AnyCpuRams(m));
    forall i, j | 0 <= i < j < |ids| ensures ram[ids[i]] <= ram[ids[j]] {
      assert Rams(ids, ram)[i] <= Rams(ids, ram)[j];
    }
  }

  // ----- the theorem

  function Min(a: nat, b: nat): nat { if a <= b then a else b }

  lemma SortedAtLeast(rams: seq<nat>, least: nat)
    requires forall k | 0 <= k < |rams| :: least <= rams[k]
    ensures forall i | 0 <= i < |rams| :: least <= Sort(rams)[i]
  {
    var sorted := Sort(rams);
    SortSorts(rams);
    forall i | 0 <= i < |rams| ensures least <= sorted[i] {
      assert sorted[i] in multiset(rams);
    }
  }

  lemma UniformGreedy(rams: seq<nat>, tasks: seq<nat>, least: nat)
    requires forall i | 0 <= i < |rams| :: least <= rams[i]
    requires forall j | 0 <= j < |tasks| :: tasks[j] <= least
    ensures GreedyBlocked(Sort(rams), tasks) == Min(|tasks|, |rams|)
  {
    SortedAtLeast(rams, least);
    UniformWalk(Sort(rams), tasks, 0);
  }

  lemma FastPathCount(rams: seq<nat>, tasks: seq<nat>, least: nat)
    requires forall i | 0 <= i < |rams| :: least <= rams[i]
    requires Ascending(tasks) && tasks != [] && tasks[|tasks| - 1] <= least
    ensures Min(|tasks|, |rams|) == GreedyBlocked(Sort(rams), tasks)
  {
    forall j | 0 <= j < |tasks| ensures tasks[j] <= least {
      assert tasks[j] <= tasks[|tasks| - 1];
    }
    UniformGreedy(rams, tasks, least);
  }

  lemma GreedyIsCapped(rams: seq<nat>, tasks: seq<nat>)
    ensures GreedyBlocked(Sort(rams), tasks) <= |rams|
    ensures tasks == [] ==> GreedyBlocked(Sort(rams), tasks) == 0
  {
    SortSorts(rams);
  }

  lemma FastPath(rams: seq<nat>, waitingRam: seq<nat>)
    requires Ascending(waitingRam)
    ensures Min(BlockedCount(MinOf(rams), rams, waitingRam), |rams|) == GreedyBlocked(Sort(rams), waitingRam)
  {
    GreedyIsCapped(rams, waitingRam);
    var least := MinOf(rams);
    if least.Some? && waitingRam != [] && least.value >= waitingRam[|waitingRam| - 1] {
      FastPathCount(rams, waitingRam, least.value);
    }
  }

  /** The fast path, when the weakest any-cpu worker covers the largest waiting task. */
  lemma FastPathAgrees(m: Manager, waitingRam: seq<nat>)
    requires DictionaryOk(m) && StatsOk(m) && Ascending(waitingRam)
    ensures Min(Blocked(m, waitingRam), |AnyCpu(m)|) == GreedyBlocked(Sort(AnyCpuRams(m)), waitingRam)
  {
    AnyCpuList(m);
    DistinctCardinality(IdsOf(m.order, m.data, true));
    FastPath(AnyCpuRams(m), waitingRam);
  }

  /**
   Capped at the number `n` of any-cpu workers, the returned count is the least `N` such that any `N`
   any-cpu workers can run all waiting tasks at once, and it is `n` when there is no such `N`.
   */
  lemma BlockedIsLeast(m: Manager, waitingRam: seq<nat>)
    requires DictionaryOk(m) && StatsOk(m) && Ascending(waitingRam)
    ensures var n := |AnyCpu(m)|;
            var b := Min(Blocked(m, waitingRam), n);
            if exists k: nat :: k <= n && AnyCanServe(k, AnyCpu(m), TotalRam(m), waitingRam)
            then forall k: nat | k <= n :: AnyCanServe(k, AnyCpu(m), TotalRam(m), waitingRam) <==> b <= k
            else b == n
  {
    var ids := SortedWorkers(m);
    FastPathAgrees(m, waitingRam);
    forall k: nat | k <= |AnyCpu(m)|
      ensures AnyCanServe(k, AnyCpu(m), TotalRam(m), waitingRam) <==>
              Walk(Sort(AnyCpuRams(m)), waitingRam, 0).Some? && Walk(Sort(AnyCpuRams(m)), waitingRam, 0).value <= k
    {
      GreedyIsLeast(ids, TotalRam(m), waitingRam, k);
    }
    if Walk(Sort(AnyCpuRams(m)), waitingRam, 0).Some? {
      assert AnyCanServe(|AnyCpu(m)|, AnyCpu(m), TotalRam(m), waitingRam);
    }
  }

  /** The test that guards the third scheduling phase does not depend on which path computed the count. */
  lemma GuardAgrees(m: Manager, waitingRam: seq<nat>, queueSize: nat)
    requires DictionaryOk(m) && StatsOk(m) && Ascending(waitingRam)
    requires queueSize <= |AnyCpu(m)|
    ensures queueSize > Blocked(m, waitingRam) <==> queueSize > GreedyBlocked(Sort(AnyCpuRams(m)), waitingRam)
  {
    FastPathAgrees(m, waitingRam);
  }

  /** While more workers than the blocked count are not full, any one of them can be taken. */
  lemma TakingOneKeepsReserve(m: Manager, waitingRam: seq<nat>, free: set<WorkerId>, rest: set<WorkerId>)
    requires DictionaryOk(m) && StatsOk(m) && Ascending(waitingRam)
    requires free <= AnyCpu(m) && |free| > Blocked(m, waitingRam)
    requires rest <= free && |rest| >= |free| - 1
    ensures CanServe(rest, TotalRam(m), waitingRam)
  {
    BlockedIsLeast(m, waitingRam);
    var n, k := |AnyCpu(m)|, |rest|;
    SubsetCardinality(free, AnyCpu(m));
    SubsetCardinality(rest, AnyCpu(m));
    assert AnyCanServe(k, AnyCpu(m), TotalRam(m), waitingRam);
  }
}

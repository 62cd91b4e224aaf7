/** Choosing the worker for a task (prioritizing.py:402-488). */
module WorkerChoice {
  import opened Types
  import opened SortedSets
  import opened SchedulerState

  predicate Viable(w: Worker, ram: nat) {
    w.Available() >= ram && w.Slots() > 0
  }

  function Abs(x: real): real { if x < 0.0 then -x else x }

  /** `suitability`: partially busy workers first if asked for, then the smallest distance. */
  datatype Score = Score(busy: bool, distance: real)

  /** How far the RAM share of one free slot is from the task's RAM. */
  function Distance(left: int, slots: int, ram: nat): real
    requires slots > 0
  {
    Abs(left as real / slots as real - ram as real)
  }

  /** No score for workers that are not viable. */
  function ScoreOf(w: Worker, ram: nat, preferBusy: bool): Option<Score> {
    if !Viable(w, ram) then None
    else Some(Score(preferBusy && w.running > 0, Distance(w.Available(), w.Slots(), ram)))
  }

  predicate Higher(a: Score, b: Score) {
    (a.busy && !b.busy) || (a.busy == b.busy && a.distance < b.distance)
  }

  /** The scan: keep the first viable worker that no later one beats. */
  function Scan(scores: seq<Option<Score>>): (best: Option<nat>)
    ensures best.Some? ==> best.value < |scores| && scores[best.value].Some?
  {
    if scores == [] then None
    else
      var n := |scores| - 1;
      var best := Scan(scores[..n]);
      if scores[n].Some? && (best.None? || Higher(scores[n].value, scores[best.value].value)) then Some(n) else best
  }

  lemma {:induction false} ScanIsFirstMaximum(scores: seq<Option<Score>>)
    ensures var best := Scan(scores);
            if best.None? then forall i | 0 <= i < |scores| :: scores[i].None?
            else
              && (forall i | 0 <= i < |scores| && scores[i].Some? ::
                    !Higher(scores[i].value, scores[best.value].value))
              && (forall i | 0 <= i < best.value && scores[i].Some? ::
                    Higher(scores[best.value].value, scores[i].value))
  {
    if scores != [] {
      ScanIsFirstMaximum(scores[..|scores| - 1]);
    }
  }

  function Scores(q: seq<WorkerId>, ws: Workers, ram: nat, preferBusy: bool): (r: seq<Option<Score>>)
    requires forall i | 0 <= i < |q| :: q[i] in ws
    ensures |r| == |q|
    ensures forall i | 0 <= i < |q| :: r[i] == ScoreOf(ws[q[i]], ram, preferBusy)
  {
    seq(|q|, i requires 0 <= i < |q| => ScoreOf(ws[q[i]], ram, preferBusy))
  }

  function BestVirtual(q: seq<WorkerId>, ws: Workers, ram: nat, preferBusy: bool): (r: Option<WorkerId>)
    requires forall i | 0 <= i < |q| :: q[i] in ws
    ensures r.Some? ==> r.value in q && r.value in ws && Viable(ws[r.value], ram)
  {
    match Scan(Scores(q, ws, ram, preferBusy)) case None => None case Some(k) => Some(q[k])
  }

  lemma BestVirtualScans(q: seq<WorkerId>, ws: Workers, ram: nat, preferBusy: bool)
    requires forall i | 0 <= i < |q| :: q[i] in ws
    ensures var r := BestVirtual(q, ws, ram, preferBusy);
            if r.None? then forall i | 0 <= i < |q| :: !Viable(ws[q[i]], ram)
            else exists k :: 0 <= k < |q| && q[k] == r.value && IsFirstMaximum(q, ws, ram, preferBusy, k)
  {
    ScanIsFirstMaximum(Scores(q, ws, ram, preferBusy));
    var best := Scan(Scores(q, ws, ram, preferBusy));
    forall i | 0 <= i < |q| ensures Viable(ws[q[i]], ram) <==> Scores(q, ws, ram, preferBusy)[i].Some? {}
    if best.Some? { assert IsFirstMaximum(q, ws, ram, preferBusy, best.value); }
  }

  ghost predicate IsFirstMaximum(q: seq<WorkerId>, ws: Workers, ram: nat, preferBusy: bool, k: nat)
    requires forall i | 0 <= i < |q| :: q[i] in ws
    requires k < |q|
  {
    && Viable(ws[q[k]], ram)
    && (forall i | 0 <= i < |q| && Viable(ws[q[i]], ram) ::
          !Higher(ScoreOf(ws[q[i]], ram, preferBusy).value, ScoreOf(ws[q[k]], ram, preferBusy).value))
    && (forall i | 0 <= i < k && Viable(ws[q[i]], ram) ::
          Higher(ScoreOf(ws[q[k]], ram, preferBusy).value, ScoreOf(ws[q[i]], ram, preferBusy).value))
  }

  // ----- the choice in terms of the records of the workers, in whole numbers

  /** The worker has a free slot and enough RAM for the task. */
  predicate Takes(w: Worker, ram: nat) {
    !w.realBusy && w.running < w.concurrency && w.usedRam + ram <= w.totalRam
  }

  function Size(d: int): nat { if d < 0 then -d else d }

  /** The distance between the RAM that is left and what the task would need in every free slot. */
  function Gap(w: Worker, ram: nat): nat {
    Size(w.totalRam - w.usedRam - ram * (w.concurrency - w.running))
  }

  /** The RAM left to each free slot of `a` is closer to the RAM of the task than that of `b`. */
  predicate Closer(a: Worker, b: Worker, ram: nat) {
    Gap(a, ram) * (b.concurrency - b.running) < Gap(b, ram) * (a.concurrency - a.running)
  }

  /** Partially busy workers come first if asked for, then those with the closer share of RAM. */
  predicate Better(a: Worker, b: Worker, ram: nat, preferBusy: bool) {
    if preferBusy && a.running > 0 && b.running == 0 then true
    else if preferBusy && a.running == 0 && b.running > 0 then false
    else Closer(a, b, ram)
  }

  lemma Scaled(left: int, slots: int, ram: int)
    requires slots > 0
    ensures (left as real / slots as real - ram as real) * slots as real == (left - ram * slots) as real
  {
    var l, s, r := left as real, slots as real, ram as real;
    assert l / s * s == l;
    assert (l / s - r) * s == l / s * s - r * s;
    assert (ram * slots) as real == r * s;
  }

  lemma AbsScaled(x: real, s: real)
    requires s > 0.0
    ensures Abs(x) * s == if x * s < 0.0 then -(x * s) else x * s
  {
    if x < 0.0 { assert x * s < 0.0; } else { assert x * s >= 0.0; }
  }

  lemma CompareScaled(x: real, y: real, s: real, t: real)
    requires s > 0.0 && t > 0.0
    ensures x < y <==> x * s * t < y * t * s
  {
    assert x * s * t == x * (s * t) && y * t * s == y * (s * t);
    assert s * t > 0.0;
    if x < y { assert (y - x) * (s * t) > 0.0; } else { assert (x - y) * (s * t) >= 0.0; }
  }

  lemma ProductIsReal(g: int, t: int)
    ensures (g * t) as real == g as real * t as real
  {
  }

  lemma CompareWhole(x: real, y: real, s: int, t: int, g: nat, h: nat)
    requires s > 0 && t > 0 && x * s as real == g as real && y * t as real == h as real
    ensures x < y <==> g * t < h * s
  {
    var p, q := g * t, h * s;
    assert x < y <==> g as real * t as real < h as real * s as real by { CompareScaled(x, y, s as real, t as real); }
    assert p as real == g as real * t as real by { ProductIsReal(g, t); }
    assert q as real == h as real * s as real by { ProductIsReal(h, s); }
    assert x < y <==> p < q;
  }

  lemma SizeScaled(x: real, s: real, d: int)
    requires s > 0.0 && x * s == d as real
    ensures Abs(x) * s == Size(d) as real
  {
    AbsScaled(x, s);
  }

  lemma DistanceScaled(left: int, slots: int, ram: nat)
    requires slots > 0
    ensures Distance(left, slots, ram) * slots as real == Size(left - ram * slots) as real
  {
    var x, d := left as real / slots as real - ram as real, left - ram * slots;
    assert x * slots as real == d as real by { Scaled(left, slots, ram); }
    assert Abs(x) * slots as real == Size(d) as real by { SizeScaled(x, slots as real, d); }
  }

  lemma CompareDistances(l: int, s: int, m: int, t: int, ram: nat)
    requires s > 0 && t > 0
    ensures Distance(l, s, ram) < Distance(m, t, ram) <==> Size(l - ram * s) * t < Size(m - ram * t) * s
  {
    var x, y, g, h := Distance(l, s, ram), Distance(m, t, ram), Size(l - ram * s), Size(m - ram * t);
    assert x * s as real == g as real by { DistanceScaled(l, s, ram); }
    assert y * t as real == h as real by { DistanceScaled(m, t, ram); }
    assert x < y <==> g * t < h * s by { CompareWhole(x, y, s, t, g, h); }
  }

  lemma CloserIs(a: Worker, b: Worker, ram: nat)
    requires Viable(a, ram) && Viable(b, ram)
    ensures ScoreOf(a, ram, false).value.distance < ScoreOf(b, ram, false).value.distance <==> Closer(a, b, ram)
  {
    CompareDistances(a.totalRam - a.usedRam, a.concurrency - a.running, b.totalRam - b.usedRam,
                     b.concurrency - b.running, ram);
  }

  lemma ScoreParts(w: Worker, ram: nat, preferBusy: bool)
    requires Viable(w, ram)
    ensures ScoreOf(w, ram, preferBusy).value
            == Score(preferBusy && w.running > 0, ScoreOf(w, ram, false).value.distance)
  {
  }

  lemma HigherIsBetter(a: Worker, b: Worker, ram: nat, preferBusy: bool)
    requires Viable(a, ram) && Viable(b, ram)
    ensures Higher(ScoreOf(a, ram, preferBusy).value, ScoreOf(b, ram, preferBusy).value)
            <==> Better(a, b, ram, preferBusy)
  {
    ScoreParts(a, ram, preferBusy);
    ScoreParts(b, ram, preferBusy);
    CloserIs(a, b, ram);
  }

  /**
   No worker is returned exactly when none in the queue can take the task. A returned one can; none that can is
   better, and those that can and come before it in the queue are worse.
   */
  lemma BestVirtualIsMaximal(q: seq<WorkerId>, ws: Workers, ram: nat, preferBusy: bool)
    requires forall i | 0 <= i < |q| :: q[i] in ws
    ensures var r := BestVirtual(q, ws, ram, preferBusy);
            if r.None? then forall i | 0 <= i < |q| :: !Takes(ws[q[i]], ram)
            else exists k :: 0 <= k < |q| && q[k] == r.value && IsFirstBest(q, ws, ram, preferBusy, k)
  {
    BestVirtualScans(q, ws, ram, preferBusy);
    var r := BestVirtual(q, ws, ram, preferBusy);
    if r.Some? {
      var k :| 0 <= k < |q| && q[k] == r.value && IsFirstMaximum(q, ws, ram, preferBusy, k);
      forall i | 0 <= i < |q| && Takes(ws[q[i]], ram)
        ensures !Better(ws[q[i]], ws[q[k]], ram, preferBusy)
        ensures i < k ==> Better(ws[q[k]], ws[q[i]], ram, preferBusy)
      {
        HigherIsBetter(ws[q[i]], ws[q[k]], ram, preferBusy);
        HigherIsBetter(ws[q[k]], ws[q[i]], ram, preferBusy);
      }
      assert IsFirstBest(q, ws, ram, preferBusy, k);
    }
  }

  ghost predicate IsFirstBest(q: seq<WorkerId>, ws: Workers, ram: nat, preferBusy: bool, k: nat)
    requires forall i | 0 <= i < |q| :: q[i] in ws
    requires k < |q|
  {
    && Takes(ws[q[k]], ram)
    && (forall i | 0 <= i < |q| && Takes(ws[q[i]], ram) :: !Better(ws[q[i]], ws[q[k]], ram, preferBusy))
    && (forall i | 0 <= i < k && Takes(ws[q[i]], ram) :: Better(ws[q[k]], ws[q[i]], ram, preferBusy))
  }

  /** The search for an empty any-cpu worker, stopping at the first partially busy one. */
  function BestReal(q: seq<WorkerId>, ws: Workers, ram: nat): (r: Option<WorkerId>)
    requires forall i | 0 <= i < |q| :: q[i] in ws
    ensures r.Some? ==> r.value in q && r.value in ws && ws[r.value].running == 0 && ws[r.value].Available() >= ram
  {
    if q == [] || ws[q[0]].running > 0 then None
    else if ws[q[0]].Available() >= ram then Some(q[0])
    else BestReal(q[1..], ws, ram)
  }

  ghost predicate Empty(w: Worker, ram: nat) {
    w.cpuEnabled && w.running == 0 && Takes(w, ram)
  }

  lemma {:induction false} BestRealInOrder(q: seq<WorkerId>, ws: Workers, ram: nat)
    requires forall i | 0 <= i < |q| :: q[i] in ws
    requires Increasing(QueueKeys(AnyCpuKind, ws, q))
    ensures var r := BestReal(q, ws, ram);
            && (r.None? ==> forall i | 0 <= i < |q| :: !(ws[q[i]].running == 0 && ws[q[i]].Available() >= ram))
            && (r.Some? ==> forall i | 0 <= i < |q| && ws[q[i]].running == 0 && ws[q[i]].Available() >= ram ::
                  q[i] == r.value || Less(WorkerKey(AnyCpuKind, ws[r.value]), WorkerKey(AnyCpuKind, ws[q[i]])))
  {
    var keys := QueueKeys(AnyCpuKind, ws, q);
    if q == [] {
    } else if ws[q[0]].running > 0 {
      forall i | 0 <= i < |q| ensures ws[q[i]].running > 0 {
        if i > 0 { assert Less(keys[0], keys[i]); }
      }
    } else if ws[q[0]].Available() >= ram {
      forall i | 0 < i < |q| ensures Less(WorkerKey(AnyCpuKind, ws[q[0]]), WorkerKey(AnyCpuKind, ws[q[i]])) {
        assert Less(keys[0], keys[i]);
      }
    } else {
      assert keys[1..] == QueueKeys(AnyCpuKind, ws, q[1..]);
      BestRealInOrder(q[1..], ws, ram);
      forall i | 0 < i < |q| ensures q[i] == q[1..][i - 1] {}
    }
  }

  /** The empty worker `id` has enough RAM, and of those that have none has less; equal ones go by name. */
  ghost predicate IsLeastEmpty(ws: Workers, id: WorkerId, ram: nat) {
    && id in ws && Empty(ws[id], ram)
    && forall k | k in ws && Empty(ws[k], ram) ::
         var a, b := ws[id].totalRam - ws[id].usedRam, ws[k].totalRam - ws[k].usedRam;
         a < b || (a == b && id.rank <= k.rank)
  }

  /** None exactly when no empty any-cpu worker has enough RAM; otherwise the one with the least sufficient RAM. */
  lemma BestRealIsLeast(q: seq<WorkerId>, ws: Workers, ram: nat)
    requires WorkersOk(ws) && IndexOk(AnyCpuKind, ws, q)
    ensures forall i | 0 <= i < |q| :: q[i] in ws
    ensures var r := BestReal(q, ws, ram);
            && (r.None? <==> forall id | id in ws :: !Empty(ws[id], ram))
            && (r.Some? ==> IsLeastEmpty(ws, r.value, ram))
  {
    forall i | 0 <= i < |q| ensures q[i] in ws { assert q[i] in q; }
    BestRealInOrder(q, ws, ram);
    var r := BestReal(q, ws, ram);
    forall id | id in ws && Empty(ws[id], ram)
      ensures r.Some?
      ensures id == r.value || Less(WorkerKey(AnyCpuKind, ws[r.value]), WorkerKey(AnyCpuKind, ws[id]))
    {
      assert id in q;
      var i :| 0 <= i < |q| && q[i] == id;
    }
    if r.Some? { assert r.value in q && ws[r.value].id == r.value; }
  }
}

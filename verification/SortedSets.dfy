/**
 The ordering discipline of sorted containers: elements are placed and looked up by bisecting on
 their keys, so a lookup succeeds only while the stored keys are still in order.
 */
module SortedSets {

  /** Every index of the scheduler sorts by a tuple of at most three components. */
  datatype Key = Key(a: int, b: int, c: int)

  predicate Less(x: Key, y: Key) {
    x.a < y.a || (x.a == y.a && (x.b < y.b || (x.b == y.b && x.c < y.c)))
  }

  ghost predicate Increasing(keys: seq<Key>) {
    forall i, j | 0 <= i < j < |keys| :: Less(keys[i], keys[j])
  }

  /** Bisection: the first position whose key is not below `key`. */
  function Position(keys: seq<Key>, key: Key): (p: nat)
    ensures p <= |keys|
    ensures forall i | 0 <= i < p :: Less(keys[i], key)
    ensures p < |keys| ==> !Less(keys[p], key)
  {
    if keys == [] || !Less(keys[0], key) then 0 else 1 + Position(keys[1..], key)
  }

  function InsertAt<T>(xs: seq<T>, p: nat, x: T): (r: seq<T>)
    requires p <= |xs|
    ensures |r| == |xs| + 1
  {
    xs[..p] + [x] + xs[p..]
  }

  function RemoveAt<T>(xs: seq<T>, p: nat): (r: seq<T>)
    requires p < |xs|
    ensures |r| == |xs| - 1
  {
    xs[..p] + xs[p + 1..]
  }

  lemma InsertAtMembers<T>(xs: seq<T>, p: nat, x: T)
    requires p <= |xs|
    ensures forall y :: y in InsertAt(xs, p, x) <==> y in xs || y == x
    ensures multiset(InsertAt(xs, p, x)) == multiset(xs) + multiset{x}
  {
    assert xs == xs[..p] + xs[p..];
  }

  lemma RemoveAtMembers<T>(xs: seq<T>, p: nat)
    requires p < |xs|
    requires forall i, j | 0 <= i < j < |xs| :: xs[i] != xs[j]
    ensures forall y :: y in RemoveAt(xs, p) <==> y in xs && y != xs[p]
  {
    forall y | y in xs && y != xs[p] ensures y in RemoveAt(xs, p) {
      var i :| 0 <= i < |xs| && xs[i] == y;
      assert RemoveAt(xs, p)[if i < p then i else i - 1] == y;
    }
    forall y | y in RemoveAt(xs, p) ensures y in xs && y != xs[p] {
      var i :| 0 <= i < |xs| - 1 && RemoveAt(xs, p)[i] == y;
      assert y == xs[if i < p then i else i + 1];
    }
  }

  lemma InsertKeepsIncreasing(keys: seq<Key>, key: Key)
    requires Increasing(keys) && key !in keys
    ensures Increasing(InsertAt(keys, Position(keys, key), key))
  {
    var p := Position(keys, key);
    if p < |keys| { assert keys[p] != key; }
  }

  lemma RemoveKeepsIncreasing(keys: seq<Key>, p: nat)
    requires Increasing(keys) && p < |keys|
    ensures Increasing(RemoveAt(keys, p))
  {
  }

  /** Looking a stored key up finds its place, provided the keys are in order. */
  lemma PositionFinds(keys: seq<Key>, i: nat)
    requires Increasing(keys) && i < |keys|
    ensures Position(keys, keys[i]) == i
  {
  }

  // ----- sorted lists of numbers (duplicates allowed)

  ghost predicate Ascending(xs: seq<nat>) {
    forall i, j | 0 <= i < j < |xs| :: xs[i] <= xs[j]
  }

  /** `SortedList.add`: after the elements that are not greater. */
  function SortedAdd(xs: seq<nat>, x: nat): (r: seq<nat>)
    ensures |r| == |xs| + 1
  {
    if xs == [] || x < xs[0] then [x] + xs else [xs[0]] + SortedAdd(xs[1..], x)
  }

  /** `SortedList.discard`: the first occurrence, if any. */
  function SortedDiscard(xs: seq<nat>, x: nat): seq<nat> {
    if xs == [] then []
    else if xs[0] == x then xs[1..]
    else [xs[0]] + SortedDiscard(xs[1..], x)
  }

  function Sort(xs: seq<nat>): (r: seq<nat>)
    ensures |r| == |xs|
  {
    if xs == [] then [] else SortedAdd(Sort(xs[1..]), xs[0])
  }

  lemma ConsAscending(x: nat, xs: seq<nat>)
    requires Ascending(xs) && forall y | y in multiset(xs) :: x <= y
    ensures Ascending([x] + xs)
  {
    forall i | 0 <= i < |xs| ensures x <= xs[i] {
      assert xs[i] in multiset(xs);
    }
  }

  lemma {:induction false} SortedAddMembers(xs: seq<nat>, x: nat)
    ensures multiset(SortedAdd(xs, x)) == multiset(xs) + multiset{x}
  {
    if xs != [] {
      assert xs == [xs[0]] + xs[1..];
      if x >= xs[0] { SortedAddMembers(xs[1..], x); }
    }
  }

  lemma {:induction false} SortedAddKeeps(xs: seq<nat>, x: nat)
    requires Ascending(xs)
    ensures Ascending(SortedAdd(xs, x))
  {
    if xs == [] || x < xs[0] {
    } else {
      SortedAddKeeps(xs[1..], x);
      SortedAddMembers(xs[1..], x);
      ConsAscending(xs[0], SortedAdd(xs[1..], x));
    }
  }

  lemma {:induction false} SortedDiscardMembers(xs: seq<nat>, x: nat)
    ensures multiset(SortedDiscard(xs, x)) == multiset(xs) - multiset{x}
  {
    if xs != [] {
      assert xs == [xs[0]] + xs[1..];
      if xs[0] != x { SortedDiscardMembers(xs[1..], x); }
    }
  }

  lemma {:induction false} SortedDiscardKeeps(xs: seq<nat>, x: nat)
    requires Ascending(xs)
    ensures Ascending(SortedDiscard(xs, x))
  {
    if xs != [] && xs[0] != x {
      SortedDiscardKeeps(xs[1..], x);
      SortedDiscardMembers(xs[1..], x);
      ConsAscending(xs[0], SortedDiscard(xs[1..], x));
    }
  }

  lemma {:induction false} SortSorts(xs: seq<nat>)
    ensures Ascending(Sort(xs))
    ensures multiset(Sort(xs)) == multiset(xs)
  {
    if xs != [] {
      SortSorts(xs[1..]);
      SortedAddKeeps(Sort(xs[1..]), xs[0]);
      SortedAddMembers(Sort(xs[1..]), xs[0]);
      assert xs == [xs[0]] + xs[1..];
    }
  }
}

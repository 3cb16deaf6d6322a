/**
 * The stable sort of a rule's split targets by `applyOrder`
 * (`rule.splits.sort((a, b) => a.applyOrder - b.applyOrder)`).
 *
 * JS `Array.prototype.sort` is stable, so the specification is a stable
 * insertion sort; the array version below runs the same insertion sort in place.
 */
module SplitOrdering {
  import opened BnplTypes

  predicate SortedByOrder(s: seq<SplitTarget>) {
    forall i, j :: 0 <= i < j < |s| ==> s[i].applyOrder <= s[j].applyOrder
  }

  /** Insert `x` after every element whose order is not greater than its own. */
  function Insert(s: seq<SplitTarget>, x: SplitTarget): (r: seq<SplitTarget>)
    ensures |r| == |s| + 1
  {
    if s == [] || s[|s| - 1].applyOrder <= x.applyOrder then s + [x]
    else Insert(s[..|s| - 1], x) + [s[|s| - 1]]
  }

  /** Stable sort by ascending `applyOrder`. */
  function SortByApplyOrder(s: seq<SplitTarget>): (r: seq<SplitTarget>)
    ensures |r| == |s|
  {
    if s == [] then [] else Insert(SortByApplyOrder(s[..|s| - 1]), s[|s| - 1])
  }

  /** The targets of `s` whose order is `k`, in their order in `s`. */
  function WithOrder(s: seq<SplitTarget>, k: real): seq<SplitTarget> {
    if s == [] then []
    else WithOrder(s[..|s| - 1], k) + (if s[|s| - 1].applyOrder == k then [s[|s| - 1]] else [])
  }

  lemma {:induction false} WithOrderAppend(a: seq<SplitTarget>, b: seq<SplitTarget>, k: real)
    ensures WithOrder(a + b, k) == WithOrder(a, k) + WithOrder(b, k)
  {
    if b == [] {
      assert a + b == a;
    } else {
      assert (a + b)[..|a + b| - 1] == a + b[..|b| - 1];
      WithOrderAppend(a, b[..|b| - 1], k);
    }
  }

  lemma {:induction false} InsertPermutes(s: seq<SplitTarget>, x: SplitTarget)
    ensures multiset(Insert(s, x)) == multiset(s) + multiset{x}
  {
    if !(s == [] || s[|s| - 1].applyOrder <= x.applyOrder) {
      var init, last := s[..|s| - 1], s[|s| - 1];
      assert s == init + [last];
      InsertPermutes(init, x);
    }
  }

  lemma {:induction false} InsertSorted(s: seq<SplitTarget>, x: SplitTarget)
    requires SortedByOrder(s)
    ensures SortedByOrder(Insert(s, x))
  {
    if !(s == [] || s[|s| - 1].applyOrder <= x.applyOrder) {
      var init, last := s[..|s| - 1], s[|s| - 1];
      InsertSorted(init, x);
      InsertPermutes(init, x);
      var r := Insert(init, x);
      forall i | 0 <= i < |r| ensures r[i].applyOrder <= last.applyOrder {
        assert r[i] in multiset(r);
        assert r[i] == x || r[i] in multiset(init);
      }
      assert Insert(s, x) == r + [last];
    }
  }

  lemma {:induction false} InsertWithOrder(s: seq<SplitTarget>, x: SplitTarget, k: real)
    ensures WithOrder(Insert(s, x), k) == WithOrder(s, k) + WithOrder([x], k)
  {
    if s == [] || s[|s| - 1].applyOrder <= x.applyOrder {
      WithOrderAppend(s, [x], k);
    } else {
      var init, last := s[..|s| - 1], s[|s| - 1];
      assert s == init + [last];
      InsertWithOrder(init, x, k);
      var r := Insert(init, x);
      assert Insert(s, x) == r + [last];
      WithOrderAppend(r, [last], k);
      WithOrderAppend(init, [last], k);
      assert WithOrder([x], k) == WithOrder([], k) + (if x.applyOrder == k then [x] else []);
      assert WithOrder([last], k) == WithOrder([], k) + (if last.applyOrder == k then [last] else []);
    }
  }

  /**
   * The sort orders by `applyOrder`, is a permutation, and keeps targets with equal
   * `applyOrder` in their original relative order.
   */
  lemma {:induction false} SortIsStable(s: seq<SplitTarget>)
    ensures SortedByOrder(SortByApplyOrder(s))
    ensures multiset(SortByApplyOrder(s)) == multiset(s)
    ensures forall k :: WithOrder(SortByApplyOrder(s), k) == WithOrder(s, k)
  {
    if s != [] {
      var init, last := s[..|s| - 1], s[|s| - 1];
      assert s == init + [last];
      SortIsStable(init);
      InsertSorted(SortByApplyOrder(init), last);
      InsertPermutes(SortByApplyOrder(init), last);
      forall k ensures WithOrder(SortByApplyOrder(s), k) == WithOrder(s, k) {
        InsertWithOrder(SortByApplyOrder(init), last, k);
        WithOrderAppend(init, [last], k);
      }
    }
  }

  /** Inserting past a suffix that is entirely ordered after `x`. */
  lemma {:induction false} InsertPastSuffix(s: seq<SplitTarget>, j: nat, x: SplitTarget)
    requires j <= |s|
    requires forall m :: j <= m < |s| ==> s[m].applyOrder > x.applyOrder
    ensures Insert(s, x) == Insert(s[..j], x) + s[j..]
  {
    if j < |s| {
      var init := s[..|s| - 1];
      InsertPastSuffix(init, j, x);
      assert init[..j] == s[..j];
      assert init[j..] + [s[|s| - 1]] == s[j..];
    } else {
      assert s[..j] == s;
    }
  }

  /**
   * Shift the targets of `a[..i]` ordered after `x` one place right, from the
   * end, and return the gap left behind.
   */
  method ShiftLarger(a: array<SplitTarget>, i: nat, x: SplitTarget) returns (j: nat)
    requires i < a.Length
    modifies a
    ensures j <= i
    ensures forall m :: 0 <= m < j ==> a[m] == old(a[m])
    ensures forall m :: j < m <= i ==> a[m] == old(a[m - 1])
    ensures forall m :: i < m < a.Length ==> a[m] == old(a[m])
    ensures forall m :: j <= m < i ==> old(a[m]).applyOrder > x.applyOrder
    ensures j > 0 ==> old(a[j - 1]).applyOrder <= x.applyOrder
  {
    j := i;
    while j > 0 && a[j - 1].applyOrder > x.applyOrder
      invariant j <= i
      invariant forall m :: 0 <= m < j ==> a[m] == old(a[m])
      invariant forall m :: j < m <= i ==> a[m] == old(a[m - 1])
      invariant forall m :: i < m < a.Length ==> a[m] == old(a[m])
      invariant forall m :: j <= m < i ==> old(a[m]).applyOrder > x.applyOrder
    {
      a[j] := a[j - 1];
      j := j - 1;
    }
  }

  /** Insert `a[i]` into the prefix `a[..i]`, leaving the rest of `a` alone. */
  method InsertInPlace(a: array<SplitTarget>, i: nat)
    requires i < a.Length
    modifies a
    ensures a[..i + 1] == Insert(old(a[..i]), old(a[i]))
    ensures a[i + 1..] == old(a[i + 1..])
  {
    ghost var sorted := a[..i];
    var x := a[i];
    var j := ShiftLarger(a, i, x);
    a[j] := x;
    InsertPastSuffix(sorted, j, x);
    assert Insert(sorted[..j], x) == sorted[..j] + [x];
    SpliceAt(a[..i + 1], sorted, j, x);
  }

  /** A sequence that agrees with `sorted` around a gap at `j` holding `x`. */
  lemma SpliceAt(t: seq<SplitTarget>, sorted: seq<SplitTarget>, j: nat, x: SplitTarget)
    requires j <= |sorted| && |t| == |sorted| + 1
    requires forall m :: 0 <= m < j ==> t[m] == sorted[m]
    requires t[j] == x
    requires forall m :: j < m < |t| ==> t[m] == sorted[m - 1]
    ensures t == sorted[..j] + [x] + sorted[j..]
  {
  }

  lemma SortStep(s: seq<SplitTarget>, i: nat)
    requires i < |s|
    ensures SortByApplyOrder(s[..i + 1]) == Insert(SortByApplyOrder(s[..i]), s[i])
  {
    assert s[..i + 1][..i] == s[..i];
  }

  /** Sort `a` in place, leaving it as `SortByApplyOrder` of its old contents. */
  method SortInPlace(a: array<SplitTarget>)
    modifies a
    ensures a[..] == SortByApplyOrder(old(a[..]))
  {
    ghost var s := a[..];
    var i := 0;
    while i < a.Length
      invariant 0 <= i <= a.Length
      invariant a[..i] == SortByApplyOrder(s[..i])
      invariant a[i..] == s[i..]
    {
      assert a[i] == s[i];
      InsertInPlace(a, i);
      SortStep(s, i);
      i := i + 1;
    }
    assert a[..] == a[..a.Length];
    assert s[..a.Length] == s;
  }
}

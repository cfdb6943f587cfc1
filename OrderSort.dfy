/**
 * The newest-first order of `sort((a, b) => Number(b.timestamp - a.timestamp))`,
 * shared by the customer dashboard and the admin order list: a stable
 * insertion-sort specification, its properties, and the in-place array sort.
 */
module OrderSort {
  import opened Domain

  /** No order is newer than one before it. */
  predicate NewestFirst(s: seq<Order>) {
    forall i, j :: 0 <= i < j < |s| ==> s[i].timestamp >= s[j].timestamp
  }

  /**
   * Insert `o` into the newest-first `sorted` after every order at least as
   * new as it, so that orders with equal timestamps keep their order.
   */
  function InsertNewestFirst(sorted: seq<Order>, o: Order): (r: seq<Order>)
    ensures |r| == |sorted| + 1
  {
    if sorted == [] || sorted[|sorted| - 1].timestamp >= o.timestamp then sorted + [o]
    else InsertNewestFirst(sorted[..|sorted| - 1], o) + [sorted[|sorted| - 1]]
  }

  /**
   * `sort((a, b) => Number(b.timestamp - a.timestamp))`: the comparator's
   * sign is that of the exact difference, and JavaScript's sort is stable,
   * so the result is the stable newest-first permutation of `s`.
   */
  function SortNewestFirst(s: seq<Order>): (r: seq<Order>)
    ensures |r| == |s|
  {
    if s == [] then [] else InsertNewestFirst(SortNewestFirst(s[..|s| - 1]), s[|s| - 1])
  }

  /** Insertion adds exactly the inserted order. */
  lemma {:induction false} InsertAddsOne(sorted: seq<Order>, o: Order)
    ensures multiset(InsertNewestFirst(sorted, o)) == multiset(sorted) + multiset{o}
  {
    if !(sorted == [] || sorted[|sorted| - 1].timestamp >= o.timestamp) {
      InsertAddsOne(sorted[..|sorted| - 1], o);
      assert sorted == sorted[..|sorted| - 1] + [sorted[|sorted| - 1]];
    }
  }

  /** Sorting neither loses nor duplicates an order. */
  lemma {:induction false} SortIsPermutation(s: seq<Order>)
    ensures multiset(SortNewestFirst(s)) == multiset(s)
  {
    if s != [] {
      SortIsPermutation(s[..|s| - 1]);
      InsertAddsOne(SortNewestFirst(s[..|s| - 1]), s[|s| - 1]);
      assert s == s[..|s| - 1] + [s[|s| - 1]];
    }
  }

  /** Every order of `s` is at least as new as `t`. */
  predicate AllAtLeast(s: seq<Order>, t: int) {
    forall k :: 0 <= k < |s| ==> s[k].timestamp >= t
  }

  lemma {:induction false} InsertKeepsLowerBound(sorted: seq<Order>, o: Order, t: int)
    requires AllAtLeast(sorted, t) && o.timestamp >= t
    ensures AllAtLeast(InsertNewestFirst(sorted, o), t)
  {
    if !(sorted == [] || sorted[|sorted| - 1].timestamp >= o.timestamp) {
      InsertKeepsLowerBound(sorted[..|sorted| - 1], o, t);
    }
  }

  lemma {:induction false} InsertKeepsNewestFirst(sorted: seq<Order>, o: Order)
    requires NewestFirst(sorted)
    ensures NewestFirst(InsertNewestFirst(sorted, o))
  {
    if !(sorted == [] || sorted[|sorted| - 1].timestamp >= o.timestamp) {
      var init, last := sorted[..|sorted| - 1], sorted[|sorted| - 1];
      InsertKeepsNewestFirst(init, o);
      InsertKeepsLowerBound(init, o, last.timestamp);
    }
  }

  /** The sorted orders are newest first. */
  lemma {:induction false} SortIsNewestFirst(s: seq<Order>)
    ensures NewestFirst(SortNewestFirst(s))
  {
    if s != [] {
      SortIsNewestFirst(s[..|s| - 1]);
      InsertKeepsNewestFirst(SortNewestFirst(s[..|s| - 1]), s[|s| - 1]);
    }
  }

  /** Inserting after a last order that is at least as new appends. */
  lemma {:induction false} SortOfNewestFirstIsIdentity(s: seq<Order>)
    requires NewestFirst(s)
    ensures SortNewestFirst(s) == s
  {
    if s != [] {
      SortOfNewestFirstIsIdentity(s[..|s| - 1]);
      assert s[..|s| - 1] + [s[|s| - 1]] == s;
    }
  }

  /** Sorting an already sorted list changes nothing, so re-sorting is harmless. */
  lemma SortIdempotent(s: seq<Order>)
    ensures SortNewestFirst(SortNewestFirst(s)) == SortNewestFirst(s)
  {
    SortIsNewestFirst(s);
    SortOfNewestFirstIsIdentity(SortNewestFirst(s));
  }

  /** The orders of `s` stamped `t`, in their order in `s`. */
  function WithTimestamp(s: seq<Order>, t: int): (r: seq<Order>)
    ensures |r| <= |s|
  {
    if s == [] then []
    else WithTimestamp(s[..|s| - 1], t) + (if s[|s| - 1].timestamp == t then [s[|s| - 1]] else [])
  }

  lemma {:induction false} WithTimestampAppend(a: seq<Order>, b: seq<Order>, t: int)
    ensures WithTimestamp(a + b, t) == WithTimestamp(a, t) + WithTimestamp(b, t)
  {
    if b != [] {
      WithTimestampAppend(a, b[..|b| - 1], t);
      assert (a + b)[..|a + b| - 1] == a + b[..|b| - 1];
    } else {
      assert a + b == a;
    }
  }

  /** The tie list of one order: itself, or nothing. */
  function Tie(o: Order, t: int): seq<Order> {
    if o.timestamp == t then [o] else []
  }

  lemma WithTimestampOne(o: Order, t: int)
    ensures WithTimestamp([o], t) == Tie(o, t)
  {
    assert [o][..0] == [];
  }

  /** Inserting `o` puts it after every order of its own timestamp. */
  lemma {:induction false} InsertKeepsTies(sorted: seq<Order>, o: Order, t: int)
    ensures WithTimestamp(InsertNewestFirst(sorted, o), t) == WithTimestamp(sorted, t) + Tie(o, t)
  {
    WithTimestampOne(o, t);
    if sorted == [] || sorted[|sorted| - 1].timestamp >= o.timestamp {
      WithTimestampAppend(sorted, [o], t);
    } else {
      var init, last := sorted[..|sorted| - 1], sorted[|sorted| - 1];
      var inserted := InsertNewestFirst(init, o);
      InsertKeepsTies(init, o, t);
      WithTimestampAppend(inserted, [last], t);
      WithTimestampOne(last, t);
      assert WithTimestamp(sorted, t) == WithTimestamp(init, t) + Tie(last, t);
      assert Tie(o, t) == [] || Tie(last, t) == [];
      assert Tie(o, t) + Tie(last, t) == Tie(last, t) + Tie(o, t);
    }
  }

  /**
   * The sort is stable: orders with equal timestamps come out in the order
   * they went in, as `Array.prototype.sort` guarantees.
   */
  lemma {:induction false} SortIsStable(s: seq<Order>, t: int)
    ensures WithTimestamp(SortNewestFirst(s), t) == WithTimestamp(s, t)
  {
    if s != [] {
      SortIsStable(s[..|s| - 1], t);
      InsertKeepsTies(SortNewestFirst(s[..|s| - 1]), s[|s| - 1], t);
    }
  }

  /**
   * Where the insertion puts `x`: after `prefix[..j]`, when every order
   * from `j` on is strictly older and the one before `j` (if any) is not.
   */
  lemma {:induction false} InsertionPoint(prefix: seq<Order>, x: Order, j: nat)
    requires j <= |prefix|
    requires forall k :: j <= k < |prefix| ==> prefix[k].timestamp < x.timestamp
    requires j == 0 || prefix[j - 1].timestamp >= x.timestamp
    ensures InsertNewestFirst(prefix, x) == prefix[..j] + [x] + prefix[j..]
    decreases |prefix| - j
  {
    if j < |prefix| {
      var init := prefix[..|prefix| - 1];
      InsertionPoint(init, x, j);
      assert init[..j] == prefix[..j];
      assert prefix[j..] == init[j..] + [prefix[|prefix| - 1]];
    } else {
      assert prefix[..j] == prefix;
    }
  }

  /** The shifted array: `x` at `j`, the prefix before it, the older orders one place to the right. */
  lemma ShiftedIsInsertion(s: seq<Order>, prefix: seq<Order>, x: Order, j: nat)
    requires |s| == |prefix| + 1 && j <= |prefix|
    requires forall k :: 0 <= k < j ==> s[k] == prefix[k]
    requires s[j] == x
    requires forall k :: j < k < |s| ==> s[k] == prefix[k - 1]
    ensures s == prefix[..j] + [x] + prefix[j..]
  {
  }

  /**
   * One step of the in-place sort: the order at `i` moves left past every
   * strictly older order of the sorted prefix `a[..i]`.
   */
  method InsertAt(a: array<Order>, i: nat)
    requires i < a.Length
    modifies a
    ensures a[..i + 1] == InsertNewestFirst(old(a[..i]), old(a[i]))
    ensures forall k :: i < k < a.Length ==> a[k] == old(a[k])
  {
    var x := a[i];
    ghost var prefix := a[..i];
    var j := i;
    while j > 0 && a[j - 1].timestamp < x.timestamp
      invariant 0 <= j <= i
      invariant forall k :: 0 <= k < j ==> a[k] == prefix[k]
      invariant forall k :: j < k <= i ==> a[k] == prefix[k - 1]
      invariant forall k :: i < k < a.Length ==> a[k] == old(a[k])
      invariant forall k :: j <= k < i ==> prefix[k].timestamp < x.timestamp
    {
      a[j] := a[j - 1];
      j := j - 1;
    }
    a[j] := x;
    ShiftedIsInsertion(a[..i + 1], prefix, x, j);
    InsertionPoint(prefix, x, j);
  }

  /** Sorting one more order is inserting it into the sorted prefix. */
  lemma SortPrefixStep(input: seq<Order>, i: nat)
    requires i < |input|
    ensures SortNewestFirst(input[..i + 1]) == InsertNewestFirst(SortNewestFirst(input[..i]), input[i])
  {
    assert input[..i + 1][..i] == input[..i];
  }

  /** `loaded.sort(...)` on the dashboard: the array is sorted in place, newest first. */
  method SortOrdersInPlace(a: array<Order>)
    modifies a
    ensures a[..] == SortNewestFirst(old(a[..]))
  {
    ghost var input := a[..];
    var i := 0;
    while i < a.Length
      invariant 0 <= i <= a.Length
      invariant a[..i] == SortNewestFirst(input[..i])
      invariant forall k :: i <= k < a.Length ==> a[k] == input[k]
    {
      SortPrefixStep(input, i);
      InsertAt(a, i);
      i := i + 1;
    }
    assert a[..] == a[..a.Length] && input == input[..a.Length];
  }
}

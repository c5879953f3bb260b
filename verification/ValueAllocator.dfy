/** A pool of free values kept as a sorted list of disjoint intervals that never touch. It is searched
    with an order in which overlapping intervals count as equal, and it stands for a plain set. */
module ValueAllocator {
  import opened Packets

  datatype Interval = Interval(low: int, high: int)

  datatype Ordering = Less | Equal | Greater

  function Compare(a: Interval, b: Interval): Ordering {
    if a.high < b.low then Less else if b.high < a.low then Greater else Equal
  }

  function Single(v: int): Interval { Interval(v, v) }

  predicate Contains(iv: Interval, v: int) { iv.low <= v <= iv.high }

  /** Sorted, in range, and with a gap between any two intervals: so maximally merged. */
  ghost predicate Ordered(pool: seq<Interval>, lowest: int, highest: int) {
    && (forall k :: 0 <= k < |pool| ==> lowest <= pool[k].low <= pool[k].high <= highest)
    && (forall i, j :: 0 <= i < j < |pool| ==> pool[i].high + 1 < pool[j].low)
  }

  ghost predicate Covers(pool: seq<Interval>, v: int) {
    exists k :: 0 <= k < |pool| && Contains(pool[k], v)
  }

  /** The set of values a pool stands for. */
  ghost function Values(pool: seq<Interval>, lowest: int, highest: int): set<int> {
    set v: int | lowest <= v <= highest && Covers(pool, v)
  }

  /** In an ordered pool the order of intervals is the order of positions. */
  lemma CompareIsPosition(pool: seq<Interval>, lowest: int, highest: int, i: nat, j: nat)
    requires Ordered(pool, lowest, highest) && i < |pool| && j < |pool|
    ensures Compare(pool[i], pool[j]) == if i < j then Less else if i > j then Greater else Equal
  {
  }

  lemma CoversIff(pool: seq<Interval>, k: nat, v: int)
    requires k < |pool| && Contains(pool[k], v)
    ensures Covers(pool, v)
  {
  }

  /** Two ordered pools that stand for the same set are the same pool. */
  lemma {:induction false} Canonical(p: seq<Interval>, q: seq<Interval>, lowest: int, highest: int)
    requires Ordered(p, lowest, highest) && Ordered(q, lowest, highest)
    requires forall v :: Covers(p, v) <==> Covers(q, v)
    ensures p == q
    decreases |p|
  {
    if p == [] {
      if q != [] { CoversIff(q, 0, q[0].low); }
    } else {
      CoversIff(p, 0, p[0].low);
      assert q != [];
      assert p[0] == q[0] by {
        CoversIff(p, 0, p[0].low);
        CoversIff(q, 0, q[0].low);
        assert p[0].low == q[0].low;
        SameEnd(p, q, lowest, highest);
        SameEnd(q, p, lowest, highest);
      }
      forall v ensures Covers(p[1..], v) <==> Covers(q[1..], v) {
        RestCovers(p, lowest, highest, v);
        RestCovers(q, lowest, highest, v);
      }
      hide Covers;
      Canonical(p[1..], q[1..], lowest, highest);
      assert p == [p[0]] + p[1..] && q == [q[0]] + q[1..];
    }
  }

  lemma SameEnd(p: seq<Interval>, q: seq<Interval>, lowest: int, highest: int)
    requires Ordered(p, lowest, highest) && Ordered(q, lowest, highest) && p != [] && q != []
    requires p[0].low == q[0].low && forall v :: Covers(p, v) <==> Covers(q, v)
    ensures p[0].high <= q[0].high
  {
    if q[0].high < p[0].high {
      var v := q[0].high + 1;
      CoversIff(p, 0, v);
      assert false;
    }
  }

  lemma RestCovers(p: seq<Interval>, lowest: int, highest: int, v: int)
    requires Ordered(p, lowest, highest) && p != []
    ensures Covers(p[1..], v) <==> Covers(p, v) && v > p[0].high
  {
    if Covers(p[1..], v) {
      var k :| 0 <= k < |p[1..]| && Contains(p[1..][k], v);
      assert p[k + 1] == p[1..][k];
    }
    if Covers(p, v) && v > p[0].high {
      var k :| 0 <= k < |p| && Contains(p[k], v);
      assert p[1..][k - 1] == p[k];
    }
  }

  ghost predicate StartsRun(pool: seq<Interval>, v: int) { Covers(pool, v) && !Covers(pool, v - 1) }

  /** Where the runs of free values start. */
  ghost function RunStarts(pool: seq<Interval>, lowest: int, highest: int): set<int> {
    set v: int | lowest <= v <= highest && StartsRun(pool, v)
  }

  predicate Between(low: int, v: int, high: int) { low <= v <= high }

  ghost function Range(low: int, high: int): set<int> { set v: int | low <= v <= high && Between(low, v, high) }

  function Without(pool: seq<Interval>, k: nat): seq<Interval>
    requires k < |pool|
  {
    pool[..k] + pool[k + 1..]
  }

  function With(pool: seq<Interval>, k: nat, iv: Interval): seq<Interval>
    requires k <= |pool|
  {
    pool[..k] + [iv] + pool[k..]
  }

  /** Where an interval overlaps nothing there is one place for it. */
  lemma OnePlace(pool: seq<Interval>, at: nat, k: nat, iv: Interval)
    requires at <= |pool| && forall j :: 0 <= j < |pool| ==> pool[j].low <= pool[j].high
    requires forall j :: 0 <= j < at ==> pool[j].high < iv.low
    requires forall j :: at <= j < |pool| ==> iv.high < pool[j].low
    requires FitsAt(pool, k, iv) || (k < |pool| && Compare(pool[k], iv) == Equal)
    ensures FitsAt(pool, k, iv) && at == k
  {
    assert k < |pool| ==> Compare(pool[k], iv) != Equal;
    var next := if at < |pool| then pool[at] else iv;
    assert next.low <= next.high;
  }

  /** `iv` fits between the first `k` intervals and the rest without touching any. */
  ghost predicate FitsAt(pool: seq<Interval>, k: nat, iv: Interval) {
    && k <= |pool| && iv.low <= iv.high
    && (forall j :: 0 <= j < k ==> pool[j].high + 1 < iv.low)
    && (forall j :: k <= j < |pool| ==> iv.high + 1 < pool[j].low)
  }

  /** The number of intervals is the number of maximal runs of free values. */
  lemma {:induction false} IntervalsAreRuns(pool: seq<Interval>, lowest: int, highest: int)
    requires Ordered(pool, lowest, highest)
    ensures |RunStarts(pool, lowest, highest)| == |pool|
    decreases |pool|
  {
    var runs := RunStarts(pool, lowest, highest);
    if pool == [] {
      assert runs == {};
    } else {
      var rest := pool[1..];
      IntervalsAreRuns(rest, lowest, highest);
      FirstRun(pool, lowest, highest);
      hide RunStarts;
    }
  }

  /** The first interval adds one run. */
  lemma FirstRun(pool: seq<Interval>, lowest: int, highest: int)
    requires Ordered(pool, lowest, highest) && pool != []
    ensures RunStarts(pool, lowest, highest) == {pool[0].low} + RunStarts(pool[1..], lowest, highest)
    ensures pool[0].low !in RunStarts(pool[1..], lowest, highest)
  {
    var first, rest := pool[0].low, pool[1..];
    forall v | lowest <= v <= highest ensures StartsRun(pool, v) <==> v == first || StartsRun(rest, v) {
      RestCovers(pool, lowest, highest, v);
      RestCovers(pool, lowest, highest, v - 1);
      if v == first { CoversIff(pool, 0, v); }
    }
    RestCovers(pool, lowest, highest, first);
    hide Covers;
  }

  class Allocator {
    var pool: seq<Interval>
    const lowest: int
    const highest: int
    /** The largest value of the integer type the pool is over. */
    const typeMax: int

    ghost predicate Valid()
      reads this
    {
      lowest <= highest <= typeMax && Ordered(pool, lowest, highest)
    }

    /** The free values. */
    ghost function Free(): set<int>
      reads this
    {
      Values(pool, lowest, highest)
    }

    constructor (lowest: int, highest: int, typeMax: int)
      requires lowest <= highest <= typeMax
      ensures Valid() && this.lowest == lowest && this.highest == highest && this.typeMax == typeMax
      ensures Free() == Range(lowest, highest)
    {
      pool := [Interval(lowest, highest)];
      this.lowest, this.highest, this.typeMax := lowest, highest, typeMax;
      new;
      forall v | lowest <= v <= highest ensures v in Free() { CoversIff(pool, 0, v); }
    }

    /** Binary search that knows intervals only through their order: `at` is the number of intervals
        below `key`, and `found` tells whether the next one overlaps `key`. */
    method Search(key: Interval) returns (at: nat, found: bool)
      requires Valid() && key.low <= key.high
      ensures at <= |pool|
      ensures forall k :: 0 <= k < at ==> pool[k].high < key.low
      ensures forall k :: at <= k < |pool| ==> key.low <= pool[k].high
      ensures found <==> at < |pool| && Compare(pool[at], key) == Equal
      ensures !found ==> forall k :: at <= k < |pool| ==> key.high < pool[k].low
    {
      var lo, hi := 0, |pool|;
      while lo < hi
        invariant 0 <= lo <= hi <= |pool|
        invariant forall k :: 0 <= k < lo ==> Compare(pool[k], key) == Less
        invariant forall k :: hi <= k < |pool| ==> Compare(pool[k], key) != Less
      {
        var mid := (lo + hi) / 2;
        if Compare(pool[mid], key) == Less { lo := mid + 1; } else { hi := mid; }
      }
      at := lo;
      found := at < |pool| && Compare(pool[at], key) == Equal;
      assert !found && at < |pool| ==> key.high < pool[at].low;
    }

    /** Removes the interval that counts as equal to `key`; `k` is where it is. */
    method Remove(key: Interval, ghost k: nat)
      requires Valid() && k < |pool| && pool[k] == key
      modifies this
      ensures Valid() && pool == Without(old(pool), k)
    {
      var at, found := Search(key);
      assert at == k;
      pool := pool[..at] + pool[at + 1..];
    }

    /** Puts an interval into its place `k`, unless one that counts as equal is there already. */
    method Insert(iv: Interval, ghost k: nat)
      requires Valid() && lowest <= iv.low <= iv.high <= highest
      requires FitsAt(pool, k, iv) || (k < |pool| && Compare(pool[k], iv) == Equal)
      modifies this
      ensures Valid()
      ensures pool == if FitsAt(old(pool), k, iv) then With(old(pool), k, iv) else old(pool)
    {
      var at, found := Search(iv);
      if !found {
        OnePlace(pool, at, k, iv);
        pool := pool[..at] + [iv] + pool[at..];
      }
    }

    method Allocate() returns (r: Option<int>)
      requires Valid()
      modifies this
      ensures Valid()
      ensures r.None? <==> old(Free()) == {}
      ensures r.None? ==> Free() == old(Free())
      ensures r.Some? ==> r.value in old(Free()) && (forall v :: v in old(Free()) ==> r.value <= v)
      ensures r.Some? ==> Free() == old(Free()) - {r.value}
    {
      if pool == [] {
        NothingFree(lowest, highest);
        return None;
      }
      ghost var was := pool;
      var iv := pool[0];
      var value := iv.low;
      LeastCovered(was, lowest, highest);
      HoldsOwn(was, lowest, highest, 0, value);
      SplitFits(was, lowest, highest, 0, value);
      hide Covers, Values, Ordered, FitsAt, With, Without, Contains, Split;
      Remove(iv, 0);
      if value < iv.high {
        assert value + 1 <= typeMax;
        Insert(Interval(value + 1, iv.high), 0);
      }
      r := Some(value);
      ValuesTaken(was, pool, lowest, highest, 0, value);
    }

    method FirstVacant() returns (r: Option<int>)
      requires Valid()
      ensures r.None? <==> Free() == {}
      ensures r.Some? ==> r.value in Free() && forall v :: v in Free() ==> r.value <= v
    {
      if pool == [] { return None; }
      CoversIff(pool, 0, pool[0].low);
      LeastCovered(pool, lowest, highest);
      r := Some(pool[0].low);
    }

    /** Frees a value. The implementation asserts the range, and its `value + 1` needs room above a
        value that is free already; OverflowIff shows that nothing less will do. */
    method Deallocate(value: int)
      requires Valid() && lowest <= value <= highest
      requires value in Free() ==> value < typeMax
      modifies this
      ensures Valid() && Free() == old(Free()) + {value}
      ensures value in old(Free()) ==> pool == old(pool)
    {
      ghost var was := pool;
      var at, found := Search(Single(value));
      var hasLeft, hasRight := at > 0, at < |pool|;
      assert found <==> Covers(pool, value) by { if found { CoversIff(pool, at, value); } }
      GapFits(was, lowest, highest, at, value);
      assert found ==> value in Free() && !FitsAt(pool, at, Single(value));
      assert !found ==> value !in Free();
      OverflowIff(pool, lowest, highest, typeMax, at, value);
      hide Covers, Values, Ordered, FitsAt, With, Without;
      // Sums are computed in the integer type: on the left always, on the right only if there is an interval.
      assert hasLeft ==> pool[at - 1].high + 1 <= typeMax;
      assert hasRight ==> value + 1 <= typeMax;
      if hasLeft && hasRight && pool[at - 1].high + 1 == value && value + 1 == pool[at].low {
        var l, r := pool[at - 1], pool[at];
        Remove(l, at - 1);
        Remove(r, at - 1);
        Insert(Interval(l.low, r.high), at - 1);
      } else if hasLeft && pool[at - 1].high + 1 == value {
        var l := pool[at - 1];
        Remove(l, at - 1);
        Insert(Interval(l.low, value), at - 1);
      } else if hasRight && value + 1 == pool[at].low {
        var r := pool[at];
        Remove(r, at);
        Insert(Interval(value, r.high), at);
      } else {
        Insert(Single(value), at);
      }
      if !found {
        assert pool == Freed(was, at, value);
        ValuesFreed(was, pool, lowest, highest, at, value);
      }
    }

    method UseValue(value: int) returns (ok: bool)
      requires Valid()
      modifies this
      ensures Valid() && (ok <==> value in old(Free())) && Free() == old(Free()) - {value}
    {
      var k := 0;
      while k < |pool| && !Contains(pool[k], value)
        invariant 0 <= k <= |pool|
        invariant forall j :: 0 <= j < k ==> !Contains(pool[j], value)
      {
        k := k + 1;
      }
      if k == |pool| {
        assert value !in Free();
        return false;
      }
      ghost var was := pool;
      var iv := pool[k];
      HoldsOwn(was, lowest, highest, k, value);
      SplitFits(was, lowest, highest, k, value);
      hide Covers, Values, Ordered, FitsAt, With, Without, Contains, Split;
      Remove(iv, k);
      if iv.low < value {
        Insert(Interval(iv.low, value - 1), k);
      }
      if value < iv.high {
        assert value + 1 <= typeMax;
        Insert(Interval(value + 1, iv.high), if iv.low < value then k + 1 else k);
      }
      ok := true;
      ValuesTaken(was, pool, lowest, highest, k, value);
    }

    method IsUsed(value: int) returns (used: bool)
      requires Valid()
      ensures used <==> value !in Free()
    {
      var k := 0;
      while k < |pool| && !Contains(pool[k], value)
        invariant 0 <= k <= |pool|
        invariant forall j :: 0 <= j < k ==> !Contains(pool[j], value)
      {
        k := k + 1;
      }
      used := k == |pool|;
      if !used { CoversIff(pool, k, value); }
    }

    method Clear()
      requires Valid()
      modifies this
      ensures Valid() && Free() == Range(lowest, highest)
    {
      pool := [Interval(lowest, highest)];
      forall v | lowest <= v <= highest ensures v in Free() { CoversIff(pool, 0, v); }
    }

    method IntervalCount() returns (n: nat)
      requires Valid()
      ensures n == |RunStarts(pool, lowest, highest)|
    {
      n := |pool|;
      IntervalsAreRuns(pool, lowest, highest);
    }
  }

  lemma NothingFree(lowest: int, highest: int)
    ensures Values([], lowest, highest) == {}
  {
  }

  lemma HoldsOwn(pool: seq<Interval>, lowest: int, highest: int, k: nat, v: int)
    requires Ordered(pool, lowest, highest) && k < |pool| && (v == pool[k].low || Contains(pool[k], v))
    ensures lowest <= pool[k].low <= v <= pool[k].high <= highest && Contains(pool[k], v)
    ensures v in Values(pool, lowest, highest)
  {
    CoversIff(pool, k, v);
  }

  /** `deallocate` computes `value + 1` exactly if some interval ends at or above the value. The sum
      overflows exactly if the value is the largest of its type and free already. */
  lemma OverflowIff(pool: seq<Interval>, lowest: int, highest: int, typeMax: int, at: nat, value: int)
    requires Ordered(pool, lowest, highest) && lowest <= value <= highest <= typeMax && at <= |pool|
    requires forall k :: 0 <= k < at ==> pool[k].high < value
    requires forall k :: at <= k < |pool| ==> value <= pool[k].high
    ensures at < |pool| && value + 1 > typeMax <==> value == typeMax && value in Values(pool, lowest, highest)
    ensures at > 0 ==> pool[at - 1].high + 1 <= typeMax
  {
    if at < |pool| && value == typeMax { CoversIff(pool, at, value); }
  }

  /** What is left of the interval at `k` once `v` is taken out of it. */
  function Split(iv: Interval, v: int): seq<Interval> {
    (if iv.low < v then [Interval(iv.low, v - 1)] else []) + (if v < iv.high then [Interval(v + 1, iv.high)] else [])
  }

  ghost predicate Below(p: seq<Interval>, v: int) { forall j :: 0 <= j < |p| ==> p[j].high + 1 < v }

  ghost predicate Above(q: seq<Interval>, v: int) { forall j :: 0 <= j < |q| ==> v + 1 < q[j].low }

  lemma FitsPieces(p: seq<Interval>, q: seq<Interval>, iv: Interval)
    requires Below(p, iv.low) && Above(q, iv.high) && iv.low <= iv.high
    ensures FitsAt(p + q, |p|, iv) && With(p + q, |p|, iv) == p + [iv] + q
  {
    assert (p + q)[..|p|] == p && (p + q)[|p|..] == q;
  }

  /** An ordered pool around its interval `k`. */
  lemma Pieces(was: seq<Interval>, lowest: int, highest: int, k: nat)
    requires Ordered(was, lowest, highest) && k < |was|
    ensures Without(was, k) == was[..k] + was[k + 1..]
    ensures Below(was[..k], was[k].low) && Above(was[k + 1..], was[k].high)
  {
  }

  /** The pieces of a split interval fit where it was. */
  lemma SplitFits(was: seq<Interval>, lowest: int, highest: int, k: nat, v: int)
    requires Ordered(was, lowest, highest) && k < |was| && Contains(was[k], v)
    ensures var iv := was[k];
      var gone := Without(was, k);
      var low := if iv.low < v then With(gone, k, Interval(iv.low, v - 1)) else gone;
      var j := if iv.low < v then k + 1 else k;
      && (iv.low < v ==> FitsAt(gone, k, Interval(iv.low, v - 1)))
      && (v < iv.high ==> FitsAt(low, j, Interval(v + 1, iv.high)))
      && (if v < iv.high then With(low, j, Interval(v + 1, iv.high)) else low) == was[..k] + Split(iv, v) + was[k + 1..]
  {
    var iv := was[k];
    var p, q := was[..k], was[k + 1..];
    Pieces(was, lowest, highest, k);
    hide Ordered, With, Without, FitsAt;
    if iv.low < v {
      var a := Interval(iv.low, v - 1);
      FitsPieces(p, q, a);
      if v < iv.high {
        FitsPieces(p + [a], q, Interval(v + 1, iv.high));
        assert p + [a] + [Interval(v + 1, iv.high)] + q == p + Split(iv, v) + q;
      } else {
        assert Split(iv, v) == [a];
      }
    } else if v < iv.high {
      FitsPieces(p, q, Interval(v + 1, iv.high));
      assert Split(iv, v) == [Interval(v + 1, iv.high)];
    } else {
      assert Split(iv, v) == [] && p + [] + q == p + q;
    }
  }

  lemma LoneFits(was: seq<Interval>, lowest: int, highest: int, at: nat, v: int)
    requires Ordered(was, lowest, highest) && at <= |was|
    requires (at > 0 ==> was[at - 1].high + 1 < v) && (at < |was| ==> v + 1 < was[at].low)
    ensures FitsAt(was, at, Single(v)) && With(was, at, Single(v)) == was[..at] + [Single(v)] + was[at..]
  {
    assert was[..at] + was[at..] == was;
    FitsPieces(was[..at], was[at..], Single(v));
  }

  /** The interval that takes the place of a freed value and its neighbours fits where they were. */
  lemma GapFits(was: seq<Interval>, lowest: int, highest: int, at: nat, v: int)
    requires Ordered(was, lowest, highest) && at <= |was|
    requires forall k :: 0 <= k < at ==> was[k].high < v
    requires forall k :: at <= k < |was| ==> v <= was[k].high
    ensures var left := at > 0 && was[at - 1].high + 1 == v;
      var right := at < |was| && v + 1 == was[at].low;
      if left && right then
        var gone := Without(Without(was, at - 1), at - 1);
        var iv := Interval(was[at - 1].low, was[at].high);
        Without(was, at - 1)[at - 1] == was[at] && FitsAt(gone, at - 1, iv)
            && With(gone, at - 1, iv) == Freed(was, at, v)
      else if left && !(at < |was| && Contains(was[at], v)) then
        var iv := Interval(was[at - 1].low, v);
        FitsAt(Without(was, at - 1), at - 1, iv) && With(Without(was, at - 1), at - 1, iv) == Freed(was, at, v)
      else if right then
        var iv := Interval(v, was[at].high);
        FitsAt(Without(was, at), at, iv) && With(Without(was, at), at, iv) == Freed(was, at, v)
      else if !(at < |was| && Contains(was[at], v)) then
        FitsAt(was, at, Single(v)) && With(was, at, Single(v)) == Freed(was, at, v)
      else !left
  {
    var left := at > 0 && was[at - 1].high + 1 == v;
    var right := at < |was| && v + 1 == was[at].low;
    if at < |was| && Contains(was[at], v) {
      assert at > 0 ==> was[at - 1].high + 1 < was[at].low;
    } else if left && right {
      assert var gone := Without(Without(was, at - 1), at - 1);
        var iv := Interval(was[at - 1].low, was[at].high);
        && Without(was, at - 1)[at - 1] == was[at]
        && FitsAt(gone, at - 1, iv) && With(gone, at - 1, iv) == was[..at - 1] + [iv] + was[at + 1..] by {
        var p, q := was[..at - 1], was[at + 1..];
        Pieces(was, lowest, highest, at - 1);
        Pieces(was, lowest, highest, at);
        var w := Without(was, at - 1);
        assert w[at - 1] == was[at] && Without(w, at - 1) == p + q;
        FitsPieces(p, q, Interval(was[at - 1].low, was[at].high));
      }
    } else if left {
      assert var iv := Interval(was[at - 1].low, v);
        FitsAt(Without(was, at - 1), at - 1, iv)
        && With(Without(was, at - 1), at - 1, iv) == was[..at - 1] + [iv] + was[at..] by {
        Pieces(was, lowest, highest, at - 1);
        FitsPieces(was[..at - 1], was[at..], Interval(was[at - 1].low, v));
      }
    } else if right {
      assert var iv := Interval(v, was[at].high);
        FitsAt(Without(was, at), at, iv) && With(Without(was, at), at, iv) == was[..at] + [iv] + was[at + 1..] by {
        Pieces(was, lowest, highest, at);
        FitsPieces(was[..at], was[at + 1..], Interval(v, was[at].high));
      }
    } else {
      LoneFits(was, lowest, highest, at, v);
    }
    hide Ordered, FitsAt, With, Without;
  }

  lemma CoversAppend(p: seq<Interval>, q: seq<Interval>, x: int)
    ensures Covers(p + q, x) <==> Covers(p, x) || Covers(q, x)
  {
    if Covers(p, x) {
      var k :| 0 <= k < |p| && Contains(p[k], x);
      assert Contains((p + q)[k], x);
    }
    if Covers(q, x) {
      var k :| 0 <= k < |q| && Contains(q[k], x);
      assert Contains((p + q)[|p| + k], x);
    }
  }

  /** A pool in three pieces. */
  lemma CoversThree(p: seq<Interval>, m: seq<Interval>, q: seq<Interval>, x: int)
    ensures Covers(p + m + q, x) <==> Covers(p, x) || Covers(m, x) || Covers(q, x)
  {
    CoversAppend(p, m, x);
    CoversAppend(p + m, q, x);
  }

  lemma CoversOne(iv: Interval, x: int)
    ensures Covers([iv], x) <==> Contains(iv, x)
  {
    if Contains(iv, x) { CoversIff([iv], 0, x); }
  }

  lemma ValuesTaken(was: seq<Interval>, now: seq<Interval>, lowest: int, highest: int, k: nat, v: int)
    requires Ordered(was, lowest, highest)
    requires k < |was| && Contains(was[k], v) && now == was[..k] + Split(was[k], v) + was[k + 1..]
    ensures Values(now, lowest, highest) == Values(was, lowest, highest) - {v}
  {
    var p, q := was[..k], was[k + 1..];
    assert !Covers(p, v) && !Covers(q, v);
    assert was == p + [was[k]] + q;
    forall x ensures x in Values(now, lowest, highest) <==> x in Values(was, lowest, highest) && x != v {
      CoversThree(p, Split(was[k], v), q, x);
      CoversThree(p, [was[k]], q, x);
      assert Covers(Split(was[k], v), x) <==> Contains(was[k], x) && x != v by {
        var a := if was[k].low < v then [Interval(was[k].low, v - 1)] else [];
        var b := if v < was[k].high then [Interval(v + 1, was[k].high)] else [];
        CoversAppend(a, b, x);
        CoversOne(Interval(was[k].low, v - 1), x);
        CoversOne(Interval(v + 1, was[k].high), x);
      }
      CoversOne(was[k], x);
    }
  }

  lemma ValuesFreed(was: seq<Interval>, now: seq<Interval>, lowest: int, highest: int, at: nat, v: int)
    requires Ordered(was, lowest, highest) && lowest <= v <= highest
    requires at <= |was| && now == Freed(was, at, v)
    ensures Values(now, lowest, highest) == Values(was, lowest, highest) + {v}
  {
    forall x ensures x in Values(now, lowest, highest) <==> x in Values(was, lowest, highest) || x == v {
      FreedCovers(was, at, v, x);
    }
  }

  lemma LeastCovered(pool: seq<Interval>, lowest: int, highest: int)
    requires Ordered(pool, lowest, highest) && pool != []
    ensures pool[0].low in Values(pool, lowest, highest)
    ensures forall v :: v in Values(pool, lowest, highest) ==> pool[0].low <= v
  {
    CoversIff(pool, 0, pool[0].low);
    forall v | v in Values(pool, lowest, highest) ensures pool[0].low <= v {
      var k :| 0 <= k < |pool| && Contains(pool[k], v);
    }
  }

  /** The pool after `v`, which lies between intervals `at - 1` and `at`, is freed. */
  function Freed(was: seq<Interval>, at: nat, v: int): seq<Interval>
    requires at <= |was|
  {
    var left := at > 0 && was[at - 1].high + 1 == v;
    var right := at < |was| && v + 1 == was[at].low;
    was[..if left then at - 1 else at]
    + [Interval(if left then was[at - 1].low else v, if right then was[at].high else v)]
    + was[if right then at + 1 else at..]
  }

  lemma FreedCovers(was: seq<Interval>, at: nat, v: int, x: int)
    requires at <= |was|
    requires forall j :: 0 <= j < |was| ==> was[j].low <= was[j].high
    ensures Covers(Freed(was, at, v), x) <==> Covers(was, x) || x == v
  {
    var left := at > 0 && was[at - 1].high + 1 == v;
    var right := at < |was| && v + 1 == was[at].low;
    var p := was[..if left then at - 1 else at];
    var q := was[if right then at + 1 else at..];
    var iv := Interval(if left then was[at - 1].low else v, if right then was[at].high else v);
    var l := if left then [was[at - 1]] else [];
    var r := if right then [was[at]] else [];
    assert was == p + (l + r) + q;
    CoversThree(p, [iv], q, x);
    CoversThree(p, l + r, q, x);
    CoversAppend(l, r, x);
    CoversOne(iv, x);
    if left { CoversOne(was[at - 1], x); }
    if right { CoversOne(was[at], x); }
  }
}

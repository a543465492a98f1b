/** The median by which `primary/src/core.rs` aggregates the samples of several replicas. */
module Median {
  import opened Wrappers
  import opened Sorting

  function Itself(x: real): real
  {
    x
  }

  /** The element in the middle of the sorted samples, the lower one when there are two. */
  function LowerMedian(samples: seq<real>): Option<real>
  {
    if samples == [] then None
    else
      LengthIsKept(samples);
      Some(SortBy(Itself, samples)[(|samples| - 1) / 2])
  }

  lemma LengthIsKept(samples: seq<real>)
    ensures |SortBy(Itself, samples)| == |samples|
  {
    SortBySorts(Itself, samples);
    assert |multiset(SortBy(Itself, samples))| == |multiset(samples)|;
  }

  /** The library sort. */
  method Sort(values: array<real>)
    modifies values
    ensures values[..] == SortBy(Itself, old(values[..]))
  {
    var sorted := SortBy(Itself, values[..]);
    LengthIsKept(values[..]);
    forall i | 0 <= i < values.Length {
      values[i] := sorted[i];
    }
  }

  method Compute(values: array<real>) returns (median: Option<real>)
    modifies values
    ensures median == LowerMedian(old(values[..]))
    ensures median.None? <==> values.Length == 0
    ensures multiset(values[..]) == multiset(old(values[..]))
  {
    hide SortBy, SortedBy;
    if values.Length == 0 {
      return None;
    }
    SortBySorts(Itself, values[..]);
    Sort(values);
    var mid := values.Length / 2;
    if values.Length % 2 == 0 {
      median := Some(values[mid - 1]);
    } else {
      median := Some(values[mid]);
    }
  }

  // ----- Counting samples -----

  function Count(p: real -> bool, s: seq<real>): nat
  {
    if s == [] then 0 else Count(p, s[..|s| - 1]) + if p(s[|s| - 1]) then 1 else 0
  }

  lemma {:induction false} CountConcat(p: real -> bool, a: seq<real>, b: seq<real>)
    ensures Count(p, a + b) == Count(p, a) + Count(p, b)
  {
    if b == [] {
      assert a + b == a;
    } else {
      assert (a + b)[..|a + b| - 1] == a + b[..|b| - 1];
      CountConcat(p, a, b[..|b| - 1]);
    }
  }

  lemma CountCons(p: real -> bool, x: real, s: seq<real>)
    ensures Count(p, [x] + s) == Count(p, s) + if p(x) then 1 else 0
  {
    CountConcat(p, [x], s);
    assert Count(p, [x]) == Count(p, []) + if p(x) then 1 else 0;
  }

  lemma {:induction false} CountInsert(p: real -> bool, x: real, s: seq<real>)
    ensures Count(p, Insert(Itself, x, s)) == Count(p, s) + if p(x) then 1 else 0
  {
    if s == [] || x <= s[0] {
      CountCons(p, x, s);
    } else {
      CountInsert(p, x, s[1..]);
      CountCons(p, s[0], s[1..]);
      CountCons(p, s[0], Insert(Itself, x, s[1..]));
      assert s == [s[0]] + s[1..];
    }
  }

  lemma {:induction false} CountSorted(p: real -> bool, s: seq<real>)
    ensures Count(p, SortBy(Itself, s)) == Count(p, s)
  {
    if s != [] {
      CountSorted(p, s[1..]);
      CountInsert(p, s[0], SortBy(Itself, s[1..]));
      CountCons(p, s[0], s[1..]);
      assert s == [s[0]] + s[1..];
    }
  }

  lemma {:induction false} CountAll(p: real -> bool, s: seq<real>)
    requires forall i | 0 <= i < |s| :: p(s[i])
    ensures Count(p, s) == |s|
  {
    if s != [] {
      CountAll(p, s[..|s| - 1]);
    }
  }

  lemma {:induction false} CountWithin(p: real -> bool, s: seq<real>, indices: set<nat>)
    requires forall i: nat | i < |s| && p(s[i]) :: i in indices
    ensures Count(p, s) <= |indices|
  {
    if s != [] {
      var last := |s| - 1;
      if p(s[last]) {
        CountWithin(p, s[..last], indices - {last});
      } else {
        CountWithin(p, s[..last], indices);
      }
    }
  }

  function AtMost(m: real): real -> bool
  {
    x => x <= m
  }

  function AtLeast(m: real): real -> bool
  {
    x => x >= m
  }

  lemma SortedAround(s: seq<real>, k: nat)
    requires SortedBy(Itself, s) && k < |s|
    ensures forall i | 0 <= i <= k :: s[i] <= s[k]
    ensures forall i | k <= i < |s| :: s[k] <= s[i]
  {
    forall i | 0 <= i < |s|
      ensures i < k ==> s[i] <= s[k]
      ensures k < i ==> s[k] <= s[i]
    {
      assert i < k ==> Itself(s[i]) <= Itself(s[k]);
      assert k < i ==> Itself(s[k]) <= Itself(s[i]);
    }
  }

  /** `p` holds on `s[lo..hi]`, so it holds at least that often. */
  lemma CountSlice(p: real -> bool, s: seq<real>, lo: nat, hi: nat)
    requires lo <= hi <= |s|
    requires forall i | lo <= i < hi :: p(s[i])
    ensures Count(p, s) >= hi - lo
  {
    CountAll(p, s[lo..hi]);
    CountTail(p, s[..hi], lo);
    assert s[..hi][lo..] == s[lo..hi];
    CountConcat(p, s[..hi], s[hi..]);
    assert s == s[..hi] + s[hi..];
  }

  lemma CountTail(p: real -> bool, s: seq<real>, lo: nat)
    requires lo <= |s|
    ensures Count(p, s[lo..]) <= Count(p, s)
  {
    CountConcat(p, s[..lo], s[lo..]);
    assert s == s[..lo] + s[lo..];
  }

  lemma CountAround(s: seq<real>, k: nat)
    requires SortedBy(Itself, s) && k < |s|
    ensures Count(AtMost(s[k]), s) >= k + 1
    ensures Count(AtLeast(s[k]), s) >= |s| - k
  {
    SortedAround(s, k);
    CountSlice(AtMost(s[k]), s, 0, k + 1);
    CountSlice(AtLeast(s[k]), s, k, |s|);
  }

  /** At least half of the samples lie at or below the median, and more than half at or above it. */
  lemma {:induction false} MedianSplits(samples: seq<real>, m: real)
    requires LowerMedian(samples) == Some(m)
    ensures 2 * Count(AtMost(m), samples) >= |samples|
    ensures 2 * Count(AtLeast(m), samples) > |samples|
  {
    LengthIsKept(samples);
    SortBySorts(Itself, samples);
    CountAround(SortBy(Itself, samples), (|samples| - 1) / 2);
    CountSorted(AtMost(m), samples);
    CountSorted(AtLeast(m), samples);
  }

  // ----- Robustness -----

  /** The median lies between two samples of replicas that are not faulty. */
  ghost predicate BetweenHonest(samples: seq<real>, faulty: set<nat>, m: real)
  {
    && (exists i: nat :: i < |samples| && i !in faulty && samples[i] <= m)
    && (exists j: nat :: j < |samples| && j !in faulty && m <= samples[j])
  }

  ghost predicate Robust(n: nat, faulty: set<nat>)
  {
    forall samples: seq<real> | |samples| == n ::
      LowerMedian(samples).Some? && BetweenHonest(samples, faulty, LowerMedian(samples).value)
  }

  lemma MinorityCannotMoveMedian(samples: seq<real>, faulty: set<nat>)
    requires 2 * |faulty| < |samples|
    ensures LowerMedian(samples).Some? && BetweenHonest(samples, faulty, LowerMedian(samples).value)
  {
    var m := LowerMedian(samples).value;
    MedianSplits(samples, m);
    if forall i: nat | i < |samples| && samples[i] <= m :: i in faulty {
      CountWithin(AtMost(m), samples, faulty);
    }
    if forall i: nat | i < |samples| && m <= samples[i] :: i in faulty {
      CountWithin(AtLeast(m), samples, faulty);
    }
  }

  function Skewed(n: nat, faulty: set<nat>): (s: seq<real>)
    ensures |s| == n && forall i | 0 <= i < n :: s[i] == if i in faulty then -1.0 else 0.0
  {
    seq(n, i => if i in faulty then -1.0 else 0.0)
  }

  function Indices(n: nat): (indices: set<nat>)
    ensures |indices| == n && forall i: nat :: i in indices <==> i < n
  {
    if n == 0 then {} else Indices(n - 1) + {n - 1}
  }

  lemma HalfCanMoveMedian(n: nat, faulty: set<nat>)
    requires n <= 2 * |faulty| && forall i | i in faulty :: i < n
    requires n > 0
    ensures !BetweenHonest(Skewed(n, faulty), faulty, LowerMedian(Skewed(n, faulty)).value)
  {
    var s := Skewed(n, faulty);
    var m := LowerMedian(s).value;
    var honest := Indices(n) - faulty;
    assert Indices(n) == honest + faulty;
    MedianSplits(s, m);
    if m >= 0.0 {
      CountWithin(AtLeast(m), s, honest);
    }
  }

  /** With `faulty` of `n` samples chosen by faulty replicas, the median is sure to lie between honest
      samples exactly if fewer than half of them are faulty. */
  lemma RobustIffMinority(n: nat, faulty: set<nat>)
    requires forall i | i in faulty :: i < n
    ensures Robust(n, faulty) <==> 2 * |faulty| < n
  {
    if 2 * |faulty| < n {
      forall samples: seq<real> | |samples| == n
        ensures LowerMedian(samples).Some? && BetweenHonest(samples, faulty, LowerMedian(samples).value)
      {
        MinorityCannotMoveMedian(samples, faulty);
      }
    } else if n == 0 {
      var none: seq<real> := [];
      assert |none| == n && LowerMedian(none) == None;
    } else {
      HalfCanMoveMedian(n, faulty);
      assert |Skewed(n, faulty)| == n;
    }
  }
}

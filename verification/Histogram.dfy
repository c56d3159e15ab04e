/** Latency histograms: counting samples into fixed slots, merging, and reading a percentile back. */
module Histogram {

  /** Upper bounds of the slots in milliseconds; one more slot takes everything above the last. */
  const BOUNDS: seq<int> := [
    100, 250, 500, 1000, 2000, 3000, 5000, 7500, 10000,
    15000, 20000, 30000, 45000, 60000, 90000, 120000, 180000, 300000]

  const SLOTS: nat := 19

  function SlotFrom(value: int, k: nat): (i: nat)
    requires k <= 18
    ensures k <= i <= 18
    ensures forall j :: k <= j < i ==> BOUNDS[j] < value
    ensures i < 18 ==> value <= BOUNDS[i]
    decreases 18 - k
  {
    if k == 18 || value <= BOUNDS[k] then k else SlotFrom(value, k + 1)
  }

  /** The slot a sample is counted in. */
  function Slot(value: int): (i: nat)
    ensures i < SLOTS
  {
    SlotFrom(value, 0)
  }

  method MetricHistogramIndex(value: int) returns (i: nat)
    ensures i == Slot(value)
  {
    i := 0;
    while i < 18
      invariant 0 <= i <= 18 && SlotFrom(value, i) == Slot(value)
    {
      if value <= BOUNDS[i] { return; }
      i := i + 1;
    }
  }

  lemma BoundsAscend()
    ensures forall i, j :: 0 <= i <= j < 18 ==> BOUNDS[i] <= BOUNDS[j]
  {}

  /** A larger sample is never counted in a lower slot. */
  lemma SlotMonotone(a: int, b: int)
    requires a <= b
    ensures Slot(a) <= Slot(b)
  {
    SlotFromMonotone(a, b, 0);
  }

  lemma {:induction false} SlotFromMonotone(a: int, b: int, k: nat)
    requires a <= b && k <= 18
    ensures SlotFrom(a, k) <= SlotFrom(b, k)
    decreases 18 - k
  {
    if k < 18 { SlotFromMonotone(a, b, k + 1); }
  }

  /** What a slot is displayed as: its bound, capped at the last one. */
  function Shown(slot: nat): int { BOUNDS[if slot < 18 then slot else 17] }

  /** The displayed value is the least bound at or above the sample, capped. */
  lemma ShownCovers(value: int)
    ensures value <= BOUNDS[17] ==> value <= Shown(Slot(value))
    ensures value > BOUNDS[17] ==> Shown(Slot(value)) == BOUNDS[17]
    ensures forall b :: b in BOUNDS && value <= b ==> Shown(Slot(value)) <= b
  {
    BoundsAscend();
    forall b | b in BOUNDS && value <= b ensures Shown(Slot(value)) <= b {
      var j :| 0 <= j < 18 && BOUNDS[j] == b;
      assert Slot(value) <= j;
    }
    assert value > BOUNDS[17] ==> Slot(value) >= 17;
  }

  // What a histogram counts.

  function Counted(samples: seq<int>, slot: nat): nat {
    if samples == [] then 0 else (if Slot(samples[0]) == slot then 1 else 0) + Counted(samples[1..], slot)
  }

  /** The histogram of some samples. */
  ghost predicate Holds(h: seq<int>, samples: seq<int>) {
    |h| == SLOTS && forall i :: 0 <= i < SLOTS ==> h[i] == Counted(samples, i)
  }

  /** Samples in one of the first `slots` slots. */
  function Within(samples: seq<int>, slots: nat): nat {
    if samples == [] then 0 else (if Slot(samples[0]) < slots then 1 else 0) + Within(samples[1..], slots)
  }

  function Prefix(h: seq<int>, k: nat): int
    requires k <= |h|
  {
    if k == 0 then 0 else Prefix(h, k - 1) + h[k - 1]
  }

  lemma {:induction false} WithinStep(samples: seq<int>, k: nat)
    ensures Within(samples, k + 1) == Within(samples, k) + Counted(samples, k)
  {
    if samples != [] { WithinStep(samples[1..], k); }
  }

  lemma {:induction false} WithinNone(samples: seq<int>)
    ensures Within(samples, 0) == 0
  {
    if samples != [] { WithinNone(samples[1..]); }
  }

  lemma {:induction false} WithinAll(samples: seq<int>)
    ensures Within(samples, SLOTS) == |samples|
  {
    if samples != [] { WithinAll(samples[1..]); }
  }

  lemma {:induction false} PrefixCounts(h: seq<int>, samples: seq<int>, k: nat)
    requires Holds(h, samples) && k <= SLOTS
    ensures Prefix(h, k) == Within(samples, k)
  {
    if k == 0 {
      WithinNone(samples);
    } else {
      PrefixCounts(h, samples, k - 1);
      WithinStep(samples, k - 1);
    }
  }

  // The exact percentile: samples in order, nearest rank.

  function Place(value: int, sorted: seq<int>): (r: seq<int>)
    ensures forall v :: v in r <==> v == value || v in sorted
  {
    if sorted == [] || value <= sorted[0] then [value] + sorted else [sorted[0]] + Place(value, sorted[1..])
  }

  function Sorted(samples: seq<int>): seq<int> {
    if samples == [] then [] else Place(samples[0], Sorted(samples[1..]))
  }

  ghost predicate Ordered(s: seq<int>) { forall i, j :: 0 <= i <= j < |s| ==> s[i] <= s[j] }

  lemma OrderedCons(value: int, rest: seq<int>)
    requires Ordered(rest) && forall v :: v in rest ==> value <= v
    ensures Ordered([value] + rest)
  {
    var all := [value] + rest;
    forall j | 0 < j < |all| ensures value <= all[j] { assert all[j] == rest[j - 1] && rest[j - 1] in rest; }
  }

  lemma OrderedTail(s: seq<int>)
    requires Ordered(s) && s != []
    ensures Ordered(s[1..]) && forall v :: v in s ==> s[0] <= v
  {}

  lemma {:induction false} PlaceOrdered(value: int, sorted: seq<int>)
    requires Ordered(sorted)
    ensures Ordered(Place(value, sorted))
  {
    if sorted == [] {
    } else {
      OrderedTail(sorted);
      if value <= sorted[0] {
        OrderedCons(value, sorted);
      } else {
        PlaceOrdered(value, sorted[1..]);
        OrderedCons(sorted[0], Place(value, sorted[1..]));
      }
    }
  }

  lemma {:induction false} PlaceKeeps(value: int, sorted: seq<int>)
    ensures multiset(Place(value, sorted)) == multiset(sorted) + multiset{value}
  {
    if sorted != [] && value > sorted[0] {
      PlaceKeeps(value, sorted[1..]);
      assert sorted == [sorted[0]] + sorted[1..];
    }
  }

  /** Sorting orders the samples and loses none. */
  lemma {:induction false} SortedIs(samples: seq<int>)
    ensures Ordered(Sorted(samples)) && multiset(Sorted(samples)) == multiset(samples)
    ensures |Sorted(samples)| == |samples|
  {
    if samples != [] {
      SortedIs(samples[1..]);
      PlaceOrdered(samples[0], Sorted(samples[1..]));
      PlaceKeeps(samples[0], Sorted(samples[1..]));
      assert samples == [samples[0]] + samples[1..];
    }
    assert |multiset(Sorted(samples))| == |multiset(samples)|;
  }

  lemma {:induction false} PlaceWithin(value: int, sorted: seq<int>, k: nat)
    ensures Within(Place(value, sorted), k) == Within([value] + sorted, k)
  {
    assert ([value] + sorted)[1..] == sorted;
    if sorted != [] && value > sorted[0] {
      PlaceWithin(value, sorted[1..], k);
      assert ([value] + sorted[1..])[1..] == sorted[1..];
      var r := Place(value, sorted);
      assert r[1..] == Place(value, sorted[1..]);
    }
  }

  lemma {:induction false} SortedWithin(samples: seq<int>, k: nat)
    ensures Within(Sorted(samples), k) == Within(samples, k)
  {
    if samples != [] {
      SortedWithin(samples[1..], k);
      PlaceWithin(samples[0], Sorted(samples[1..]), k);
      assert ([samples[0]] + Sorted(samples[1..]))[1..] == Sorted(samples[1..]);
    }
  }

  /** In order, the sample of rank t lies in the first k slots exactly when at least t samples do. */
  lemma {:induction false} RankWithin(s: seq<int>, k: nat, t: nat)
    requires Ordered(s) && 1 <= t <= |s|
    ensures Within(s, k) >= t <==> Slot(s[t - 1]) < k
  {
    SlotMonotone(s[0], s[t - 1]);
    if Slot(s[0]) < k {
      if t > 1 { RankWithin(s[1..], k, t - 1); }
    } else {
      NoneWithin(s, k);
    }
  }

  lemma {:induction false} NoneWithin(s: seq<int>, k: nat)
    requires Ordered(s) && (s == [] || k <= Slot(s[0]))
    ensures Within(s, k) == 0
  {
    if |s| > 1 { SlotMonotone(s[0], s[1]); }
    if s != [] { NoneWithin(s[1..], k); }
  }

  // Reading a percentile.

  /** The first slot from k on at which the running count reaches the target. */
  function FirstSlot(h: seq<int>, target: int, k: nat): (i: nat)
    requires k <= |h|
    ensures k <= i <= |h|
    ensures i < |h| ==> Prefix(h, i + 1) >= target
    ensures forall j {:trigger Prefix(h, j)} :: k < j <= i ==> Prefix(h, j) < target
    decreases |h| - k
  {
    if k == |h| || Prefix(h, k + 1) >= target then k else FirstSlot(h, target, k + 1)
  }

  function Read(h: seq<int>, target: int): int { Shown(FirstSlot(h, target, 0)) }

  /** The value read for rank t is the bound of the slot of the exact nearest-rank sample. */
  lemma NearestRank(h: seq<int>, samples: seq<int>, t: nat)
    requires Holds(h, samples) && 1 <= t <= |samples|
    ensures |Sorted(samples)| == |samples|
    ensures Read(h, t) == Shown(Slot(Sorted(samples)[t - 1]))
  {
    SortedIs(samples);
    var s := Sorted(samples);
    var slot := Slot(s[t - 1]);
    forall k | 0 <= k <= SLOTS ensures Prefix(h, k) >= t <==> slot < k {
      PrefixCounts(h, samples, k);
      SortedWithin(samples, k);
      RankWithin(s, k, t);
    }
    var i := FirstSlot(h, t, 0);
    assert Prefix(h, slot + 1) >= t;
    assert Prefix(h, slot) < t;
    assert i <= slot;
  }

  function Ceil(x: real): int { if x.Floor as real == x then x.Floor else x.Floor + 1 }

  /** The nearest rank of a percentile among n samples. */
  function Rank(n: int, p: real): int {
    var t := Ceil(n as real * p);
    if t > 1 then t else 1
  }

  /** The rank t reaches the fraction p of n samples. */
  predicate Reaches(t: int, n: int, p: real) { t as real >= n as real * p }

  /** The rank is the least whole number from 1 on that is at least n * p. */
  lemma RankIsLeast(n: int, p: real)
    ensures Rank(n, p) >= 1 && Reaches(Rank(n, p), n, p)
    ensures forall t :: t >= 1 && Reaches(t, n, p) ==> t >= Rank(n, p)
  {}

  function AtMost(samples: seq<int>, v: int): nat {
    if samples == [] then 0 else (if samples[0] <= v then 1 else 0) + AtMost(samples[1..], v)
  }

  function Below(samples: seq<int>, v: int): nat {
    if samples == [] then 0 else (if samples[0] < v then 1 else 0) + Below(samples[1..], v)
  }

  lemma {:induction false} PlaceCounts(value: int, sorted: seq<int>, v: int)
    ensures AtMost(Place(value, sorted), v) == AtMost(sorted, v) + if value <= v then 1 else 0
    ensures Below(Place(value, sorted), v) == Below(sorted, v) + if value < v then 1 else 0
  {
    assert ([value] + sorted)[1..] == sorted;
    if sorted != [] && value > sorted[0] {
      PlaceCounts(value, sorted[1..], v);
      assert Place(value, sorted)[1..] == Place(value, sorted[1..]);
    }
  }

  lemma {:induction false} SortedCounts(samples: seq<int>, v: int)
    ensures AtMost(Sorted(samples), v) == AtMost(samples, v) && Below(Sorted(samples), v) == Below(samples, v)
  {
    if samples != [] {
      SortedCounts(samples[1..], v);
      PlaceCounts(samples[0], Sorted(samples[1..]), v);
    }
  }

  /** In order, at least t samples are at or below the one of rank t, and fewer than t are below it. */
  lemma {:induction false} OrderedCounts(s: seq<int>, t: nat)
    requires Ordered(s) && 1 <= t <= |s|
    ensures AtMost(s, s[t - 1]) >= t && Below(s, s[t - 1]) < t
  {
    if t > 1 {
      OrderedCounts(s[1..], t - 1);
    } else {
      NoneBelow(s[1..], s[0]);
    }
  }

  lemma {:induction false} NoneBelow(s: seq<int>, v: int)
    requires forall i :: 0 <= i < |s| ==> v <= s[i]
    ensures Below(s, v) == 0
  {
    if s != [] { NoneBelow(s[1..], v); }
  }

  /** The percentile in terms of the samples alone: what is read is the displayed bound of a sample v such
      that at least n * p samples are at or below v, and for a rank past the first fewer than n * p are below. */
  lemma PercentileSplitsSamples(h: seq<int>, samples: seq<int>, p: real) returns (v: int)
    requires Holds(h, samples) && samples != [] && 0.0 <= p <= 1.0
    ensures v in samples && Read(h, Rank(Prefix(h, SLOTS), p)) == Shown(Slot(v))
    ensures AtMost(samples, v) as real >= |samples| as real * p
    ensures |samples| as real * p > 0.0 ==> Below(samples, v) as real < |samples| as real * p
  {
    PercentileIsNearestRank(h, samples, p);
    SortedIs(samples);
    var s, t := Sorted(samples), Rank(|samples|, p);
    v := s[t - 1];
    assert v in multiset(s);
    RankIsLeast(|samples|, p);
    OrderedCounts(s, t);
    SortedCounts(samples, v);
    assert !(Below(samples, v) >= 1 && Reaches(Below(samples, v), |samples|, p));
  }

  lemma RankInRange(n: int, p: real)
    requires n >= 1 && 0.0 <= p <= 1.0
    ensures 1 <= Rank(n, p) <= n
  {
    assert n as real * p <= n as real;
  }

  /** Anything that is not a full histogram of at least one sample reads as 0. */
  method HistogramPercentile(values: seq<int>, percentile: real) returns (r: int)
    ensures |values| != SLOTS ==> r == 0
    ensures |values| == SLOTS && Prefix(values, SLOTS) <= 0 ==> r == 0
    ensures (|values| == SLOTS && Prefix(values, SLOTS) > 0 ==>
              r == Read(values, Rank(Prefix(values, SLOTS), percentile)))
  {
    if |values| != SLOTS { return 0; }
    var total, i := 0, 0;
    while i < |values|
      invariant 0 <= i <= |values| && total == Prefix(values, i)
    {
      total, i := total + values[i], i + 1;
    }
    if total <= 0 { return 0; }
    var target := Rank(total, percentile);
    var cumulative := 0;
    i := 0;
    while i < |values|
      invariant 0 <= i <= |values| && cumulative == Prefix(values, i)
      invariant FirstSlot(values, target, i) == FirstSlot(values, target, 0)
    {
      cumulative := cumulative + values[i];
      if cumulative >= target {
        if i >= 18 { return BOUNDS[17]; }
        return BOUNDS[i];
      }
      i := i + 1;
    }
    return BOUNDS[17];
  }

  /** A percentile of recorded samples is the displayed bound of the exact nearest-rank sample. */
  lemma PercentileIsNearestRank(h: seq<int>, samples: seq<int>, p: real)
    requires Holds(h, samples) && samples != [] && 0.0 <= p <= 1.0
    ensures Prefix(h, SLOTS) == |samples| == |Sorted(samples)|
    ensures 1 <= Rank(|samples|, p) <= |samples|
    ensures Read(h, Rank(Prefix(h, SLOTS), p)) == Shown(Slot(Sorted(samples)[Rank(|samples|, p) - 1]))
  {
    PrefixCounts(h, samples, SLOTS);
    WithinAll(samples);
    RankInRange(|samples|, p);
    NearestRank(h, samples, Rank(|samples|, p));
  }

  // Merging.

  function At(h: seq<int>, i: nat): int { if i < |h| then h[i] else 0 }

  /** Slot-wise sum; a target that is no full histogram counts as empty. */
  function Merged(target: seq<int>, value: seq<int>): (r: seq<int>)
    ensures |r| == SLOTS
    ensures forall i :: 0 <= i < SLOTS ==> r[i] == (if |target| == SLOTS then target[i] else 0) + At(value, i)
  {
    seq(SLOTS, i requires 0 <= i < SLOTS => (if |target| == SLOTS then target[i] else 0) + At(value, i))
  }

  method MergeHistogram(target: array<int>, value: array<int>) returns (r: array<int>)
    modifies target
    ensures r[..] == Merged(old(target[..]), old(value[..]))
    ensures if target.Length == SLOTS then r == target else fresh(r) && target[..] == old(target[..])
  {
    r := target;
    if target.Length != SLOTS { r := new int[SLOTS](_ => 0); }
    ghost var base := r[..];
    var i := 0;
    while i < value.Length && i < SLOTS
      invariant 0 <= i <= SLOTS && i <= value.Length && r.Length == SLOTS
      invariant forall k :: 0 <= k < SLOTS ==> r[k] == base[k] + if k < i then old(value[k]) else 0
      invariant r != target ==> target[..] == old(target[..])
      invariant forall k :: i <= k < value.Length ==> value[k] == old(value[k])
    {
      r[i] := r[i] + value[i];
      i := i + 1;
    }
  }

  lemma {:induction false} CountedAppend(a: seq<int>, b: seq<int>, slot: nat)
    ensures Counted(a + b, slot) == Counted(a, slot) + Counted(b, slot)
  {
    if a == [] {
      assert a + b == b;
    } else {
      assert (a + b)[1..] == a[1..] + b;
      CountedAppend(a[1..], b, slot);
    }
  }

  /** The merge of two histograms is the histogram of both sample sets together. */
  lemma MergeHolds(g: seq<int>, h: seq<int>, a: seq<int>, b: seq<int>)
    requires Holds(g, a) && Holds(h, b)
    ensures Holds(Merged(g, h), a + b)
  {
    forall i | 0 <= i < SLOTS ensures Merged(g, h)[i] == Counted(a + b, i) { CountedAppend(a, b, i); }
  }

  lemma MergedPercentile(g: seq<int>, h: seq<int>, a: seq<int>, b: seq<int>, t: nat)
    requires Holds(g, a) && Holds(h, b) && 1 <= t <= |a + b|
    ensures |Sorted(a + b)| == |a + b|
    ensures Read(Merged(g, h), t) == Shown(Slot(Sorted(a + b)[t - 1]))
  {
    MergeHolds(g, h, a, b);
    NearestRank(Merged(g, h), a + b, t);
  }
}

/** The soak's fixed-memory millisecond histogram against the percentile of the sorted samples.

Models MsHistogram and percentile of scripts/topology/ingest-soak.ts. Fractions and samples are exact reals;
the counters are the 32-bit words of a Uint32Array.
*/
module Histogram {
  import opened Sequences

  const WORD: nat := 0x1_0000_0000

  function Ceil(x: real): (n: int) {
    -((0.0 - x).Floor)
  }

  /** Math.max(0, Math.round(ms)). */
  function Rounded(ms: real): (v: nat) {
    var r := (ms + 0.5).Floor;
    if r < 0 then 0 else r
  }

  /** An integer reaches the ceiling exactly when it reaches the number. */
  lemma CeilMeans(x: real, m: int)
    ensures m >= Ceil(x) <==> m as real >= x
  {
  }

  /** A recorded value is the nearest one to its sample, halves up, and 0 for negative samples. */
  ghost predicate RoundsTo(ms: real, v: nat) {
    if ms < -0.5 then v == 0 else v as real - 0.5 <= ms < v as real + 0.5
  }

  lemma RoundedMeans(ms: real)
    ensures RoundsTo(ms, Rounded(ms))
  {
  }

  // ---------------------------------------------------------------- the sort-based percentile

  predicate Sorted(s: seq<int>) {
    forall i, j :: 0 <= i < j < |s| ==> s[i] <= s[j]
  }

  function Insert(s: seq<int>, x: int): (r: seq<int>)
    requires Sorted(s)
    ensures Sorted(r) && |r| == |s| + 1 && multiset(r) == multiset(s) + multiset{x}
    ensures r[|s|] == if s != [] && x < s[|s| - 1] then s[|s| - 1] else x
  {
    if s == [] || s[|s| - 1] <= x then s + [x]
    else
      assert s == s[..|s| - 1] + [s[|s| - 1]];
      Insert(s[..|s| - 1], x) + [s[|s| - 1]]
  }

  function Sort(s: seq<int>): (r: seq<int>)
    ensures Sorted(r) && multiset(r) == multiset(s) && |r| == |s|
  {
    if s == [] then []
    else
      assert s == s[..|s| - 1] + [s[|s| - 1]];
      var r := Insert(Sort(s[..|s| - 1]), s[|s| - 1]);
      assert |multiset(r)| == |multiset(s)|;
      r
  }

  function Clip(x: int, low: int, high: int): (r: int) {
    if x < low then low else if x > high then high else x
  }

  function SortedPercentile(values: seq<int>, fraction: real): (p: int) {
    if values == [] then 0
    else Sort(values)[Clip(Ceil(fraction * |values| as real) - 1, 0, |values| - 1)]
  }

  // ---------------------------------------------------------------- the histogram on values

  /** How many samples are at most v. */
  function Rank(s: seq<int>, v: int): (n: nat)
    ensures n <= |s|
  {
    if s == [] then 0 else Rank(s[..|s| - 1], v) + if s[|s| - 1] <= v then 1 else 0
  }

  function Tally(s: seq<int>, v: int): (n: nat) {
    if s == [] then 0 else Tally(s[..|s| - 1], v) + if s[|s| - 1] == v then 1 else 0
  }

  /** Samples at or above the cap share the last bucket. */
  function Clamped(values: seq<nat>, cap: nat): (s: seq<int>)
    ensures |s| == |values| && forall i :: 0 <= i < |s| ==> s[i] == if values[i] < cap then values[i] else cap
  {
    seq(|values|, i requires 0 <= i < |values| => Clip(values[i], 0, cap))
  }

  function Buckets(values: seq<nat>, cap: nat): (counts: seq<nat>) {
    seq(cap + 1, b => Tally(Clamped(values, cap), b) % WORD)
  }

  function TargetRank(samples: nat, fraction: real): (rank: int) {
    Clip(Ceil(fraction * samples as real), 1, samples)
  }

  function Below(counts: seq<nat>, k: nat): (n: nat)
    requires k <= |counts|
  {
    if k == 0 then 0 else Below(counts, k - 1) + counts[k - 1]
  }

  /** The bucket where the running total first reaches the rank; the last one if it never does. */
  function Scan(counts: seq<nat>, ms: nat, seen: nat, rank: int): (p: nat)
    requires ms <= |counts| && |counts| > 0
    ensures p < |counts|
    decreases |counts| - ms
  {
    if ms == |counts| then |counts| - 1
    else if seen + counts[ms] >= rank then ms
    else Scan(counts, ms + 1, seen + counts[ms], rank)
  }

  function HistogramPercentile(counts: seq<nat>, samples: nat, fraction: real): (p: nat)
    requires |counts| > 0
  {
    if samples == 0 then 0 else Scan(counts, 0, 0, TargetRank(samples, fraction))
  }

  // ---------------------------------------------------------------- order statistics

  lemma RankAround(a: seq<int>, x: int, b: seq<int>, v: int)
    ensures Rank((a + [x]) + b, v) == Rank((a + b) + [x], v)
  {
    hide Rank;
    RankConcat(a + [x], b, v);
    RankConcat(a, [x], v);
    RankConcat(a + b, [x], v);
    RankConcat(a, b, v);
  }

  lemma {:induction false} RankOfMultiset(s: seq<int>, t: seq<int>, v: int)
    requires multiset(s) == multiset(t)
    ensures Rank(s, v) == Rank(t, v)
    decreases |s|
  {
    hide Rank;
    if s == [] {
      assert |multiset(t)| == 0;
    } else {
      var front, x := s[..|s| - 1], s[|s| - 1];
      DropLast(s);
      var j := TakeOut(t, x);
      var rest := t[..j] + t[j + 1..];
      RankOfMultiset(front, rest, v);
      RankAround(t[..j], x, t[j + 1..], v);
      RankConcat(front, [x], v);
      RankConcat(rest, [x], v);
    }
  }

  lemma {:induction false} RankConcat(s: seq<int>, t: seq<int>, v: int)
    ensures Rank(s + t, v) == Rank(s, v) + Rank(t, v)
    decreases |t|
  {
    if t == [] {
      assert s + t == s;
    } else {
      assert (s + t)[..|s + t| - 1] == s + t[..|t| - 1];
      RankConcat(s, t[..|t| - 1], v);
    }
  }

  lemma {:induction false} SortedRank(s: seq<int>, k: nat, v: int)
    requires Sorted(s) && k < |s|
    ensures s[k] <= v <==> Rank(s, v) > k
    decreases |s|
  {
    var n := |s| - 1;
    if s[n] <= v {
      AllRanked(s, v);
    } else if k < n {
      SortedRank(s[..n], k, v);
    }
  }

  lemma {:induction false} AllRanked(s: seq<int>, v: int)
    requires forall i :: 0 <= i < |s| ==> s[i] <= v
    ensures Rank(s, v) == |s|
  {
    if s != [] { AllRanked(s[..|s| - 1], v); }
  }

  /** The percentile is the least value that enough samples do not exceed. */
  lemma PercentileIsLeast(values: seq<int>, fraction: real, v: int)
    requires values != []
    ensures SortedPercentile(values, fraction) <= v <==> Rank(values, v) >= TargetRank(|values|, fraction)
  {
    hide Rank, Sort, Ceil;
    var k := Clip(Ceil(fraction * |values| as real) - 1, 0, |values| - 1);
    SortedRank(Sort(values), k, v);
    RankOfMultiset(Sort(values), values, v);
  }

  /** `p` is the percentile of the samples: one of them, reached by the fraction of them and no smaller value
      by as many; the least for no fraction, the greatest for more than all. */
  ghost predicate IsPercentile(values: seq<int>, fraction: real, p: int) {
    && p in values
    && (0.0 < fraction <= 1.0 ==>
          && Rank(values, p) as real >= fraction * |values| as real
          && forall v :: v < p ==> (Rank(values, v) as real) < fraction * |values| as real)
    && (fraction <= 0.0 ==> forall x :: x in values ==> p <= x)
    && (fraction > 1.0 ==> forall x :: x in values ==> x <= p)
  }

  function Indices(values: seq<int>, v: int): (s: set<nat>) {
    set i: nat | i < |values| && values[i] <= v
  }

  /** The rank counts the samples that are at most v. */
  lemma {:induction false} RankCounts(values: seq<int>, v: int)
    ensures Rank(values, v) == |Indices(values, v)|
  {
    if values == [] {
      assert Indices(values, v) == {};
    } else {
      var n := |values| - 1;
      RankCounts(values[..n], v);
      assert Indices(values, v) == Indices(values[..n], v) + if values[n] <= v then {n} else {};
      assert n !in Indices(values[..n], v);
    }
  }

  lemma {:induction false} TallyCounts(values: seq<int>, v: int)
    ensures Tally(values, v) == multiset(values)[v]
  {
    if values != [] {
      TallyCounts(values[..|values| - 1], v);
      DropLast(values);
    }
  }

  /** Each counter is the number of samples in its bucket, as a 32-bit word. */
  lemma BucketsCount(values: seq<nat>, cap: nat, b: nat)
    requires b <= cap
    ensures |Buckets(values, cap)| == cap + 1
    ensures Buckets(values, cap)[b] == multiset(Clamped(values, cap))[b] % 4294967296
  {
    hide Tally, Clamped;
    TallyCounts(Clamped(values, cap), b);
  }

  lemma {:induction false} RankedAll(s: seq<int>, v: int)
    requires Rank(s, v) == |s|
    ensures forall x :: x in s ==> x <= v
  {
    if s != [] {
      var n := |s| - 1;
      RankedAll(s[..n], v);
      assert s == s[..n] + [s[n]];
    }
  }

  lemma {:induction false} RankedOne(s: seq<int>, x: int)
    requires x in s
    ensures Rank(s, x) >= 1
  {
    var n := |s| - 1;
    if s[n] != x {
      assert s == s[..n] + [s[n]];
      RankedOne(s[..n], x);
    }
  }

  lemma PercentileIsSample(values: seq<int>, fraction: real)
    requires values != []
    ensures SortedPercentile(values, fraction) in values
  {
    hide Ceil, Sort;
    var s := Sort(values);
    var p := SortedPercentile(values, fraction);
    assert p in s;
    assert p in multiset(s);
  }

  /** Which side of the samples a fraction of them falls. */
  ghost predicate Falls(f: real, x: real, n: real) {
    && (0.0 < f <= 1.0 ==> 0.0 < x <= n)
    && (f <= 0.0 ==> x <= 0.0)
    && (f > 1.0 ==> x > n)
  }

  lemma Product(f: real, n: real)
    requires n > 0.0
    ensures Falls(f, f * n, n)
  {
  }

  lemma ClipFalls(f: real, x: real, n: nat, m: nat)
    requires n > 0 && m <= n && Falls(f, x, n as real)
    ensures 0.0 < f <= 1.0 ==> (m >= Clip(Ceil(x), 1, n) <==> m as real >= x)
    ensures f <= 0.0 ==> Clip(Ceil(x), 1, n) == 1
    ensures f > 1.0 ==> Clip(Ceil(x), 1, n) == n
  {
    hide Ceil, Clip;
    ClipRank(n, x, m);
  }

  lemma ClipRank(n: nat, x: real, m: nat)
    requires n > 0 && m <= n
    ensures 0.0 < x <= n as real ==> (m >= Clip(Ceil(x), 1, n) <==> m as real >= x)
    ensures x <= 0.0 ==> Clip(Ceil(x), 1, n) == 1
    ensures x > n as real ==> Clip(Ceil(x), 1, n) == n
  {
    hide Ceil;
    CeilMeans(x, m);
    CeilMeans(x, 0);
    CeilMeans(x, n);
  }

  lemma TargetOf(n: nat, fraction: real, x: real)
    requires x == fraction * n as real
    ensures TargetRank(n, fraction) == Clip(Ceil(x), 1, n)
  {
    hide Ceil, Clip;
  }

  /** The rank the percentile looks for, in samples. */
  lemma RankMeans(n: nat, fraction: real, m: nat)
    requires n > 0 && m <= n
    ensures 0.0 < fraction <= 1.0 ==> (m >= TargetRank(n, fraction) <==> m as real >= fraction * n as real)
    ensures fraction <= 0.0 ==> TargetRank(n, fraction) == 1
    ensures fraction > 1.0 ==> TargetRank(n, fraction) == n
  {
    hide Ceil, Clip, Falls, TargetRank;
    var x := fraction * n as real;
    Product(fraction, n as real);
    TargetOf(n, fraction, x);
    ClipFalls(fraction, x, n, m);
  }

  /** The sort-based percentile is the percentile, for every fraction. */
  lemma PercentileMeans(values: seq<int>, fraction: real)
    requires values != []
    ensures IsPercentile(values, fraction, SortedPercentile(values, fraction))
  {
    hide Rank, SortedPercentile, TargetRank;
    var n, p := |values|, SortedPercentile(values, fraction);
    PercentileIsSample(values, fraction);
    PercentileIsLeast(values, fraction, p);
    RankMeans(n, fraction, Rank(values, p));
    forall v | v < p && 0.0 < fraction <= 1.0 ensures (Rank(values, v) as real) < fraction * n as real {
      PercentileIsLeast(values, fraction, v);
      RankMeans(n, fraction, Rank(values, v));
    }
    forall x | x in values ensures (fraction <= 0.0 ==> p <= x) && (fraction > 1.0 ==> x <= p) {
      PercentileIsLeast(values, fraction, x);
      RankedOne(values, x);
      if Rank(values, p) == n { RankedAll(values, p); }
    }
  }

  // ---------------------------------------------------------------- running totals

  lemma {:induction false} RankTally(s: seq<int>, v: int)
    ensures Rank(s, v) == Rank(s, v - 1) + Tally(s, v)
  {
    if s != [] { RankTally(s[..|s| - 1], v); }
  }

  lemma {:induction false} NoneBelow(s: seq<int>, v: int)
    requires forall i :: 0 <= i < |s| ==> v < s[i]
    ensures Rank(s, v) == 0
  {
    if s != [] { NoneBelow(s[..|s| - 1], v); }
  }

  ghost predicate Unwrapped(values: seq<nat>, cap: nat, k: int) {
    forall b: nat :: b < k ==> Tally(Clamped(values, cap), b) < 0x1_0000_0000
  }

  /** As long as no earlier bucket wrapped, the running total is the rank; it never overshoots. */
  lemma {:induction false} BelowIsRank(values: seq<nat>, cap: nat, k: nat)
    requires k <= cap + 1
    ensures Below(Buckets(values, cap), k) <= Rank(Clamped(values, cap), k - 1)
    ensures Unwrapped(values, cap, k) ==> Below(Buckets(values, cap), k) == Rank(Clamped(values, cap), k - 1)
  {
    var s := Clamped(values, cap);
    if k == 0 {
      NoneBelow(s, -1);
    } else {
      BelowIsRank(values, cap, k - 1);
      RankTally(s, k - 1);
      ModBelow(Tally(s, k - 1));
      assert Unwrapped(values, cap, k) ==> Tally(s, k - 1) < WORD && Unwrapped(values, cap, k - 1);
    }
  }

  lemma ModBelow(n: nat)
    ensures n % WORD <= n && (n < WORD ==> n % WORD == n) && (n >= WORD ==> n % WORD < n)
  {
  }

  /** What the loop finds. */
  lemma {:induction false} ScanFinds(counts: seq<nat>, ms: nat, rank: int)
    requires ms <= |counts| && |counts| > 0
    requires forall q :: 1 <= q <= ms ==> Below(counts, q) < rank
    ensures var p := Scan(counts, ms, Below(counts, ms), rank);
            && (p + 1 < |counts| ==> Below(counts, p + 1) >= rank)
            && forall q :: 1 <= q <= p ==> Below(counts, q) < rank
    decreases |counts| - ms
  {
    if ms < |counts| && Below(counts, ms) + counts[ms] < rank {
      assert Below(counts, ms + 1) == Below(counts, ms) + counts[ms];
      ScanFinds(counts, ms + 1, rank);
    }
  }

  // ---------------------------------------------------------------- the theorem

  lemma Agrees(values: seq<nat>, cap: nat, fraction: real)
    requires Unwrapped(values, cap, cap)
    ensures HistogramPercentile(Buckets(values, cap), |values|, fraction) == SortedPercentile(Clamped(values, cap), fraction)
  {
    hide Scan, TargetRank, SortedPercentile, Rank, Tally, Below, Buckets;
    BucketCount(values, cap);
    if values != [] {
      var s, rank := Clamped(values, cap), TargetRank(|values|, fraction);
      var p := HistogramPercentile(Buckets(values, cap), |values|, fraction);
      ScanFinds(Buckets(values, cap), 0, rank);
      BelowZero(Buckets(values, cap));
      PercentileIsLeast(s, fraction, p);
      PercentileIsLeast(s, fraction, p - 1);
      UnwrappedPrefix(values, cap, p);
      BelowIsRank(values, cap, p);
      if p < cap {
        UnwrappedPrefix(values, cap, p + 1);
        BelowIsRank(values, cap, p + 1);
      } else {
        AllRanked(s, cap);
        RankReachable(|values|, fraction);
      }
      if p == 0 { NoneBelow(s, -1); RankReachable(|values|, fraction); }
    } else {
      EmptyPercentile(cap, fraction);
    }
  }

  lemma EmptyPercentile(cap: nat, fraction: real)
    ensures SortedPercentile(Clamped([], cap), fraction) == 0
  {
  }

  lemma BelowZero(counts: seq<nat>)
    ensures Below(counts, 0) == 0
  {
  }

  lemma BucketCount(values: seq<nat>, cap: nat)
    ensures |Buckets(values, cap)| == cap + 1
  {
  }

  lemma UnwrappedPrefix(values: seq<nat>, cap: nat, k: nat)
    requires Unwrapped(values, cap, cap) && k <= cap
    ensures Unwrapped(values, cap, k)
  {
  }

  lemma RankReachable(samples: nat, fraction: real)
    requires samples > 0
    ensures 1 <= TargetRank(samples, fraction) <= samples
  {
  }

  lemma {:induction false} BelowMonotone(counts: seq<nat>, i: nat, j: nat)
    requires i <= j <= |counts|
    ensures Below(counts, i) <= Below(counts, j)
  {
    if i < j { BelowMonotone(counts, i, j - 1); }
  }

  lemma RankAsFraction(rank: nat, samples: nat)
    requires 1 <= rank <= samples
    ensures TargetRank(samples, rank as real / samples as real) == rank
  {
    var f := rank as real / samples as real;
    assert f * samples as real == rank as real;
  }

  /** Where the first bucket below the cap wraps, the percentile at that bucket's own rank is reported too high. */
  lemma WrapShows(values: seq<nat>, cap: nat, b: nat)
    requires b < cap && Unwrapped(values, cap, b) && Tally(Clamped(values, cap), b) >= WORD
    ensures |values| > 0 && |Buckets(values, cap)| == cap + 1
    ensures var f := Rank(Clamped(values, cap), b) as real / |values| as real;
            SortedPercentile(Clamped(values, cap), f) == b < HistogramPercentile(Buckets(values, cap), |values|, f)
  {
    hide Scan, TargetRank, SortedPercentile, Rank, Tally, Buckets, Below;
    var s := Clamped(values, cap);
    BucketCount(values, cap);
    RankTally(s, b);
    var rank := Rank(s, b);
    var f := rank as real / |values| as real;
    RankAsFraction(rank, |values|);
    PercentileIsLeast(s, f, b);
    PercentileIsLeast(s, f, b - 1);
    BelowIsRank(values, cap, b);
    BelowNext(values, cap, b);
    ModBelow(Tally(s, b));
    ScanFinds(Buckets(values, cap), 0, rank);
    BelowZero(Buckets(values, cap));
    var p := HistogramPercentile(Buckets(values, cap), |values|, f);
    if p <= b { BelowMonotone(Buckets(values, cap), p + 1, b + 1); }
  }

  lemma BelowNext(values: seq<nat>, cap: nat, b: nat)
    requires b <= cap
    ensures |Buckets(values, cap)| == cap + 1
    ensures Below(Buckets(values, cap), b + 1)
         == Below(Buckets(values, cap), b) + Tally(Clamped(values, cap), b) % WORD
  {
    hide Tally;
  }

  lemma {:induction false} FirstWrapped(values: seq<nat>, cap: nat, b: nat) returns (a: nat)
    requires Tally(Clamped(values, cap), b) >= WORD
    ensures a <= b && Unwrapped(values, cap, a) && Tally(Clamped(values, cap), a) >= WORD
  {
    if c: nat :| c < b && Tally(Clamped(values, cap), c) >= WORD {
      a := FirstWrapped(values, cap, c);
    } else {
      a := b;
    }
  }

  /** For every fraction the histogram answers what sorting the clamped samples would, exactly when no
      bucket below the cap has wrapped; the last bucket may. */
  lemma AgreesIffUnwrapped(values: seq<nat>, cap: nat)
    ensures |Buckets(values, cap)| == cap + 1
    ensures (forall f: real :: HistogramPercentile(Buckets(values, cap), |values|, f) == SortedPercentile(Clamped(values, cap), f))
            <==> Unwrapped(values, cap, cap)
  {
    hide HistogramPercentile, SortedPercentile, Tally, Rank, Buckets;
    BucketCount(values, cap);
    if Unwrapped(values, cap, cap) {
      forall f: real
        ensures HistogramPercentile(Buckets(values, cap), |values|, f) == SortedPercentile(Clamped(values, cap), f)
      {
        Agrees(values, cap, f);
      }
    } else {
      var b: nat :| b < cap && Tally(Clamped(values, cap), b) >= WORD;
      var a := FirstWrapped(values, cap, b);
      WrapShows(values, cap, a);
      var f := Rank(Clamped(values, cap), a) as real / |values| as real;
      assert HistogramPercentile(Buckets(values, cap), |values|, f) != SortedPercentile(Clamped(values, cap), f);
    }
  }

  lemma {:induction false} TallyBound(s: seq<int>, v: int)
    ensures Tally(s, v) <= |s|
  {
    if s != [] { TallyBound(s[..|s| - 1], v); }
  }

  lemma FewSamplesNeverWrap(values: seq<nat>, cap: nat)
    requires |values| < 0x1_0000_0000
    ensures Unwrapped(values, cap, cap)
  {
    forall b: nat | b < cap ensures Tally(Clamped(values, cap), b) < WORD {
      TallyBound(Clamped(values, cap), b);
    }
  }

  /** With samples, some bucket of an unwrapped histogram reaches the rank: the loop always returns. */
  lemma LoopAlwaysReturns(values: seq<nat>, cap: nat, fraction: real)
    requires values != [] && |values| < 0x1_0000_0000
    ensures |Buckets(values, cap)| == cap + 1
    ensures Below(Buckets(values, cap), cap + 1) >= TargetRank(|values|, fraction)
  {
    var s := Clamped(values, cap);
    forall b: nat | b < cap + 1 ensures Tally(s, b) < WORD {
      TallyBound(s, b);
    }
    BelowIsRank(values, cap, cap + 1);
    AllRanked(s, cap);
  }

  // ---------------------------------------------------------------- the class

  lemma ClampedAppend(values: seq<nat>, cap: nat, v: nat)
    ensures Clamped(values + [v], cap) == Clamped(values, cap) + [Clip(v, 0, cap)]
  {
    hide Clamped;
  }

  lemma TallyAppend(s: seq<int>, x: int, b: int)
    ensures Tally(s + [x], b) == Tally(s, b) + if x == b then 1 else 0
  {
    assert (s + [x])[..|s|] == s;
  }

  lemma ModNext(n: nat)
    ensures (n % WORD + 1) % WORD == (n + 1) % WORD
  {
  }

  lemma BucketAt(values: seq<nat>, cap: nat, b: nat)
    requires b <= cap
    ensures |Buckets(values, cap)| == cap + 1 && Buckets(values, cap)[b] == Tally(Clamped(values, cap), b) % WORD
  {
    hide Tally, Clamped;
  }

  lemma BucketsAppend(values: seq<nat>, cap: nat, v: nat)
    ensures |Buckets(values, cap)| == cap + 1
    ensures var i := Clip(v, 0, cap);
            Buckets(values + [v], cap) == Buckets(values, cap)[i := (Buckets(values, cap)[i] + 1) % WORD]
  {
    hide Buckets, Tally, Clamped;
    var s, i := Clamped(values, cap), Clip(v, 0, cap);
    BucketAt(values, cap, 0);
    BucketAt(values + [v], cap, 0);
    ClampedAppend(values, cap, v);
    forall b: nat | b <= cap
      ensures Buckets(values + [v], cap)[b] == Buckets(values, cap)[i := (Buckets(values, cap)[i] + 1) % WORD][b]
    {
      BucketAt(values, cap, b);
      BucketAt(values + [v], cap, b);
      TallyAppend(s, i, b);
      ModNext(Tally(s, b));
    }
  }

  class MsHistogram {
    const capMs: nat
    const counts: array<nat>
    var samples: nat
    var max: nat
    ghost var recorded: seq<nat>

    ghost predicate Valid()
      reads this, counts
    {
      && counts[..] == Buckets(recorded, capMs)
      && samples == |recorded|
      && (forall i :: 0 <= i < |recorded| ==> recorded[i] <= max)
      && (recorded == [] ==> max == 0)
      && (recorded != [] ==> max in recorded)
    }

    constructor (cap: nat)
      ensures Valid() && fresh(counts) && capMs == cap && recorded == []
    {
      capMs, samples, max, recorded := cap, 0, 0, [];
      counts := new nat[cap + 1](_ => 0);
      new;
      assert counts[..] == Buckets([], cap);
    }

    /** `recorded` keeps every rounded sample; `max` stays exact above the cap. */
    method Record(ms: real)
      requires Valid()
      modifies this, counts
      ensures Valid() && recorded == old(recorded) + [Rounded(ms)]
      ensures samples == old(samples) + 1 && RoundsTo(ms, Rounded(ms))
      ensures max == if Rounded(ms) > old(max) then Rounded(ms) else old(max)
    {
      hide Buckets, Tally;
      RoundedMeans(ms);
      var value := Rounded(ms);
      var i := if value < capMs then value else capMs;
      BucketsAppend(recorded, capMs, value);
      ghost var before := counts[..];
      counts[i] := (counts[i] + 1) % WORD;
      assert counts[..] == before[i := (before[i] + 1) % WORD];
      samples := samples + 1;
      if value > max { max := value; }
      recorded := recorded + [value];
      assert recorded[|recorded| - 1] == value;
    }

    /** One pass over the buckets gives the percentile of the sorted samples, unless a bucket wrapped. */
    method Percentile(fraction: real) returns (p: nat)
      requires Valid()
      ensures p == HistogramPercentile(Buckets(recorded, capMs), samples, fraction)
      ensures Unwrapped(recorded, capMs, capMs) ==> p == SortedPercentile(Clamped(recorded, capMs), fraction)
      ensures samples == 0 ==> p == 0
      ensures samples > 0 && Unwrapped(recorded, capMs, capMs) ==> IsPercentile(Clamped(recorded, capMs), fraction, p)
    {
      hide Buckets, Tally, SortedPercentile, Unwrapped, IsPercentile;
      if samples > 0 { PercentileMeans(Clamped(recorded, capMs), fraction); }
      BucketCount(recorded, capMs);
      if Unwrapped(recorded, capMs, capMs) { Agrees(recorded, capMs, fraction); }
      if samples == 0 { return 0; }
      var rank := TargetRank(samples, fraction);
      var seen: nat := 0;
      for ms := 0 to capMs + 1
        invariant Scan(counts[..], 0, 0, rank) == Scan(counts[..], ms, seen, rank)
      {
        seen := seen + counts[ms];
        if seen >= rank { return ms; }
      }
      return capMs;
    }
  }
}

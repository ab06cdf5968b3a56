/**
  The latency histogram of src/mb-latency-diagnostics.c: 256 one-millisecond
  buckets, and a percentile that must agree with sorting the observations.
 */
module Latency {
  import opened Words
  import opened Wrappers

  const BUCKETS := 256

  /** Whole milliseconds of one observation, clipped to the last bucket. */
  function BucketOf(latencyNs: nat): (b: nat)
    ensures b < BUCKETS
  {
    var ms := latencyNs / 1000000;
    if ms >= BUCKETS then BUCKETS - 1 else ms
  }

  function Clipped(observed: seq<nat>): (vals: seq<nat>)
    ensures |vals| == |observed|
    ensures forall i | 0 <= i < |vals| :: vals[i] == BucketOf(observed[i])
  {
    seq(|observed|, i requires 0 <= i < |observed| => BucketOf(observed[i]))
  }

  /** The histogram as a multiset of bucket numbers. */
  function Histogram(observed: seq<nat>): multiset<nat> {
    multiset(Clipped(observed))
  }

  /** Addition on 64-bit unsigned integers. */
  function AddU64(a: U64Int, b: U64Int): U64Int {
    if a + b < U64 then a + b else a + b - U64
  }

  /** The buckets as the machine counts them. */
  function MachineBuckets(observed: seq<nat>): (bs: seq<U64Int>)
    ensures |bs| == BUCKETS && forall i | 0 <= i < BUCKETS :: bs[i] == Histogram(observed)[i] % U64
  {
    seq(BUCKETS, i requires 0 <= i < BUCKETS => Histogram(observed)[i] % U64)
  }

  lemma HistogramSnoc(observed: seq<nat>, x: nat)
    ensures Histogram(observed + [x]) == Histogram(observed)[BucketOf(x) := Histogram(observed)[BucketOf(x)] + 1]
  {
    assert Clipped(observed + [x]) == Clipped(observed) + [BucketOf(x)];
  }

  lemma BucketsIncrement(observed: seq<nat>, x: nat)
    ensures var bs := MachineBuckets(observed);
            MachineBuckets(observed + [x]) == bs[BucketOf(x) := AddU64(bs[BucketOf(x)], 1)]
  {
    HistogramSnoc(observed, x);
    var bs, b := MachineBuckets(observed), BucketOf(x);
    ModNext(Histogram(observed)[b]);
    assert forall i | 0 <= i < BUCKETS :: MachineBuckets(observed + [x])[i] == bs[b := AddU64(bs[b], 1)][i];
  }

  lemma ModNext(n: nat)
    ensures (n + 1) % U64 == AddU64(n % U64, 1)
  {
  }

  /** How many values are at most `v`. */
  function SumUpTo(m: multiset<nat>, v: nat): nat {
    m[v] + if v == 0 then 0 else SumUpTo(m, v - 1)
  }

  /** The first bucket from `i` on at which the running total reaches `target`. */
  function FirstReaching(m: multiset<nat>, target: nat, i: nat): (r: nat)
    requires i < BUCKETS
    ensures i <= r < BUCKETS
    decreases BUCKETS - i
  {
    if SumUpTo(m, i) >= target || i == BUCKETS - 1 then i else FirstReaching(m, target, i + 1)
  }

  /** The machine's running total of buckets 0 to `i`. */
  function Seen(bs: seq<U64Int>, i: nat): U64Int
    requires i < |bs|
  {
    AddU64(if i == 0 then 0 else Seen(bs, i - 1), bs[i])
  }

  /** The bucket the machine's loop stops at from `i` on, if there is one. */
  function Search(bs: seq<U64Int>, target: nat, i: nat): (r: Option<nat>)
    requires |bs| == BUCKETS && i <= BUCKETS
    ensures r.Some? ==> i <= r.value < BUCKETS
    decreases BUCKETS - i
  {
    if i == BUCKETS then None else if Seen(bs, i) >= target then Some(i) else Search(bs, target, i + 1)
  }

  /** The count stops at 2^64 - 1. */
  function Saturated(n: nat): U64Int {
    if n < U64 then n else U64 - 1
  }

  function Capped(percentile: nat): nat {
    if percentile > 100 then 100 else percentile
  }

  /** Nearest rank: the smallest rank that covers the given share, and at least 1. */
  function Rank(count: nat, percentile: nat): nat {
    var t := (count * Capped(percentile) + 99) / 100;
    if t == 0 then 1 else t
  }

  /** The same computed in 64-bit unsigned arithmetic. */
  function MachineRank(count: nat, percentile: nat): nat {
    var t := ((count * Capped(percentile) + 99) % U64) / 100;
    if t == 0 then 1 else t
  }

  class Accumulator {
    var count: U64Int
    var totalNs: U64Int
    var maxNs: U64Int
    const bucket: array<U64Int>

    /** Every latency observed since the last reset. */
    ghost var observed: seq<nat>

    ghost predicate Valid()
      reads this, bucket
    {
      && bucket.Length == BUCKETS
      && count == Saturated(|observed|)
      && bucket[..] == MachineBuckets(observed)
    }

    constructor ()
      ensures Valid() && observed == [] && totalNs == maxNs == 0
      ensures fresh(bucket)
    {
      count, totalNs, maxNs := 0, 0, 0;
      bucket := new U64Int[BUCKETS](_ => 0);
      observed := [];
      new;
      assert Clipped([]) == [];
      assert forall i | 0 <= i < BUCKETS :: bucket[..][i] == MachineBuckets([])[i];
    }

    method Observe(latencyNs: U64Int)
      requires Valid()
      modifies this, bucket
      ensures Valid() && observed == old(observed) + [latencyNs]
      ensures totalNs == (if old(totalNs) + latencyNs < U64 then old(totalNs) + latencyNs else U64 - 1)
      ensures maxNs == (if latencyNs > old(maxNs) then latencyNs else old(maxNs))
    {
      if count != U64 - 1 {
        count := count + 1;
      }
      if U64 - 1 - totalNs < latencyNs {
        totalNs := U64 - 1;
      } else {
        totalNs := totalNs + latencyNs;
      }
      if latencyNs > maxNs {
        maxNs := latencyNs;
      }
      var b := latencyNs / 1000000;
      if b >= BUCKETS {
        b := BUCKETS - 1;
      }
      BucketsIncrement(observed, latencyNs);
      bucket[b] := AddU64(bucket[b], 1);
      assert bucket[..] == old(bucket[..])[b := AddU64(old(bucket[..])[b], 1)];
      observed := observed + [latencyNs];
    }

    /** The loop, and the return behind it when no running total reaches the target. */
    method FindBucket(target: nat) returns (r: nat)
      requires Valid()
      ensures var found := Search(bucket[..], target, 0); r == if found.Some? then found.value else BUCKETS - 1
    {
      var seen: U64Int := 0;
      var i := 0;
      while i < BUCKETS
        invariant 0 <= i <= BUCKETS
        invariant seen == if i == 0 then 0 else Seen(bucket[..], i - 1)
        invariant Search(bucket[..], target, 0) == Search(bucket[..], target, i)
      {
        seen := AddU64(seen, bucket[i]);
        if seen >= target {
          return i;
        }
        i := i + 1;
      }
      return BUCKETS - 1;
    }

    /** After any observations the machine's search; with fewer than 2^64 of them its totals are exact. */
    method PercentileMs(percentile: nat) returns (r: nat)
      requires Valid()
      ensures r < BUCKETS
      ensures observed == [] ==> r == 0
      ensures observed != [] ==>
                var found := Search(MachineBuckets(observed), MachineRank(Saturated(|observed|), percentile), 0);
                r == if found.Some? then found.value else BUCKETS - 1
      ensures 0 < |observed| < U64 ==>
                r == FirstReaching(Histogram(observed), MachineRank(|observed|, percentile), 0)
      ensures 0 < |observed| < U64 && RankFits(|observed|, percentile) ==> Shares(observed, percentile, r)
    {
      if count == 0 {
        return 0;
      }
      var target := MachineRank(count, percentile);
      r := FindBucket(target);
      if |observed| < U64 {
        FallbackUnreachable(observed, percentile);
        if RankFits(|observed|, percentile) {
          FitsIsExact(|observed|, percentile);
          PercentileShares(observed, percentile);
        }
      }
    }
  }

  lemma ModSmall(x: nat, m: nat)
    requires x < m
    ensures x % m == x
  {
  }

  /** With fewer than 2^64 observations no bucket and no running total has wrapped. */
  lemma {:induction false} SeenIsSum(observed: seq<nat>, i: nat)
    requires |observed| < U64 && i < BUCKETS
    ensures Seen(MachineBuckets(observed), i) == SumUpTo(Histogram(observed), i)
  {
    SumAtMostCount(Clipped(observed), i);
    ModSmall(Histogram(observed)[i], U64);
    if i > 0 {
      SeenIsSum(observed, i - 1);
    }
  }

  lemma {:induction false} SearchIsFirstReaching(observed: seq<nat>, target: nat, i: nat)
    requires |observed| < U64 && i < BUCKETS && SumUpTo(Histogram(observed), BUCKETS - 1) >= target
    ensures Search(MachineBuckets(observed), target, i) == Some(FirstReaching(Histogram(observed), target, i))
    decreases BUCKETS - i
  {
    SeenIsSum(observed, i);
    if SumUpTo(Histogram(observed), i) < target {
      SearchIsFirstReaching(observed, target, i + 1);
    }
  }

  // ---- counting ----

  lemma {:induction false} SumConcat(a: multiset<nat>, b: multiset<nat>, v: nat)
    ensures SumUpTo(a + b, v) == SumUpTo(a, v) + SumUpTo(b, v)
  {
    if v > 0 {
      SumConcat(a, b, v - 1);
    }
  }

  lemma {:induction false} SumOne(x: nat, v: nat)
    ensures SumUpTo(multiset{x}, v) == if x <= v then 1 else 0
  {
    if v > 0 {
      SumOne(x, v - 1);
    }
  }

  lemma {:induction false} SumAtMostCount(vals: seq<nat>, v: nat)
    ensures SumUpTo(multiset(vals), v) <= |vals|
  {
    if vals == [] {
      SumEmpty(v);
    } else {
      SumSplit(vals, v);
      SumAtMostCount(vals[1..], v);
    }
  }

  lemma {:induction false} SumEmpty(v: nat)
    ensures SumUpTo(multiset{}, v) == 0
  {
    if v > 0 {
      SumEmpty(v - 1);
    }
  }

  lemma SumSplit(vals: seq<nat>, v: nat)
    requires vals != []
    ensures SumUpTo(multiset(vals), v) == (if vals[0] <= v then 1 else 0) + SumUpTo(multiset(vals[1..]), v)
  {
    assert vals == [vals[0]] + vals[1..];
    assert multiset(vals) == multiset{vals[0]} + multiset(vals[1..]);
    SumConcat(multiset{vals[0]}, multiset(vals[1..]), v);
    SumOne(vals[0], v);
  }

  /** The buckets add up to the number of observations. */
  lemma {:induction false} SumUpToAll(vals: seq<nat>)
    requires forall i | 0 <= i < |vals| :: vals[i] < BUCKETS
    ensures SumUpTo(multiset(vals), BUCKETS - 1) == |vals|
  {
    if vals == [] {
      SumEmpty(BUCKETS - 1);
    } else {
      SumSplit(vals, BUCKETS - 1);
      SumUpToAll(vals[1..]);
    }
  }

  // ---- agreement with sorting ----

  ghost predicate SortedVersion(s: seq<nat>, vals: seq<nat>) {
    && multiset(s) == multiset(vals)
    && forall i, j | 0 <= i < j < |s| :: s[i] <= s[j]
  }

  /** In a list whose first `n` elements are at most `v`, at least `n` are. */
  lemma {:induction false} AtLeast(s: seq<nat>, n: nat, v: nat)
    requires n <= |s| && forall i | 0 <= i < n :: s[i] <= v
    ensures SumUpTo(multiset(s), v) >= n
  {
    if n > 0 {
      SumSplit(s, v);
      AtLeast(s[1..], n - 1, v);
    }
  }

  /** In a list whose elements from `n` on exceed `v`, at most `n` do not. */
  lemma {:induction false} AtMost(s: seq<nat>, n: nat, v: nat)
    requires n <= |s| && forall i | n <= i < |s| :: s[i] > v
    ensures SumUpTo(multiset(s), v) <= n
  {
    if s == [] {
      SumEmpty(v);
    } else {
      SumSplit(s, v);
      AtMost(s[1..], if n == 0 then 0 else n - 1, v);
    }
  }

  lemma {:induction false} FirstReachingIsLeast(m: multiset<nat>, target: nat, i: nat)
    requires i < BUCKETS && SumUpTo(m, BUCKETS - 1) >= target
    requires i == 0 || SumUpTo(m, i - 1) < target
    ensures var r := FirstReaching(m, target, i);
            SumUpTo(m, r) >= target && (r == 0 || SumUpTo(m, r - 1) < target)
    decreases BUCKETS - i
  {
    if SumUpTo(m, i) < target && i < BUCKETS - 1 {
      FirstReachingIsLeast(m, target, i + 1);
    }
  }

  /** For any rank in range, the bucket found is the element of that rank in the sorted list. */
  lemma BucketIsSortedElement(vals: seq<nat>, s: seq<nat>, rank: nat)
    requires forall i | 0 <= i < |vals| :: vals[i] < BUCKETS
    requires SortedVersion(s, vals) && 1 <= rank <= |vals|
    ensures |s| == |vals| && s[rank - 1] == FirstReaching(multiset(vals), rank, 0)
  {
    assert |s| == |multiset(s)| == |vals|;
    SumUpToAll(vals);
    FirstReachingIsLeast(multiset(vals), rank, 0);
    ElementOfRank(s, FirstReaching(multiset(s), rank, 0), rank);
  }

  lemma ElementOfRank(s: seq<nat>, r: nat, rank: nat)
    requires forall i, j | 0 <= i < j < |s| :: s[i] <= s[j]
    requires 1 <= rank <= |s|
    requires SumUpTo(multiset(s), r) >= rank && (r == 0 || SumUpTo(multiset(s), r - 1) < rank)
    ensures s[rank - 1] == r
  {
    if s[rank - 1] > r {
      AtMost(s, rank - 1, r);
    } else if s[rank - 1] < r {
      AtLeast(s, rank, r - 1);
    }
  }

  // ---- ranks ----

  lemma RankBounds(count: nat, percentile: nat)
    requires count > 0
    ensures 1 <= Rank(count, percentile) <= count
  {
    var q := Capped(percentile);
    assert count * q <= count * 100 by {
      MulMonotone(count, q, 100);
    }
  }

  lemma MulMonotone(c: nat, a: nat, b: nat)
    requires a <= b
    ensures c * a <= c * b
  {
    assert c * b == c * a + c * (b - a);
  }

  lemma MachineRankInRange(count: nat, percentile: nat)
    requires 0 < count
    ensures 1 <= MachineRank(count, percentile) <= Rank(count, percentile) <= count
  {
    RankBounds(count, percentile);
  }

  /** 64-bit arithmetic yields the nearest rank exactly when the product and the rounding term fit. */
  lemma MachineRankExact(count: nat, percentile: nat)
    requires 0 < count
    ensures MachineRank(count, percentile) == Rank(count, percentile)
       <==> count * Capped(percentile) + 99 < U64
  {
    var x := count * Capped(percentile) + 99;
    if x >= U64 {
      assert x % U64 < U64 <= x;
      assert (x % U64) / 100 < x / 100 by {
        assert (x % U64) <= x - U64;
      }
    }
  }

  /** 184467440737095516 observations times 100 still fit into 64 bits, the rounding term no longer does. */
  lemma RoundingOverflows()
    ensures var n := 184467440737095516;
            n * 100 < U64 && MachineRank(n, 100) == 1 && Rank(n, 100) == n
  {
  }

  /**
    The percentile is the nearest-rank percentile of the sorted millisecond
    values for every list of observations whose count fits the arithmetic.
   */
  lemma PercentileIsNearestRank(observed: seq<nat>, s: seq<nat>, percentile: nat)
    requires 0 < |observed| && |observed| * Capped(percentile) + 99 < U64
    requires SortedVersion(s, Clipped(observed))
    ensures |s| == |observed| && 1 <= Rank(|observed|, percentile) <= |s|
    ensures FirstReaching(Histogram(observed), MachineRank(|observed|, percentile), 0)
         == s[Rank(|observed|, percentile) - 1]
  {
    MachineRankExact(|observed|, percentile);
    RankBounds(|observed|, percentile);
    BucketIsSortedElement(Clipped(observed), s, Rank(|observed|, percentile));
  }

  /** The bucket returned is not the nearest-rank element of the sorted values. */
  ghost predicate WrongBucket(observed: seq<nat>, percentile: nat) {
    exists s :: SortedVersion(s, Clipped(observed)) && WrongAgainst(s, observed, percentile)
  }

  ghost predicate WrongAgainst(s: seq<nat>, observed: seq<nat>, percentile: nat) {
    && 1 <= Rank(|observed|, percentile) <= |s|
    && FirstReaching(Histogram(observed), MachineRank(|observed|, percentile), 0) != s[Rank(|observed|, percentile) - 1]
  }

  /** `low` latencies below one millisecond, and then only latencies of one millisecond. */
  function TwoLevels(n: nat, low: nat): (observed: seq<nat>)
    requires low <= n
    ensures |observed| == n
  {
    seq(n, i => if i < low then 0 else 1000000)
  }

  lemma {:induction false} OverflowMisleads(n: nat, percentile: nat)
    requires 0 < n && n * Capped(percentile) + 99 >= U64
    ensures WrongBucket(TwoLevels(n, MachineRank(n, percentile) % (n + 1)), percentile)
  {
    MachineRankInRange(n, percentile);
    MachineRankExact(n, percentile);
    var low, high := MachineRank(n, percentile), Rank(n, percentile);
    ModSmall(low, n + 1);
    var observed := TwoLevels(n, low);
    var s := Clipped(observed);
    assert forall i | 0 <= i < n :: s[i] == if i < low then 0 else 1;
    assert SortedVersion(s, Clipped(observed));
    BucketIsSortedElement(s, s, low);
    assert s[low - 1] == 0 && s[high - 1] == 1;
    assert WrongAgainst(s, observed, percentile);
  }

  /** For every exact count: some observations yield a wrong bucket if and only if the sum does not fit. */
  lemma {:induction false} WrongBucketExactlyWhenOverflow(n: nat, percentile: nat)
    requires 0 < n < U64
    ensures (exists observed: seq<nat> :: |observed| == n && WrongBucket(observed, percentile))
       <==> n * Capped(percentile) + 99 >= U64
  {
    if n * Capped(percentile) + 99 >= U64 {
      OverflowMisleads(n, percentile);
    } else {
      forall observed: seq<nat> | |observed| == n ensures !WrongBucket(observed, percentile) {
        if s :| SortedVersion(s, Clipped(observed)) && WrongAgainst(s, observed, percentile) {
          PercentileIsNearestRank(observed, s, percentile);
        }
      }
    }
  }

  /** With fewer than 2^64 observations the loop always finds a bucket: the return behind it is never reached. */
  lemma FallbackUnreachable(observed: seq<nat>, percentile: nat)
    requires 0 < |observed| < U64
    ensures var m := Histogram(observed); var t := MachineRank(|observed|, percentile);
            && SumUpTo(m, FirstReaching(m, t, 0)) >= t
            && Search(MachineBuckets(observed), t, 0) == Some(FirstReaching(m, t, 0))
  {
    SumUpToAll(Clipped(observed));
    MachineRankInRange(|observed|, percentile);
    FirstReachingIsLeast(Histogram(observed), MachineRank(|observed|, percentile), 0);
    SearchIsFirstReaching(observed, MachineRank(|observed|, percentile), 0);
  }

  function Zeros(n: nat): (observed: seq<nat>)
    ensures |observed| == n
  {
    seq(n, _ => 0)
  }

  lemma {:induction false} AllInFirstBucket(n: nat)
    ensures Histogram(Zeros(n))[0] == n
    ensures forall i | 0 < i < BUCKETS :: Histogram(Zeros(n))[i] == 0
  {
    if n == 0 {
      assert Clipped(Zeros(0)) == [];
    } else {
      assert Zeros(n) == Zeros(n - 1) + [0];
      HistogramSnoc(Zeros(n - 1), 0);
      AllInFirstBucket(n - 1);
    }
  }

  lemma {:induction false} NothingSeen(bs: seq<U64Int>, i: nat)
    requires |bs| == BUCKETS && i < BUCKETS && forall j | 0 <= j < BUCKETS :: bs[j] == 0
    ensures Seen(bs, i) == 0
  {
    if i > 0 {
      NothingSeen(bs, i - 1);
    }
  }

  lemma {:induction false} NothingFound(bs: seq<U64Int>, target: nat, i: nat)
    requires |bs| == BUCKETS && i <= BUCKETS && target > 0 && forall j | 0 <= j < BUCKETS :: bs[j] == 0
    ensures Search(bs, target, i) == None
    decreases BUCKETS - i
  {
    if i < BUCKETS {
      NothingSeen(bs, i);
      NothingFound(bs, target, i + 1);
    }
  }

  /** The bound cannot be dropped: 2^64 latencies below one millisecond wrap the first bucket, and nothing is found. */
  lemma FallbackAfterWrap(percentile: nat)
    ensures Search(MachineBuckets(Zeros(U64)), MachineRank(Saturated(U64), percentile), 0) == None
  {
    AllInFirstBucket(U64);
    MachineRankInRange(Saturated(U64), percentile);
    NothingFound(MachineBuckets(Zeros(U64)), MachineRank(Saturated(U64), percentile), 0);
  }

  lemma {:induction false} FirstReachingMonotone(m: multiset<nat>, t1: nat, t2: nat, i: nat)
    requires t1 <= t2 && i < BUCKETS
    ensures FirstReaching(m, t1, i) <= FirstReaching(m, t2, i)
    decreases BUCKETS - i
  {
    if SumUpTo(m, i) < t1 && i < BUCKETS - 1 {
      FirstReachingMonotone(m, t1, t2, i + 1);
    }
  }

  // ---- what the result says about the latencies ----

  const MILLISECOND := 1000000

  /** A bucket stands for one whole millisecond, the last one for everything from 255 ms on. */
  lemma BucketMeans(latencyNs: nat, b: nat)
    requires b < BUCKETS
    ensures BucketOf(latencyNs) == b
       <==> b * MILLISECOND <= latencyNs && (latencyNs < (b + 1) * MILLISECOND || b == BUCKETS - 1)
  {
  }

  /** How many latencies are shorter than `ns`. */
  function Below(observed: seq<nat>, ns: nat): nat {
    if observed == [] then 0 else (if observed[0] < ns then 1 else 0) + Below(observed[1..], ns)
  }

  lemma {:induction false} BelowIsSum(observed: seq<nat>, v: nat)
    requires v < BUCKETS - 1
    ensures Below(observed, (v + 1) * MILLISECOND) == SumUpTo(Histogram(observed), v)
  {
    if observed == [] {
      assert Clipped(observed) == [];
      SumEmpty(v);
    } else {
      assert Clipped(observed)[1..] == Clipped(observed[1..]);
      SumSplit(Clipped(observed), v);
      BelowIsSum(observed[1..], v);
    }
  }

  /**
    `r` milliseconds are the percentile: at least that share of the latencies is
    below r + 1 ms and a smaller share below r ms; percentile 0 is the shortest.
   */
  predicate Shares(observed: seq<nat>, percentile: nat, r: nat) {
    var q := if percentile > 100 then 100 else percentile;
    && r < BUCKETS
    && (r < BUCKETS - 1 ==> var upto := Below(observed, (r + 1) * MILLISECOND);
                            upto * 100 >= |observed| * q && upto > 0)
    && (r > 0 ==> var below := Below(observed, r * MILLISECOND);
                  if q == 0 then below == 0 else below * 100 < |observed| * q)
  }

  lemma RankIsLeast(count: nat, q: nat, sum: nat)
    requires count > 0 && q <= 100
    ensures sum >= Rank(count, q) ==> sum * 100 >= count * q && sum > 0
    ensures sum < Rank(count, q) ==> if q == 0 then sum == 0 else sum * 100 < count * q
  {
    if q > 0 {
      MulMonotone(count, 1, q);
    }
  }

  lemma {:induction false} RankedIsShare(observed: seq<nat>, percentile: nat, r: nat)
    requires observed != [] && r < BUCKETS && SumUpTo(Histogram(observed), r) >= Rank(|observed|, percentile)
    requires r == 0 || SumUpTo(Histogram(observed), r - 1) < Rank(|observed|, percentile)
    ensures Shares(observed, percentile, r)
  {
    var q := if percentile > 100 then 100 else percentile;
    assert Rank(|observed|, percentile) == Rank(|observed|, q);
    if r < BUCKETS - 1 {
      BelowIsSum(observed, r);
      RankIsLeast(|observed|, q, SumUpTo(Histogram(observed), r));
    }
    if r > 0 {
      BelowIsSum(observed, r - 1);
      RankIsLeast(|observed|, q, SumUpTo(Histogram(observed), r - 1));
    }
  }

  /** As long as the arithmetic fits, the bucket found is the percentile of the latencies. */
  lemma {:induction false} PercentileShares(observed: seq<nat>, percentile: nat)
    requires 0 < |observed| < U64 && MachineRank(|observed|, percentile) == Rank(|observed|, percentile)
    ensures Shares(observed, percentile, FirstReaching(Histogram(observed), MachineRank(|observed|, percentile), 0))
  {
    SumUpToAll(Clipped(observed));
    MachineRankInRange(|observed|, percentile);
    FirstReachingIsLeast(Histogram(observed), Rank(|observed|, percentile), 0);
    RankedIsShare(observed, percentile, FirstReaching(Histogram(observed), Rank(|observed|, percentile), 0));
  }

  predicate RankFits(count: nat, percentile: nat) {
    count * (if percentile > 100 then 100 else percentile) + 99 < U64
  }

  lemma FitsIsExact(count: nat, percentile: nat)
    requires count > 0 && RankFits(count, percentile)
    ensures MachineRank(count, percentile) == Rank(count, percentile)
  {
    MachineRankExact(count, percentile);
  }

  /** A higher percentile never yields a lower bucket. */
  lemma PercentileMonotone(observed: seq<nat>, p: nat, q: nat)
    requires 0 < |observed| && p <= q && |observed| * Capped(q) + 99 < U64
    ensures var m := Histogram(observed);
            FirstReaching(m, MachineRank(|observed|, p), 0) <= FirstReaching(m, MachineRank(|observed|, q), 0)
  {
    MulMonotone(|observed|, Capped(p), Capped(q));
    MachineRankExact(|observed|, p);
    MachineRankExact(|observed|, q);
    FirstReachingMonotone(Histogram(observed), MachineRank(|observed|, p), MachineRank(|observed|, q), 0);
  }
}

/**
 The latency histogram (src/operations/usage-summary.ts:1-12, 153-176): durations
 are counted in buckets with fixed upper bounds, and quantiles are read off as
 the bound of a bucket.
 */
module Latency {
  import opened Options

  /** A duration of an audit event: a number, or absent, or not finite. */
  datatype Duration = Finite(ms: real) | NotFinite | Undefined

  const BUCKETS: nat := 12

  /** The upper bound of a bucket; the last one has none. */
  function UpperBound(i: nat): Option<real>
    requires i < BUCKETS
  {
    match i
    case 0 => Some(1.0)
    case 1 => Some(5.0)
    case 2 => Some(10.0)
    case 3 => Some(50.0)
    case 4 => Some(100.0)
    case 5 => Some(500.0)
    case 6 => Some(1000.0)
    case 7 => Some(5000.0)
    case 8 => Some(10000.0)
    case 9 => Some(30000.0)
    case 10 => Some(60000.0)
    case 11 => None
  }

  predicate Within(ms: real, i: nat)
    requires i < BUCKETS
  {
    UpperBound(i).Some? ==> ms <= UpperBound(i).value
  }

  /** How many samples are at or below the bound of a bucket. */
  function CountWithin(samples: seq<real>, i: nat): (n: nat)
    requires i < BUCKETS
    ensures n <= |samples|
  {
    if samples == [] then 0
    else CountWithin(samples[..|samples| - 1], i) + if Within(samples[|samples| - 1], i) then 1 else 0
  }

  function Total(samples: seq<real>): real {
    if samples == [] then 0.0 else Total(samples[..|samples| - 1]) + samples[|samples| - 1]
  }

  function SumTo(buckets: seq<nat>, n: nat): nat
    requires n <= |buckets|
  {
    if n == 0 then 0 else SumTo(buckets, n - 1) + buckets[n - 1]
  }

  function SumThrough(buckets: seq<nat>, i: nat): nat
    requires i < |buckets|
  {
    SumTo(buckets, i + 1)
  }

  /** The least and the greatest sample; without samples, the values a minimum and a maximum start from. */
  predicate Extremes(samples: seq<real>, min: Option<real>, max: real) {
    if samples == [] then min == None && max == 0.0
    else
      min.Some? && min.value in samples && max in samples
      && forall k :: 0 <= k < |samples| ==> 0.0 <= min.value <= samples[k] <= max
  }

  lemma ExtremesOfMore(samples: seq<real>, min: Option<real>, max: real, ms: real)
    requires Extremes(samples, min, max) && ms >= 0.0
    ensures Extremes(samples + [ms], Some(if min.Some? && min.value < ms then min.value else ms),
                     if max < ms then ms else max)
  {
    var more := samples + [ms];
    assert more[|samples|] == ms;
    assert forall k :: 0 <= k < |samples| ==> more[k] == samples[k];
  }

  lemma {:induction false} SumOfUpdate(buckets: seq<nat>, b: nat, n: nat)
    requires b < |buckets| && n <= |buckets|
    ensures SumTo(buckets[b := buckets[b] + 1], n) == SumTo(buckets, n) + if b < n then 1 else 0
  {
    if n > 0 {
      SumOfUpdate(buckets, b, n - 1);
    }
  }

  lemma WiderBounds(ms: real, i: nat, j: nat)
    requires i <= j < BUCKETS && Within(ms, i)
    ensures Within(ms, j)
  {
  }

  /** The bound a quantile is read off: the least one with enough samples at or below it. */
  predicate LeastBound(samples: seq<real>, needed: int, i: nat)
    requires i < BUCKETS
  {
    CountWithin(samples, i) >= needed && forall j :: 0 <= j < i ==> CountWithin(samples, j) < needed
  }

  function Ceiling(r: real): int { if r.Floor as real == r then r.Floor else r.Floor + 1 }

  /** Counting one more sample in its bucket keeps all sums right. */
  lemma Recount(buckets: seq<nat>, samples: seq<real>, bucket: nat, ms: real)
    requires |buckets| == BUCKETS && bucket < BUCKETS
    requires forall i :: 0 <= i < BUCKETS ==> SumThrough(buckets, i) == CountWithin(samples, i)
    requires forall i :: 0 <= i < BUCKETS ==> (Within(ms, i) <==> bucket <= i)
    ensures forall i :: 0 <= i < BUCKETS ==>
              SumThrough(buckets[bucket := buckets[bucket] + 1], i) == CountWithin(samples + [ms], i)
  {
    assert (samples + [ms])[..|samples|] == samples;
    forall i | 0 <= i < BUCKETS
      ensures SumThrough(buckets[bucket := buckets[bucket] + 1], i) == CountWithin(samples + [ms], i)
    {
      SumOfUpdate(buckets, bucket, i + 1);
      assert SumThrough(buckets, i) == CountWithin(samples, i);
    }
  }

  // ---------------------------------------------------------------- the rank of a quantile

  /** The double nearest to 0.95: 20 times its numerator is 19 times its denominator, less 4. */
  const P95 := 4278419646001971.0 / 4503599627370496.0
  const MEDIAN := 0.5

  /** 2^48 */
  const COUNTABLE: nat := 281474976710656

  /** A multiple of 1/32: up to 2^48 every one of them is a double. */
  function Step32(k: int): real { k as real / 32.0 }

  /** Rounding to nearest, however ties are broken: no multiple of 1/32 up to 2^48 is nearer than the result. */
  ghost predicate Nearest(round: real -> real) {
    forall r: real, k: int :: 0 <= k <= 32 * COUNTABLE ==> Distance(round(r), r) <= Distance(Step32(k), r)
  }

  function Distance(a: real, b: real): real { if a < b then b - a else a - b }

  /** `Math.ceil(count * fraction)`, the number of samples a quantile needs at or below its bound. */
  function Needed(count: nat, fraction: real, round: real -> real): int { Ceiling(round(count as real * fraction)) }

  /** A product above n - 1 by more than 1/32 and at most n is rounded up to n. */
  lemma RoundedUp(r: real, n: nat, round: real -> real)
    requires Nearest(round) && 1 <= n <= COUNTABLE && (n - 1) as real + 1.0 / 32.0 <= r <= n as real
    ensures Ceiling(round(r)) == n
  {
    assert Step32(32 * n) == n as real && Distance(round(r), r) <= Distance(Step32(32 * n), r);
    assert Step32(32 * n - 31) == (n - 1) as real + 1.0 / 32.0 && Distance(round(r), r) <= Distance(Step32(32 * n - 31), r);
  }

  /**
   The ranks the summary asks for are exact in spite of binary rounding: half of
   the samples and 19 of 20, rounded up, and so ranks among the samples.
   */
  lemma RanksAreExact(count: nat, round: real -> real)
    requires Nearest(round) && 0 < count <= COUNTABLE
    ensures Needed(count, P95, round) == (19 * count + 19) / 20
    ensures Needed(count, MEDIAN, round) == (count + 1) / 2
    ensures 1 <= Needed(count, P95, round) <= count && 1 <= Needed(count, MEDIAN, round) <= count
  {
    RoundedUp(count as real * P95, (19 * count + 19) / 20, round);
    RoundedUp(count as real * MEDIAN, (count + 1) / 2, round);
  }

  /** The buckets sum up to the counts of the samples, and the rest is exact. */
  ghost predicate Exact(
    buckets: seq<nat>, samples: seq<real>, count: nat, totalMs: real, minMs: Option<real>, maxMs: real)
  {
    && |buckets| == BUCKETS && count == |samples| && totalMs == Total(samples)
    && Extremes(samples, minMs, maxMs)
    && forall i :: 0 <= i < BUCKETS ==> SumThrough(buckets, i) == CountWithin(samples, i)
  }

  lemma OneMoreIsExact(
    buckets: seq<nat>, samples: seq<real>, count: nat, totalMs: real, minMs: Option<real>, maxMs: real,
    bucket: nat, ms: real)
    requires Exact(buckets, samples, count, totalMs, minMs, maxMs) && bucket < BUCKETS && ms >= 0.0
    requires forall i :: 0 <= i < BUCKETS ==> (Within(ms, i) <==> bucket <= i)
    ensures Exact(buckets[bucket := buckets[bucket] + 1], samples + [ms], count + 1, totalMs + ms,
                  Some(if minMs.Some? && minMs.value < ms then minMs.value else ms), if maxMs < ms then ms else maxMs)
  {
    ExtremesOfMore(samples, minMs, maxMs, ms);
    Recount(buckets, samples, bucket, ms);
    assert (samples + [ms])[..|samples|] == samples;
    hide Extremes, SumThrough, CountWithin, Within;
  }

  class Histogram {
    var count: nat
    var totalMs: real
    var minMs: Option<real>
    var maxMs: real
    var buckets: array<nat>
    ghost var samples: seq<real>

    ghost predicate Valid()
      reads this, buckets
    {
      buckets.Length == BUCKETS && Exact(buckets[..], samples, count, totalMs, minMs, maxMs)
    }

    constructor ()
      ensures Valid() && samples == [] && fresh(buckets)
    {
      count, totalMs, minMs, maxMs, samples := 0, 0.0, None, 0.0, [];
      buckets := new nat[BUCKETS](_ => 0);
      new;
      forall i | 0 <= i < BUCKETS ensures SumThrough(buckets[..], i) == 0 {
        SumOfZeros(buckets[..], i + 1);
      }
    }

    static lemma {:induction false} SumOfZeros(zeros: seq<nat>, n: nat)
      requires n <= |zeros| && forall i :: 0 <= i < |zeros| ==> zeros[i] == 0
      ensures SumTo(zeros, n) == 0
    {
      if n > 0 {
        SumOfZeros(zeros, n - 1);
      }
    }

    /** The buckets together hold every sample. */
    lemma BucketsSumToCount()
      requires Valid()
      ensures SumTo(buckets[..], BUCKETS) == count
    {
      AllWithinLast(samples);
      assert SumThrough(buckets[..], BUCKETS - 1) == CountWithin(samples, BUCKETS - 1);
    }

    static lemma {:induction false} AllWithinLast(samples: seq<real>)
      ensures CountWithin(samples, BUCKETS - 1) == |samples|
    {
      if samples != [] {
        AllWithinLast(samples[..|samples| - 1]);
      }
    }

    /** `findIndex`: the first bucket whose bound the duration does not exceed. */
    static method BucketOf(ms: real) returns (bucket: nat)
      ensures bucket < BUCKETS
      ensures forall i :: 0 <= i < BUCKETS ==> (Within(ms, i) <==> bucket <= i)
      ensures UpperBound(bucket).Some? ==> ms <= UpperBound(bucket).value
      ensures bucket > 0 ==> UpperBound(bucket - 1).Some? && UpperBound(bucket - 1).value < ms
    {
      bucket := 0;
      while !Within(ms, bucket)
        invariant bucket < BUCKETS
        invariant forall i :: 0 <= i < bucket ==> !Within(ms, i)
        decreases BUCKETS - bucket
      {
        bucket := bucket + 1;
      }
      forall i | bucket <= i < BUCKETS ensures Within(ms, i) {
        WiderBounds(ms, bucket, i);
      }
      assert bucket > 0 ==> !Within(ms, bucket - 1);
    }

    method AddLatency(duration: Duration)
      requires Valid()
      modifies this, buckets
      ensures Valid() && buckets == old(buckets)
      ensures samples == if duration.Finite? && duration.ms >= 0.0 then old(samples) + [duration.ms] else old(samples)
    {
      hide Exact, UpperBound;
      if !duration.Finite? || duration.ms < 0.0 {
        return;
      }
      var ms := duration.ms;
      ghost var before := buckets[..];
      var bucket := BucketOf(ms);
      OneMoreIsExact(before, samples, count, totalMs, minMs, maxMs, bucket, ms);
      count, totalMs := count + 1, totalMs + ms;
      minMs := Some(if minMs.Some? && minMs.value < ms then minMs.value else ms);
      maxMs := if maxMs < ms then ms else maxMs;
      buckets[bucket] := buckets[bucket] + 1;
      assert buckets[..] == before[bucket := before[bucket] + 1];
      samples := samples + [ms];
    }

    /** Null without samples, and for the bucket without a bound. */
    method Quantile(fraction: real, round: real -> real) returns (bound: Option<real>)
      requires Valid()
      ensures count == 0 || Needed(count, fraction, round) > count ==> bound == None
      ensures count > 0 && Needed(count, fraction, round) <= count ==>
                exists i :: 0 <= i < BUCKETS && bound == UpperBound(i)
                            && LeastBound(samples, Needed(count, fraction, round), i)
    {
      if count == 0 {
        return None;
      }
      AllWithinLast(samples);
      var needed := Needed(count, fraction, round);
      var cumulative := 0;
      var i := 0;
      while i < BUCKETS
        invariant i <= BUCKETS
        invariant cumulative == SumTo(buckets[..], i)
        invariant forall j :: 0 <= j < i ==> CountWithin(samples, j) < needed
      {
        cumulative := cumulative + buckets[i];
        assert cumulative == SumThrough(buckets[..], i) == CountWithin(samples, i) <= count;
        if cumulative >= needed {
          assert LeastBound(samples, needed, i);
          return UpperBound(i);
        }
        i := i + 1;
      }
      bound := None;
    }
  }

  // ---------------------------------------------------------------- the exact quantile

  /** How many samples are at most, or below, a value. */
  function CountAtMost(samples: seq<real>, v: real): nat {
    if samples == [] then 0
    else CountAtMost(samples[..|samples| - 1], v) + if samples[|samples| - 1] <= v then 1 else 0
  }

  function CountBelow(samples: seq<real>, v: real): nat {
    if samples == [] then 0
    else CountBelow(samples[..|samples| - 1], v) + if samples[|samples| - 1] < v then 1 else 0
  }

  /** The needed-th smallest sample, as sorting would place it. */
  predicate OrderStatistic(samples: seq<real>, needed: int, v: real) {
    CountBelow(samples, v) < needed <= CountAtMost(samples, v)
  }

  lemma {:induction false} BoundBelow(samples: seq<real>, i: nat, v: real)
    requires i < BUCKETS
    ensures !Within(v, i) ==> CountWithin(samples, i) <= CountBelow(samples, v)
    ensures Within(v, i) ==> CountAtMost(samples, v) <= CountWithin(samples, i)
  {
    if samples != [] {
      BoundBelow(samples[..|samples| - 1], i, v);
    }
  }

  /** The exact quantile lies in the bucket whose bound is reported: at or below it, and above the bound before it. */
  lemma ExactQuantileIsInBucket(samples: seq<real>, needed: int, i: nat, v: real)
    requires i < BUCKETS && LeastBound(samples, needed, i) && OrderStatistic(samples, needed, v)
    ensures UpperBound(i).Some? ==> v <= UpperBound(i).value
    ensures forall j :: 0 <= j < i ==> UpperBound(j).Some? && UpperBound(j).value < v
  {
    BoundBelow(samples, i, v);
    forall j | 0 <= j < i ensures UpperBound(j).Some? && UpperBound(j).value < v {
      BoundBelow(samples, j, v);
    }
  }

  /** The bounds in order; only the last bucket has none. */
  lemma BoundsIncrease(i: nat, j: nat)
    requires i < j < BUCKETS
    ensures UpperBound(i).Some? && (UpperBound(j).None? <==> j == BUCKETS - 1)
    ensures UpperBound(j).Some? ==> UpperBound(i).value < UpperBound(j).value
  {
  }

  function Without(samples: seq<real>, k: nat): seq<real>
    requires k < |samples|
  {
    samples[..k] + samples[k + 1..]
  }

  lemma {:induction false} CountWithout(samples: seq<real>, k: nat, v: real)
    requires k < |samples|
    ensures CountAtMost(samples, v) == CountAtMost(Without(samples, k), v) + if samples[k] <= v then 1 else 0
    ensures CountBelow(samples, v) == CountBelow(Without(samples, k), v) + if samples[k] < v then 1 else 0
  {
    var n := |samples| - 1;
    if k == n {
      assert Without(samples, k) == samples[..n];
    } else {
      CountWithout(samples[..n], k, v);
      assert Without(samples, k)[..n - 1] == Without(samples[..n], k);
      assert Without(samples, k)[n - 1] == samples[n];
    }
  }

  lemma MultisetWithout(samples: seq<real>, k: nat)
    requires k < |samples|
    ensures multiset(Without(samples, k)) == multiset(samples) - multiset{samples[k]}
  {
    assert samples == samples[..k] + [samples[k]] + samples[k + 1..];
  }

  /** Counts do not depend on the order of the samples. */
  lemma {:induction false} CountsOfPermutation(a: seq<real>, b: seq<real>, v: real)
    requires multiset(a) == multiset(b)
    ensures CountAtMost(a, v) == CountAtMost(b, v) && CountBelow(a, v) == CountBelow(b, v)
    decreases |a|
  {
    if a == [] {
      assert |multiset(b)| == 0;
    } else {
      var n := |a| - 1;
      assert a[n] in multiset(b);
      var k :| 0 <= k < |b| && b[k] == a[n];
      MultisetWithout(a, n);
      MultisetWithout(b, k);
      CountsOfPermutation(Without(a, n), Without(b, k), v);
      CountWithout(a, n, v);
      CountWithout(b, k, v);
    }
  }

  lemma {:induction false} CountsOfSorted(sorted: seq<real>, k: nat, n: nat)
    requires k < |sorted| && n <= |sorted|
    requires forall i, j :: 0 <= i <= j < |sorted| ==> sorted[i] <= sorted[j]
    ensures CountBelow(sorted[..n], sorted[k]) <= k
    ensures CountBelow(sorted[..n], sorted[k]) <= n
    ensures CountAtMost(sorted[..n], sorted[k]) >= if n <= k then n else k + 1
  {
    if n > 0 {
      CountsOfSorted(sorted, k, n - 1);
      assert sorted[..n][..n - 1] == sorted[..n - 1];
    }
  }

  /** The exact quantile of a rank is the sample of that rank in sorted order. */
  lemma SortedSampleIsOrderStatistic(samples: seq<real>, sorted: seq<real>, needed: int)
    requires multiset(samples) == multiset(sorted) && 1 <= needed <= |sorted|
    requires forall i, j :: 0 <= i <= j < |sorted| ==> sorted[i] <= sorted[j]
    ensures OrderStatistic(samples, needed, sorted[needed - 1])
  {
    CountsOfPermutation(samples, sorted, sorted[needed - 1]);
    assert sorted[..|sorted|] == sorted;
    CountsOfSorted(sorted, needed - 1, |sorted|);
  }
}

/** The 95th-percentile estimate taken from a histogram's cumulative buckets. */
module Histogram {

  datatype Bucket = Bucket(upper: real, cumulative: nat)

  /** Total counts every sample, also those above the last bucket. */
  datatype Hist = Hist(total: nat, buckets: seq<Bucket>)

  const QUANTILE: real := 0.95

  function Target(h: Hist): real {
    QUANTILE * h.total as real
  }

  /** The bound and the count below bucket i. */
  function Lower(h: Hist, i: nat): real
    requires i <= |h.buckets|
  {
    if i == 0 then 0.0 else h.buckets[i - 1].upper
  }

  function Below(h: Hist, i: nat): nat
    requires i <= |h.buckets|
  {
    if i == 0 then 0 else h.buckets[i - 1].cumulative
  }

  /** The first bucket, from i on, that reaches the target; the number of buckets when none does. */
  function Reaching(h: Hist, i: nat): (j: nat)
    requires i <= |h.buckets|
    ensures i <= j <= |h.buckets|
    ensures forall k :: i <= k < j ==> (h.buckets[k].cumulative as real) < Target(h)
    ensures j < |h.buckets| ==> h.buckets[j].cumulative as real >= Target(h)
    decreases |h.buckets| - i
  {
    if i == |h.buckets| || h.buckets[i].cumulative as real >= Target(h) then i else Reaching(h, i + 1)
  }

  /** The point as far from low to high as the target is from count l to count u. */
  function Interpolate(low: real, high: real, l: real, u: real, target: real): real
    requires l != u
  {
    low + (high - low) * (target - l) / (u - l)
  }

  /** Weighed out over the counts: u - l times the point is low for all of them and the rise for those up to the target. */
  lemma InterpolateMeans(low: real, high: real, l: real, u: real, target: real)
    requires l != u
    ensures Interpolate(low, high, l, u, target) * (u - l) == low * (u - l) + (high - low) * (target - l)
  {
    var rise := (high - low) * (target - l);
    assert rise / (u - l) * (u - l) == rise;
  }

  lemma Thousand(x: real, d: real, y: real)
    requires x * d == y
    ensures x * 1000.0 * d == 1000.0 * y
  {}

  /** Bucket j is the first whose count is at least 95 in 100 of the total. */
  ghost predicate FirstReaching(h: Hist, j: int) {
    && 0 <= j < |h.buckets| && 100 * h.buckets[j].cumulative >= 95 * h.total
    && forall i :: 0 <= i < j ==> 100 * h.buckets[i].cumulative < 95 * h.total
  }

  /** Where the target lies in bucket j. */
  function Interpolated(h: Hist, j: nat): real
    requires j < |h.buckets| && h.buckets[j].cumulative != Below(h, j)
  {
    Interpolate(Lower(h, j), h.buckets[j].upper, Below(h, j) as real, h.buckets[j].cumulative as real, Target(h))
  }

  /** The bucket count rises at the bucket that first reaches a positive target. */
  lemma Rises(h: Hist)
    requires h.total > 0 && Reaching(h, 0) < |h.buckets|
    ensures (Below(h, Reaching(h, 0)) as real) < Target(h) <= h.buckets[Reaching(h, 0)].cumulative as real
  {}

  /** The estimate in seconds: 0 without samples, the last bound when the target lies above every bucket. */
  function Estimate(h: Hist): real {
    if h.total == 0 then 0.0
    else
      var j := Reaching(h, 0);
      if j < |h.buckets| then Rises(h); Interpolated(h, j) else Lower(h, j)
  }

  /**
   * The milliseconds ms lie in bucket j as far from its lower to its upper bound as 95% of the total lies
   * from the count below the bucket to its own: multiplied out, so nothing is divided.
   */
  ghost predicate Proportional(h: Hist, j: int, ms: real)
    requires 0 <= j < |h.buckets|
  {
    var l, u := if j == 0 then 0 else h.buckets[j - 1].cumulative, h.buckets[j].cumulative;
    var low, high := if j == 0 then 0.0 else h.buckets[j - 1].upper, h.buckets[j].upper;
    && l < u
    && ms * (u - l) as real == 1000.0 * (low * (u - l) as real + (high - low) * (0.95 * h.total as real - l as real))
  }

  lemma EstimateProportional(h: Hist, j: int)
    requires h.total > 0 && FirstReaching(h, j)
    ensures Proportional(h, j, Estimate(h) * 1000.0)
  {
    hide Interpolate;
    assert Reaching(h, 0) == j;
    Rises(h);
    var l, u, low, high := Below(h, j) as real, h.buckets[j].cumulative as real, Lower(h, j), h.buckets[j].upper;
    InterpolateMeans(low, high, l, u, Target(h));
    Thousand(Interpolated(h, j), u - l, low * (u - l) + (high - low) * (Target(h) - l));
  }

  /** The estimate in milliseconds. The branch for an empty bucket is never taken. */
  method HistogramP95(h: Hist) returns (ms: real)
    ensures ms == Estimate(h) * 1000.0
    ensures h.total == 0 ==> ms == 0.0
    ensures forall j :: h.total > 0 && FirstReaching(h, j) ==> Proportional(h, j, ms)
    ensures h.total > 0 && (forall i :: 0 <= i < |h.buckets| ==> 100 * h.buckets[i].cumulative < 95 * h.total) ==>
      ms == if h.buckets == [] then 0.0 else 1000.0 * h.buckets[|h.buckets| - 1].upper
  {
    if h.total == 0 {
      return 0.0;
    }
    var target := QUANTILE * h.total as real;
    var prevBound, prevCount := 0.0, 0;
    for i := 0 to |h.buckets|
      invariant prevBound == Lower(h, i) && prevCount == Below(h, i)
      invariant Reaching(h, 0) == Reaching(h, i)
      invariant (prevCount as real) < target
      invariant forall k :: 0 <= k < i ==> 100 * h.buckets[k].cumulative < 95 * h.total
    {
      var b := h.buckets[i];
      if b.cumulative as real >= target {
        var lowerCount, upperCount := prevCount as real, b.cumulative as real;
        if upperCount == lowerCount {
          assert false;
        }
        hide Interpolate, Proportional;
        var p95 := Interpolate(prevBound, b.upper, lowerCount, upperCount, target);
        EstimateProportional(h, i);
        return p95 * 1000.0;
      }
      prevBound, prevCount := b.upper, b.cumulative;
    }
    return prevBound * 1000.0;
  }

  // ---- Soundness against the samples

  function AtMost(samples: seq<real>, x: real): nat {
    if samples == [] then 0
    else AtMost(samples[..|samples| - 1], x) + if samples[|samples| - 1] <= x then 1 else 0
  }

  function Less(samples: seq<real>, x: real): nat {
    if samples == [] then 0
    else Less(samples[..|samples| - 1], x) + if samples[|samples| - 1] < x then 1 else 0
  }

  /** x is the r-th smallest sample, counting from 1. */
  ghost predicate HasRank(samples: seq<real>, r: nat, x: real) {
    x in samples && Less(samples, x) < r <= AtMost(samples, x)
  }

  /** The buckets count these samples. */
  ghost predicate Counts(h: Hist, samples: seq<real>) {
    && h.total == |samples|
    && (forall i :: 0 <= i < |samples| ==> samples[i] >= 0.0)
    && (forall i :: 0 <= i < |h.buckets| ==> h.buckets[i].cumulative == AtMost(samples, h.buckets[i].upper))
  }

  /** Bounds start above zero and increase. */
  ghost predicate Ascending(buckets: seq<Bucket>) {
    && (buckets != [] ==> buckets[0].upper > 0.0)
    && (forall i, j :: 0 <= i < j < |buckets| ==> buckets[i].upper < buckets[j].upper)
  }

  lemma {:induction false} LessBelowAtMost(samples: seq<real>, x: real, bound: real)
    requires bound < x
    ensures AtMost(samples, bound) <= Less(samples, x)
  {
    if samples != [] {
      LessBelowAtMost(samples[..|samples| - 1], x, bound);
    }
  }

  lemma {:induction false} AtMostGrows(samples: seq<real>, x: real, y: real)
    requires x <= y
    ensures AtMost(samples, x) <= AtMost(samples, y)
  {
    if samples != [] {
      AtMostGrows(samples[..|samples| - 1], x, y);
    }
  }

  /** The rank of the 95th percentile: the least whole number not below the target. */
  ghost predicate IsP95Rank(h: Hist, r: nat) {
    95 * h.total <= 100 * r < 95 * h.total + 100
  }

  lemma {:induction false} AtMostAll(samples: seq<real>, x: real)
    requires forall i :: 0 <= i < |samples| ==> samples[i] <= x
    ensures AtMost(samples, x) == |samples|
  {
    if samples != [] {
      AtMostAll(samples[..|samples| - 1], x);
    }
  }

  lemma {:induction false} LessIsAtMost(samples: seq<real>, x: real, y: real)
    requires forall i :: 0 <= i < |samples| ==> (samples[i] < x <==> samples[i] <= y)
    ensures Less(samples, x) == AtMost(samples, y)
  {
    if samples != [] {
      LessIsAtMost(samples[..|samples| - 1], x, y);
    }
  }

  lemma {:induction false} LessThanAtMost(samples: seq<real>, y: real)
    ensures Less(samples, y) <= AtMost(samples, y)
    ensures y in samples ==> Less(samples, y) < AtMost(samples, y)
  {
    if samples != [] {
      LessThanAtMost(samples[..|samples| - 1], y);
      assert samples == samples[..|samples| - 1] + [samples[|samples| - 1]];
    }
  }

  lemma {:induction false} LessNone(samples: seq<real>, x: real)
    requires forall i :: 0 <= i < |samples| ==> samples[i] >= x
    ensures Less(samples, x) == 0
  {
    if samples != [] {
      LessNone(samples[..|samples| - 1], x);
    }
  }

  /** The largest sample below x: as many samples reach up to it as lie below x. */
  lemma Largest(samples: seq<real>, x: real) returns (y: real)
    requires Less(samples, x) > 0
    ensures y in samples && y < x
    ensures AtMost(samples, y) == Less(samples, x)
  {
    if forall i :: 0 <= i < |samples| ==> samples[i] >= x {
      LessNone(samples, x);
    }
    var k :| 0 <= k < |samples| && samples[k] < x;
    y := samples[k];
    for i := 0 to |samples|
      invariant y in samples && y < x
      invariant forall j :: 0 <= j < i && samples[j] < x ==> samples[j] <= y
    {
      if y < samples[i] < x {
        y := samples[i];
      }
    }
    LessIsAtMost(samples, x, y);
  }

  lemma Maximum(samples: seq<real>) returns (x: real)
    requires samples != []
    ensures x in samples && forall i :: 0 <= i < |samples| ==> samples[i] <= x
  {
    x := samples[0];
    for i := 0 to |samples|
      invariant x in samples && forall j :: 0 <= j < i ==> samples[j] <= x
    {
      if x < samples[i] {
        x := samples[i];
      }
    }
  }

  /** A non-empty list of samples has a 95th percentile to compare with. */
  lemma PercentileExists(h: Hist, samples: seq<real>) returns (r: nat, x: real)
    requires Counts(h, samples) && h.total > 0
    ensures IsP95Rank(h, r) && HasRank(samples, r, x)
  {
    var t := Target(h);
    r := if t == t.Floor as real then t.Floor else t.Floor + 1;
    x := Maximum(samples);
    AtMostAll(samples, x);
    while Less(samples, x) >= r
      invariant x in samples && r <= AtMost(samples, x)
      decreases Less(samples, x)
    {
      var y := Largest(samples, x);
      LessThanAtMost(samples, y);
      x := y;
    }
  }

  /** A fraction of the way from low to high. */
  lemma Between(low: real, high: real, l: real, u: real, target: real)
    requires low < high && l < target <= u
    ensures low < Interpolate(low, high, l, u, target) <= high
  {
    var f := (target - l) / (u - l);
    assert f * (u - l) == target - l;
    FractionBounds(f, u - l, target - l);
    assert (high - low) * (target - l) / (u - l) == (high - low) * f;
    assert (high - low) * f > 0.0;
    assert (high - low) * (1.0 - f) >= 0.0;
  }

  lemma FractionBounds(f: real, d: real, n: real)
    requires d > 0.0 && f * d == n && 0.0 < n <= d
    ensures 0.0 < f <= 1.0
  {
    assert f <= 0.0 ==> f * d <= 0.0;
    assert f > 1.0 ==> (f - 1.0) * d > 0.0;
  }

  /** The estimate and the true 95th-percentile sample lie in the same bucket, which is not empty. */
  lemma EstimateSound(h: Hist, samples: seq<real>, r: nat, x: real)
    requires Counts(h, samples) && Ascending(h.buckets) && h.total > 0
    requires IsP95Rank(h, r) && HasRank(samples, r, x)
    requires Reaching(h, 0) < |h.buckets|
    ensures var j := Reaching(h, 0);
      && Below(h, j) < h.buckets[j].cumulative
      && Lower(h, j) < Estimate(h) <= h.buckets[j].upper
      && Lower(h, j) <= x <= h.buckets[j].upper && (j > 0 ==> Lower(h, j) < x)
  {
    hide Interpolate;
    var j := Reaching(h, 0);
    var upper := h.buckets[j].upper;
    Rises(h);
    Between(Lower(h, j), upper, Below(h, j) as real, h.buckets[j].cumulative as real, Target(h));
    assert h.buckets[j].cumulative >= r;
    if x > upper {
      LessBelowAtMost(samples, x, upper);
      assert false;
    }
    if j > 0 && x <= Lower(h, j) {
      AtMostGrows(samples, x, Lower(h, j));
      assert false;
    }
  }

  /** Above every bucket the fallback is the last bound, and the true sample is greater. */
  lemma FallbackSound(h: Hist, samples: seq<real>, r: nat, x: real)
    requires Counts(h, samples) && h.total > 0 && h.buckets != []
    requires IsP95Rank(h, r) && HasRank(samples, r, x)
    requires Reaching(h, 0) == |h.buckets|
    ensures Estimate(h) == h.buckets[|h.buckets| - 1].upper < x
  {
    var last := h.buckets[|h.buckets| - 1];
    assert (last.cumulative as real) < Target(h);
    if x <= last.upper {
      AtMostGrows(samples, x, last.upper);
      assert false;
    }
  }

  // ---- Monotonicity

  ghost predicate WellFormed(h: Hist) {
    && Ascending(h.buckets)
    && (forall i, j :: 0 <= i < j < |h.buckets| ==> h.buckets[i].cumulative <= h.buckets[j].cumulative)
  }

  /** The same bounds and total, with counts nowhere greater: latencies have moved up. */
  ghost predicate Slower(h: Hist, g: Hist) {
    && h.total == g.total && |h.buckets| == |g.buckets|
    && (forall i :: 0 <= i < |h.buckets| ==>
          g.buckets[i].upper == h.buckets[i].upper && g.buckets[i].cumulative <= h.buckets[i].cumulative)
  }

  /** A lower start and a lower end of the count put the target further along. */
  lemma FurtherAlong(l: real, u: real, l': real, u': real, target: real)
    requires l < target <= u && l' < target <= u' && l' <= l && u' <= u
    ensures (target - l) / (u - l) <= (target - l') / (u' - l')
  {
    var a, b, c, d := target - l, u - l, target - l', u' - l';
    // cross-multiplied: a * d <= c * b
    var rest, rest' := u - target, u' - target;
    assert b == a + rest && d == c + rest' && a <= c && rest' <= rest;
    assert (c - a) * rest' >= 0.0;
    assert c * (rest - rest') >= 0.0;
    assert a * d == a * c + a * rest' && c * b == c * a + c * rest;
    CrossDivide(a, b, c, d);
  }

  lemma CrossDivide(a: real, b: real, c: real, d: real)
    requires b > 0.0 && d > 0.0 && a * d <= c * b
    ensures a / b <= c / d
  {
    var x, y := a / b, c / d;
    assert x * b == a && y * d == c;
    assert x * b * d <= y * d * b;
    assert x > y ==> (x - y) * (b * d) > 0.0;
  }

  lemma SameBucket(h: Hist, g: Hist, j: nat)
    requires WellFormed(h) && WellFormed(g) && Slower(h, g) && h.total > 0
    requires Reaching(h, 0) == j == Reaching(g, 0) && j < |h.buckets|
    ensures Estimate(h) <= Estimate(g)
  {
    hide Interpolate;
    Rises(h);
    Rises(g);
    var l, u := Below(h, j) as real, h.buckets[j].cumulative as real;
    var l', u' := Below(g, j) as real, g.buckets[j].cumulative as real;
    ScaledUp(Lower(h, j), h.buckets[j].upper, l, u, l', u', Target(h));
  }

  lemma ScaledUp(low: real, high: real, l: real, u: real, l': real, u': real, target: real)
    requires low <= high && l < target <= u && l' < target <= u' && l' <= l && u' <= u
    ensures Interpolate(low, high, l, u, target) <= Interpolate(low, high, l', u', target)
  {
    FurtherAlong(l, u, l', u', target);
    var w, x, y := high - low, (target - l) / (u - l), (target - l') / (u' - l');
    assert w * (target - l) / (u - l) == w * x && w * (target - l') / (u' - l') == w * y;
    assert w * (y - x) >= 0.0;
  }

  lemma EstimateInBucket(h: Hist)
    requires WellFormed(h) && h.total > 0 && Reaching(h, 0) < |h.buckets|
    ensures Lower(h, Reaching(h, 0)) < Estimate(h) <= h.buckets[Reaching(h, 0)].upper
  {
    hide Interpolate;
    var j := Reaching(h, 0);
    Rises(h);
    Between(Lower(h, j), h.buckets[j].upper, Below(h, j) as real, h.buckets[j].cumulative as real, Target(h));
  }

  /** When latencies move up the estimate never goes down. */
  lemma EstimateMonotone(h: Hist, g: Hist)
    requires WellFormed(h) && WellFormed(g) && Slower(h, g)
    ensures Estimate(h) <= Estimate(g)
  {
    if h.total > 0 {
      var i, j := Reaching(h, 0), Reaching(g, 0);
      if i < |h.buckets| {
        EstimateInBucket(h);
      }
      if j < |g.buckets| {
        assert h.buckets[j].cumulative as real >= Target(h);
        EstimateInBucket(g);
      }
      if i == j && i < |h.buckets| {
        SameBucket(h, g, i);
      }
    }
  }

  /** The histogram of a list of samples. */
  function Observed(bounds: seq<real>, samples: seq<real>): Hist {
    Hist(|samples|, seq(|bounds|, i requires 0 <= i < |bounds| => Bucket(bounds[i], AtMost(samples, bounds[i]))))
  }

  lemma {:induction false} AtMostShrinks(samples: seq<real>, slower: seq<real>, x: real)
    requires |samples| == |slower|
    requires forall i :: 0 <= i < |samples| ==> samples[i] <= slower[i]
    ensures AtMost(slower, x) <= AtMost(samples, x)
  {
    if samples != [] {
      var n := |samples| - 1;
      AtMostShrinks(samples[..n], slower[..n], x);
    }
  }

  /** In terms of the samples: if every request takes at least as long, so does the estimate. */
  lemma SlowerSamples(bounds: seq<real>, samples: seq<real>, slower: seq<real>)
    requires bounds != [] ==> bounds[0] > 0.0
    requires forall i, j :: 0 <= i < j < |bounds| ==> bounds[i] < bounds[j]
    requires |samples| == |slower|
    requires forall i :: 0 <= i < |samples| ==> samples[i] <= slower[i]
    ensures Estimate(Observed(bounds, samples)) <= Estimate(Observed(bounds, slower))
  {
    forall i, j | 0 <= i < j < |bounds|
      ensures AtMost(samples, bounds[i]) <= AtMost(samples, bounds[j])
      ensures AtMost(slower, bounds[i]) <= AtMost(slower, bounds[j])
    {
      AtMostGrows(samples, bounds[i], bounds[j]);
      AtMostGrows(slower, bounds[i], bounds[j]);
    }
    forall i | 0 <= i < |bounds| ensures AtMost(slower, bounds[i]) <= AtMost(samples, bounds[i]) {
      AtMostShrinks(samples, slower, bounds[i]);
    }
    EstimateMonotone(Observed(bounds, samples), Observed(bounds, slower));
  }
}

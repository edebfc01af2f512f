/**
 `extractHistogramPercentiles` (frontend/src/lib/utils/prometheus-parser.ts): linear
 interpolation in the cumulative buckets of a histogram.  The bounds are finite, and
 the buckets come filtered and sorted by their bound.
 */
module Percentiles {
  import opened Prelude

  /** An upper bound and the number of observations at or below it. */
  datatype Bucket = Bucket(le: real, count: real)

  predicate Cumulative(buckets: seq<Bucket>) {
    && (forall i | 0 <= i < |buckets| :: buckets[i].le >= 0.0 && buckets[i].count >= 0.0)
    && (forall i, j | 0 <= i < j < |buckets| ::
          buckets[i].le <= buckets[j].le && buckets[i].count <= buckets[j].count)
  }

  /** The bucket before the i-th: where the code starts from, (0, 0), for the first. */
  function Before(buckets: seq<Bucket>, i: nat): Bucket
    requires i <= |buckets|
  {
    if i == 0 then Bucket(0.0, 0.0) else buckets[i - 1]
  }

  /** The first bucket that holds `target` observations. */
  function Covering(buckets: seq<Bucket>, target: real, i: nat): (k: nat)
    requires i <= |buckets|
    ensures i <= k <= |buckets|
    ensures forall j | i <= j < k :: buckets[j].count < target
    ensures k < |buckets| ==> buckets[k].count >= target
    decreases |buckets| - i
  {
    if i == |buckets| || buckets[i].count >= target then i else Covering(buckets, target, i + 1)
  }

  function Interpolated(before: Bucket, b: Bucket, target: real): real {
    if b.count - before.count > 0.0
    then before.le + (target - before.count) / (b.count - before.count) * (b.le - before.le)
    else b.le
  }

  /** The entry of one percentile; `None` where the result gets none. */
  function EntryOf(buckets: seq<Bucket>, total: real, percentile: real): Option<real> {
    if total == 0.0 || buckets == [] then Some(0.0) else ValueAt(buckets, total * percentile)
  }

  method ExtractPercentile(buckets: seq<Bucket>, total: real, percentile: real) returns (value: Option<real>)
    ensures value == EntryOf(buckets, total, percentile)
  {
    if total == 0.0 || buckets == [] {
      return Some(0.0);
    }
    var target := total * percentile;
    var previous := Bucket(0.0, 0.0);
    value := None;
    for i := 0 to |buckets|
      invariant previous == Before(buckets, i)
      invariant value == None && Covering(buckets, target, 0) == Covering(buckets, target, i)
    {
      var b := buckets[i];
      if b.count >= target {
        assert Covering(buckets, target, i) == i;
        assert EntryOf(buckets, total, percentile) == Some(Interpolated(previous, b, target));
        var bucketCount := b.count - previous.count;
        var bucketRange := b.le - previous.le;
        var countInBucket := target - previous.count;
        if bucketCount > 0.0 {
          var fraction := countInBucket / bucketCount;
          value := Some(previous.le + fraction * bucketRange);
          AsInterpolated(previous, b, target, bucketCount, bucketRange, countInBucket, fraction);
          return;
        } else {
          return Some(b.le);
        }
      }
      previous := b;
    }
  }

  lemma AsInterpolated(
    before: Bucket, b: Bucket, target: real, count: real, range: real, part: real, fraction: real)
    requires count == b.count - before.count && range == b.le - before.le && part == target - before.count
    requires count > 0.0 && fraction == part / count
    ensures before.le + fraction * range == Interpolated(before, b, target)
  {
    assert fraction == (target - before.count) / (b.count - before.count);
  }

  /** The whole record: one entry per percentile that has a value. */
  method ExtractPercentiles(buckets: seq<Bucket>, total: real, percentiles: seq<real>)
    returns (result: map<real, real>)
    ensures forall p | p in result :: p in percentiles
    ensures forall i | 0 <= i < |percentiles| ::
              HasEntry(result, percentiles[i], EntryOf(buckets, total, percentiles[i]))
  {
    hide EntryOf;
    result := map[];
    for n := 0 to |percentiles|
      invariant forall p | p in result :: p in percentiles
      invariant forall i | 0 <= i < n :: HasEntry(result, percentiles[i], EntryOf(buckets, total, percentiles[i]))
      invariant forall p | p in result :: HasEntry(result, p, EntryOf(buckets, total, p))
    {
      var value := ExtractPercentile(buckets, total, percentiles[n]);
      if value.Some? {
        result := result[percentiles[n] := value.value];
      }
    }
  }

  predicate HasEntry(result: map<real, real>, percentile: real, value: Option<real>) {
    if value.Some? then percentile in result && result[percentile] == value.value else percentile !in result
  }

  function ValueAt(buckets: seq<Bucket>, target: real): Option<real> {
    var k := Covering(buckets, target, 0);
    if k == |buckets| then None else Some(Interpolated(Before(buckets, k), buckets[k], target))
  }

  // ---- Properties ----------------------------------------------------------

  lemma Scaled(a: real, b: real, r: real)
    requires a <= b && r >= 0.0
    ensures a * r <= b * r
  {
  }

  lemma Quotient(part: real, whole: real)
    requires whole > 0.0 && 0.0 <= part <= whole
    ensures 0.0 <= part / whole <= 1.0 && part / whole * whole == part
  {
  }

  lemma Reassociate(f: real, range: real, whole: real)
    ensures f * range * whole == (f * whole) * range
  {
  }

  lemma FractionOf(part: real, whole: real, range: real)
    requires whole > 0.0 && 0.0 <= part <= whole && range >= 0.0
    ensures 0.0 <= part / whole * range <= range
    ensures part / whole * range * whole == part * range
  {
    var f := part / whole;
    Quotient(part, whole);
    Scaled(0.0, f, range);
    Scaled(f, 1.0, range);
    Reassociate(f, range, whole);
  }

  /** A value exists exactly when the last bucket holds the target. */
  lemma CoveredIff(buckets: seq<Bucket>, target: real)
    requires Cumulative(buckets) && buckets != []
    ensures ValueAt(buckets, target).Some? <==> target <= buckets[|buckets| - 1].count
  {
    var k := Covering(buckets, target, 0);
    if k < |buckets| - 1 {
      assert buckets[k].count <= buckets[|buckets| - 1].count;
    }
  }

  /** Where interpolation puts a target between two corners. */
  lemma BetweenCorners(before: Bucket, b: Bucket, target: real)
    requires before.le <= b.le && before.count <= target <= b.count && (before.count < b.count || target == b.count)
    ensures var x := Interpolated(before, b, target);
            && before.le <= x <= b.le
            && (x - before.le) * (b.count - before.count) == (target - before.count) * (b.le - before.le)
  {
    if before.count < b.count {
      FractionOf(target - before.count, b.count - before.count, b.le - before.le);
    }
  }

  lemma Corners(buckets: seq<Bucket>, target: real)
    requires Cumulative(buckets) && 0.0 <= target && Covering(buckets, target, 0) < |buckets|
    ensures var k := Covering(buckets, target, 0);
            var before, b := Before(buckets, k), buckets[k];
            && before.le <= b.le && before.count <= target <= b.count
            && (before.count < b.count || target == b.count) && (k > 0 ==> before.count < target)
  {
  }

  /** The value lies in the bucket that covers it, on the line between the bucket's two corners. */
  lemma OnItsSegment(buckets: seq<Bucket>, target: real)
    requires Cumulative(buckets) && 0.0 <= target && ValueAt(buckets, target).Some?
    ensures var k := Covering(buckets, target, 0);
            var before, b, x := Before(buckets, k), buckets[k], ValueAt(buckets, target).value;
            && before.le <= x <= b.le && before.count <= target <= b.count
            && (x - before.le) * (b.count - before.count) == (target - before.count) * (b.le - before.le)
  {
    hide Cumulative, Interpolated;
    var k := Covering(buckets, target, 0);
    Corners(buckets, target);
    BetweenCorners(Before(buckets, k), buckets[k], target);
  }

  // ---- The cumulative curve ------------------------------------------------

  /** The segment a value falls in: the first bound above it. */
  function Segment(buckets: seq<Bucket>, y: real, i: nat): (j: nat)
    requires i <= |buckets|
    ensures i <= j <= |buckets|
    ensures forall n | i <= n < j :: buckets[n].le <= y
    ensures j < |buckets| ==> y < buckets[j].le
    decreases |buckets| - i
  {
    if i == |buckets| || y < buckets[i].le then i else Segment(buckets, y, i + 1)
  }

  /** The line from one corner to the next, at `y`. */
  function Along(before: Bucket, b: Bucket, y: real): real
    requires before.le < b.le
  {
    before.count + (y - before.le) / (b.le - before.le) * (b.count - before.count)
  }

  /** The piecewise-linear cumulative curve through (0, 0) and the buckets' corners, at `y`;
      where a bound repeats it jumps, to the value of the last such bucket. */
  function Curve(buckets: seq<Bucket>, y: real): real
    requires y >= 0.0
  {
    var j := Segment(buckets, y, 0);
    var before := Before(buckets, j);
    if j == |buckets| then before.count
    else Along(before, buckets[j], y)
  }

  lemma CurveBetween(buckets: seq<Bucket>, y: real)
    requires Cumulative(buckets) && y >= 0.0
    ensures var j := Segment(buckets, y, 0);
            && Before(buckets, j).le <= y && Before(buckets, j).count <= Curve(buckets, y)
            && (j < |buckets| ==> Curve(buckets, y) <= buckets[j].count)
  {
    hide Along;
    var j := Segment(buckets, y, 0);
    LeftOf(buckets, y, j);
    if j < |buckets| {
      AlongBetween(Before(buckets, j), buckets[j], y);
    }
  }

  lemma AlongBetween(before: Bucket, b: Bucket, y: real)
    requires before.le <= y <= b.le && before.le < b.le && before.count <= b.count
    ensures before.count <= Along(before, b, y) <= b.count
    ensures y == before.le ==> Along(before, b, y) == before.count
  {
    FractionOf(y - before.le, b.le - before.le, b.count - before.count);
  }

  lemma LeftOf(buckets: seq<Bucket>, y: real, j: nat)
    requires Cumulative(buckets) && y >= 0.0 && j == Segment(buckets, y, 0)
    ensures Before(buckets, j).le <= y
    ensures j < |buckets| ==> Before(buckets, j).count <= buckets[j].count
  {
  }

  lemma Ordered(buckets: seq<Bucket>, i: nat, j: nat)
    requires Cumulative(buckets) && i < j <= |buckets|
    ensures buckets[i].le <= Before(buckets, j).le && buckets[i].count <= Before(buckets, j).count
  {
  }

  /** The percentile is the quantile of the curve: the least value at which the curve reaches the target. */
  lemma PercentileIsQuantile(buckets: seq<Bucket>, target: real, y: real)
    requires Cumulative(buckets) && 0.0 < target && ValueAt(buckets, target).Some? && y >= 0.0
    ensures ValueAt(buckets, target).value <= y <==> target <= Curve(buckets, y)
  {
    hide Cumulative, Interpolated, Curve;
    var k, j := Covering(buckets, target, 0), Segment(buckets, y, 0);
    OnItsSegment(buckets, target);
    Corners(buckets, target);
    CurveBetween(buckets, y);
    if k < j {
      Ordered(buckets, k, j);
    } else if j < k {
      Ordered(buckets, j, k);
    } else {
      SameSegment(buckets, target, y);
    }
  }

  /** The least value at which the curve reaches the target. */
  ghost predicate IsQuantile(buckets: seq<Bucket>, target: real, x: real) {
    && x >= 0.0 && target <= Curve(buckets, x)
    && forall y: real | y >= 0.0 && target <= Curve(buckets, y) :: x <= y
  }

  /** The entry of a percentile p: nothing exactly when the buckets hold fewer than total * p observations, and
      otherwise the least value at which the curve reaches total * p.  Without data, or for p = 0 with
      observations in the first bucket, it is 0. */
  lemma EntryIsQuantile(buckets: seq<Bucket>, total: real, percentile: real)
    requires Cumulative(buckets) && total >= 0.0 && percentile >= 0.0
    ensures var entry, target := EntryOf(buckets, total, percentile), total * percentile;
            if total == 0.0 || buckets == [] then entry == Some(0.0)
            else if percentile == 0.0
            then entry == Some(if buckets[0].count > 0.0 then 0.0 else buckets[0].le)
            else
              && (entry.Some? <==> target <= buckets[|buckets| - 1].count)
              && (entry.Some? ==> IsQuantile(buckets, target, entry.value))
  {
    hide Curve;
    var target := total * percentile;
    if total > 0.0 && buckets != [] {
      if percentile > 0.0 {
        hide Cumulative;
        Positive(total, percentile);
        CoveredIff(buckets, target);
        if EntryOf(buckets, total, percentile).Some? {
          ValueNonNegative(buckets, target);
          forall y: real | y >= 0.0 ensures ValueAt(buckets, target).value <= y <==> target <= Curve(buckets, y) {
            PercentileIsQuantile(buckets, target, y);
          }
        }
      } else {
        assert target == 0.0 && Covering(buckets, target, 0) == 0;
      }
    }
  }

  lemma ValueNonNegative(buckets: seq<Bucket>, target: real)
    requires Cumulative(buckets) && 0.0 <= target && ValueAt(buckets, target).Some?
    ensures ValueAt(buckets, target).value >= 0.0
  {
    hide Interpolated;
    OnItsSegment(buckets, target);
    CornerNonNegative(buckets, Covering(buckets, target, 0));
  }

  lemma SameSegment(buckets: seq<Bucket>, target: real, y: real)
    requires 0.0 < target && y >= 0.0 && Covering(buckets, target, 0) == Segment(buckets, y, 0) < |buckets|
    requires var k := Covering(buckets, target, 0);
             Before(buckets, k).le <= y && Before(buckets, k).count < target
    ensures ValueAt(buckets, target).Some?
    ensures ValueAt(buckets, target).value <= y <==> target <= Curve(buckets, y)
  {
    hide Along, Interpolated;
    var k := Covering(buckets, target, 0);
    Inverted(Before(buckets, k), buckets[k], target, y);
  }

  lemma Inverted(before: Bucket, b: Bucket, target: real, y: real)
    requires before.le < b.le && before.count < b.count
    ensures Interpolated(before, b, target) <= y <==> target <= Along(before, b, y)
  {
    Crossed(target - before.count, b.count - before.count, y - before.le, b.le - before.le);
  }

  /** t / h * w <= v if and only if t <= v / w * h */
  lemma Crossed(t: real, h: real, v: real, w: real)
    requires h > 0.0 && w > 0.0
    ensures t / h * w <= v <==> t <= v / w * h
  {
    var a, d := t / h, v / w;
    assert a * h == t && d * w == v;
    if a <= d {
      Scaled(a, d, w);
      Scaled(a, d, h);
    } else {
      Positive(a - d, w);
      Positive(a - d, h);
    }
  }

  lemma Positive(a: real, b: real)
    requires a > 0.0 && b > 0.0
    ensures a * b > 0.0
  {
  }

  predicate StrictBounds(buckets: seq<Bucket>) {
    forall i | 0 <= i < |buckets| :: Before(buckets, i).le < buckets[i].le
  }

  /** Where no bound repeats, the curve at the percentile is the target again. */
  lemma InverseOfCurve(buckets: seq<Bucket>, target: real)
    requires Cumulative(buckets) && StrictBounds(buckets) && 0.0 <= target && ValueAt(buckets, target).Some?
    ensures ValueAt(buckets, target).value >= 0.0
    ensures Curve(buckets, ValueAt(buckets, target).value) == target
  {
    hide Cumulative, Interpolated, StrictBounds, Along;
    var k, x := Covering(buckets, target, 0), ValueAt(buckets, target).value;
    var before, b := Before(buckets, k), buckets[k];
    OnItsSegment(buckets, target);
    Corners(buckets, target);
    StrictAt(buckets, k);
    CornerNonNegative(buckets, k);
    SegmentIs(buckets, x, k);
    OnLine(before, b, target, x);
    if x == b.le && k + 1 < |buckets| {
      NextCount(buckets, k + 1);
      AlongBetween(b, buckets[k + 1], x);
    }
  }

  lemma NextCount(buckets: seq<Bucket>, k: nat)
    requires Cumulative(buckets) && k < |buckets|
    ensures Before(buckets, k).count <= buckets[k].count
  {
  }

  lemma CornerNonNegative(buckets: seq<Bucket>, k: nat)
    requires Cumulative(buckets) && k <= |buckets|
    ensures Before(buckets, k).le >= 0.0
  {
  }

  lemma StrictAt(buckets: seq<Bucket>, k: nat)
    requires StrictBounds(buckets) && k < |buckets|
    ensures Before(buckets, k).le < buckets[k].le
    ensures k + 1 < |buckets| ==> buckets[k].le < buckets[k + 1].le
  {
    if k + 1 < |buckets| {
      assert Before(buckets, k + 1) == buckets[k];
    }
  }

  lemma SegmentIs(buckets: seq<Bucket>, x: real, k: nat)
    requires Cumulative(buckets) && StrictBounds(buckets) && k < |buckets|
    requires Before(buckets, k).le <= x <= buckets[k].le
    ensures Segment(buckets, x, 0) == if x < buckets[k].le then k else k + 1
  {
    var j := Segment(buckets, x, 0);
    StrictAt(buckets, k);
    if j < k {
      Ordered(buckets, j, k);
    }
  }

  lemma OnLine(before: Bucket, b: Bucket, target: real, x: real)
    requires before.le < b.le && before.count <= b.count && before.le <= x <= b.le
    requires (x - before.le) * (b.count - before.count) == (target - before.count) * (b.le - before.le)
    ensures Along(before, b, x) == target && (x == b.le ==> target == b.count)
  {
    var part, width, height := x - before.le, b.le - before.le, b.count - before.count;
    FractionOf(part, width, height);
    SameFactor(part / width * height, target - before.count, width);
    if x == b.le {
      assert part * height == height * width;
      SameFactor(height, target - before.count, width);
    }
  }

  lemma SameFactor(a: real, b: real, w: real)
    requires w > 0.0 && a * w == b * w
    ensures a == b
  {
    assert (a - b) * w == 0.0;
  }

  lemma {:induction false} CoveringMonotone(buckets: seq<Bucket>, p: real, q: real, i: nat)
    requires p <= q && i <= |buckets|
    ensures Covering(buckets, p, i) <= Covering(buckets, q, i)
    decreases |buckets| - i
  {
    if i < |buckets| && buckets[i].count < p {
      CoveringMonotone(buckets, p, q, i + 1);
    }
  }

  /** p <= q implies value(p) <= value(q), and every percentile below one with a value has a value. */
  lemma EntriesMonotone(buckets: seq<Bucket>, total: real, p: real, q: real)
    requires Cumulative(buckets) && total >= 0.0 && 0.0 <= p <= q && EntryOf(buckets, total, q).Some?
    ensures EntryOf(buckets, total, p).Some?
    ensures EntryOf(buckets, total, p).value <= EntryOf(buckets, total, q).value
  {
    hide ValueAt, Cumulative;
    Scaled(0.0, p, total);
    Scaled(p, q, total);
    if total > 0.0 && buckets != [] {
      Monotone(buckets, total * p, total * q);
    }
  }

  /** A higher target never has a lower value. */
  lemma Monotone(buckets: seq<Bucket>, p: real, q: real)
    requires Cumulative(buckets) && 0.0 <= p <= q && ValueAt(buckets, q).Some?
    ensures ValueAt(buckets, p).Some? && ValueAt(buckets, p).value <= ValueAt(buckets, q).value
  {
    hide Interpolated;
    var i, j := Covering(buckets, p, 0), Covering(buckets, q, 0);
    CoveringMonotone(buckets, p, q, 0);
    OnItsSegment(buckets, p);
    OnItsSegment(buckets, q);
    Corners(buckets, p);
    Corners(buckets, q);
    if i == j {
      MonotoneInside(Before(buckets, i), buckets[i], p, q);
    }
  }

  lemma MonotoneInside(before: Bucket, b: Bucket, p: real, q: real)
    requires before.le <= b.le && p <= q
    ensures Interpolated(before, b, p) <= Interpolated(before, b, q)
  {
    var whole := b.count - before.count;
    if whole > 0.0 {
      QuotientMono(p - before.count, q - before.count, whole);
      Scaled((p - before.count) / whole, (q - before.count) / whole, b.le - before.le);
    }
  }

  lemma QuotientMono(a: real, b: real, w: real)
    requires a <= b && w > 0.0
    ensures a / w <= b / w
  {
  }
}

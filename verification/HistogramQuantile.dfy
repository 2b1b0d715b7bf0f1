// demo/scenarios/incident_analysis/data_sources.py: quantiles of a Prometheus histogram by linear
// interpolation over its cumulative buckets.

module HistogramQuantile {
  import opened Options

  datatype Sample = Sample(labels: seq<string>, value: real)
  datatype Point = Point(le: real, count: real)

  const ORIGIN := Point(0.0, 0.0)

  // float() of a label value; None where it raises.
  type FloatParser = string -> Option<real>

  predicate IsLe(text: string) { "le=" <= text }

  // The bound of a sample: of its first le label, unless that is absent, "+Inf" or no number.
  function Bound(float: FloatParser, labels: seq<string>): Option<real> {
    if labels == [] then None
    else if IsLe(labels[0]) then if labels[0][3..] == "+Inf" then None else float(labels[0][3..])
    else Bound(float, labels[1..])
  }

  function Buckets(float: FloatParser, samples: seq<Sample>): map<real, real> {
    if samples == [] then map[]
    else
      var before, last := Buckets(float, samples[..|samples| - 1]), samples[|samples| - 1];
      var le := Bound(float, last.labels);
      if le.Some? then before[le.value := last.value] else before
  }

  // A bound comes from the first label that begins with "le=", and from nothing else.
  ghost predicate NoBoundIn(labels: seq<string>) {
    forall j, text | 0 <= j < |labels| :: labels[j] != "le=" + text
  }

  lemma IsLeMeans(name: string)
    ensures IsLe(name) <==> exists text :: name == "le=" + text
  {
    if IsLe(name) {
      assert name == "le=" + name[3..];
    }
  }

  lemma {:induction false} FirstLabelDecides(float: FloatParser, before: seq<string>, text: string, after: seq<string>)
    requires NoBoundIn(before)
    ensures Bound(float, before + ["le=" + text] + after) == if text == "+Inf" then None else float(text)
    ensures Bound(float, before) == None
  {
    var labels := before + ["le=" + text] + after;
    if before == [] {
      assert ("le=" + text)[3..] == text && "le=" <= "le=" + text;
    } else {
      IsLeMeans(before[0]);
      assert NoBoundIn(before[1..]) by {
        forall j, t | 0 <= j < |before[1..]| ensures before[1..][j] != "le=" + t {
          assert before[1..][j] == before[j + 1];
        }
      }
      FirstLabelDecides(float, before[1..], text, after);
      assert labels[1..] == before[1..] + ["le=" + text] + after;
    }
  }

  ghost predicate Unbounded(float: FloatParser, samples: seq<Sample>, le: real) {
    forall s | s in samples :: Bound(float, s.labels) != Some(le)
  }

  // A bucket holds the value of the last sample with its bound, and a bound without a sample has no bucket.
  lemma {:induction false} LastSampleCounts(float: FloatParser, before: seq<Sample>, s: Sample, after: seq<Sample>,
      le: real)
    requires Bound(float, s.labels) == Some(le) && Unbounded(float, after, le)
    ensures le in Buckets(float, before + [s] + after) && Buckets(float, before + [s] + after)[le] == s.value
    ensures le !in Buckets(float, after)
    decreases |after|
  {
    var samples := before + [s] + after;
    if after == [] {
      assert samples[|samples| - 1] == s;
    } else {
      var n := |after| - 1;
      assert after[n] in after;
      LastSampleCounts(float, before, s, after[..n], le);
      assert samples[..|samples| - 1] == before + [s] + after[..n] && samples[|samples| - 1] == after[n];
    }
  }

  // ---- sorted(buckets) ----

  lemma Inhabited(s: set<real>)
    requires s != {}
    ensures exists e :: e in s
  {
    if forall e :: e !in s {
      assert false;
    }
  }

  lemma {:induction false} LeastOf(s: set<real>) returns (m: real)
    requires s != {}
    ensures m in s && forall x :: x in s ==> m <= x
    decreases |s|
  {
    Inhabited(s);
    m :| m in s;
    if s != {m} {
      var rest := s - {m};
      var least := LeastOf(rest);
      forall x | x in s
        ensures x == m || least <= x
      {
        if x != m {
          assert x in rest;
        }
      }
      if least < m {
        m := least;
      }
    }
  }

  lemma LeastExists(s: set<real>)
    requires s != {}
    ensures exists m :: m in s && forall x :: x in s ==> m <= x
  {
    var m := LeastOf(s);
  }

  function Least(s: set<real>): (m: real)
    requires s != {}
    ensures m in s && forall x :: x in s ==> m <= x
  {
    LeastExists(s);
    var m :| m in s && forall x :: x in s ==> m <= x;
    m
  }

  function Points(buckets: map<real, real>): (points: seq<Point>)
    ensures |points| == |buckets|
    ensures forall p :: p in points <==> p.le in buckets && p.count == buckets[p.le]
    ensures forall i, j :: 0 <= i < j < |points| ==> points[i].le < points[j].le
    decreases buckets.Keys
  {
    if buckets == map[] then []
    else
      var m := Least(buckets.Keys);
      var rest := buckets - {m};
      assert rest.Keys == buckets.Keys - {m};
      [Point(m, buckets[m])] + Points(rest)
  }

  // ---- The scan ----

  function Between(p: Point, q: Point, target: real): real
    requires p.count < q.count
  {
    p.le + (target - p.count) / (q.count - p.count) * (q.le - p.le)
  }

  function Scan(prev: Point, points: seq<Point>, target: real): real
    decreases |points|
  {
    if points == [] then prev.le
    else
      var q := points[0];
      if q.count < target then Scan(q, points[1..], target)
      else if q.count <= prev.count then q.le
      else Between(prev, q, target)
  }

  function Quantile(buckets: map<real, real>, total: real, pct: real): Option<real> {
    if total <= 0.0 || buckets == map[] then None
    else Some(Scan(ORIGIN, Points(buckets), total * pct))
  }

  method HistogramPercentile(float: FloatParser, samples: seq<Sample>, total: real, pct: real) returns (r: Option<real>)
    ensures r == Quantile(Buckets(float, samples), total, pct)
  {
    var buckets: map<real, real> := map[];
    for i := 0 to |samples|
      invariant buckets == Buckets(float, samples[..i])
    {
      assert samples[..i + 1][..i] == samples[..i];
      var le := FindBound(float, samples[i].labels);
      if le.Some? {
        buckets := buckets[le.value := samples[i].value];
      }
    }
    assert samples[..|samples|] == samples;
    if total <= 0.0 || buckets == map[] {
      return None;
    }
    var target := total * pct;
    var value := ScanPoints(Points(buckets), target);
    r := Some(value);
  }

  // The loop over the sorted bounds.
  method ScanPoints(points: seq<Point>, target: real) returns (value: real)
    ensures value == Scan(ORIGIN, points, target)
  {
    var prev := ORIGIN;
    for i := 0 to |points|
      invariant Scan(prev, points[i..], target) == Scan(ORIGIN, points, target)
    {
      assert points[i..][0] == points[i] && points[i..][1..] == points[i + 1..];
      var q := points[i];
      if q.count >= target {
        if q.count <= prev.count {
          return q.le;
        }
        var frac := (target - prev.count) / (q.count - prev.count);
        return prev.le + frac * (q.le - prev.le);
      }
      prev := q;
    }
    value := prev.le;
  }

  method FindBound(float: FloatParser, labels: seq<string>) returns (le: Option<real>)
    ensures le == Bound(float, labels)
  {
    for i := 0 to |labels|
      invariant Bound(float, labels[i..]) == Bound(float, labels)
    {
      assert labels[i..][0] == labels[i] && labels[i..][1..] == labels[i + 1..];
      if IsLe(labels[i]) {
        var text := labels[i][3..];
        return if text == "+Inf" then None else float(text);
      }
    }
    le := None;
  }

  // ---- Facts about one interpolation ----

  lemma Share(a: real, b: real)
    requires 0.0 <= a <= b && 0.0 < b
    ensures 0.0 <= a / b <= 1.0
  {
  }

  lemma ShareOrder(a: real, c: real, b: real)
    requires a <= c && 0.0 < b
    ensures a / b <= c / b
  {
  }

  lemma ScaleOrder(f: real, g: real, w: real)
    requires f <= g && 0.0 <= w
    ensures f * w <= g * w
  {
  }

  lemma BetweenStaysInside(p: Point, q: Point, target: real)
    requires p.count < q.count && p.count <= target <= q.count && p.le <= q.le
    ensures p.le <= Between(p, q, target) <= q.le
  {
    var f, w := (target - p.count) / (q.count - p.count), q.le - p.le;
    Share(target - p.count, q.count - p.count);
    ScaleOrder(0.0, f, w);
    ScaleOrder(f, 1.0, w);
  }

  lemma BetweenIsMonotone(p: Point, q: Point, t: real, u: real)
    requires p.count < q.count && t <= u && p.le <= q.le
    ensures Between(p, q, t) <= Between(p, q, u)
  {
    var d := q.count - p.count;
    ShareOrder(t - p.count, u - p.count, d);
    ScaleOrder((t - p.count) / d, (u - p.count) / d, q.le - p.le);
  }

  // ---- Facts about the scan ----

  // Bounds and counts both grow from prev on.
  predicate Cumulative(prev: Point, points: seq<Point>)
    decreases |points|
  {
    points == [] || (prev.le <= points[0].le && prev.count <= points[0].count && Cumulative(points[0], points[1..]))
  }

  function Largest(prev: Point, points: seq<Point>): real {
    if points == [] then prev.le else points[|points| - 1].le
  }

  lemma {:induction false} ScanStaysInside(prev: Point, points: seq<Point>, target: real)
    requires Cumulative(prev, points) && prev.count <= target
    ensures prev.le <= Scan(prev, points, target) <= Largest(prev, points)
    decreases |points|
  {
    if points != [] {
      var q := points[0];
      LargestIsAhead(q, points[1..]);
      if q.count < target {
        ScanStaysInside(q, points[1..], target);
      } else if q.count > prev.count {
        BetweenStaysInside(prev, q, target);
      }
    }
  }

  lemma {:induction false} LargestIsAhead(prev: Point, points: seq<Point>)
    requires Cumulative(prev, points)
    ensures prev.le <= Largest(prev, points)
    decreases |points|
  {
    if points != [] {
      LargestIsAhead(points[0], points[1..]);
    }
  }

  lemma {:induction false} ScanIsMonotone(prev: Point, points: seq<Point>, t: real, u: real)
    requires Cumulative(prev, points) && t <= u
    ensures Scan(prev, points, t) <= Scan(prev, points, u)
    decreases |points|
  {
    if points != [] {
      var q := points[0];
      if q.count < t {
        ScanIsMonotone(q, points[1..], t, u);
      } else if q.count < u {
        ScanStaysInside(q, points[1..], u);
        if q.count > prev.count {
          BetweenIsMonotone(prev, q, t, q.count);
          BetweenStaysInside(prev, q, q.count);
        }
      } else if q.count > prev.count {
        BetweenIsMonotone(prev, q, t, u);
      }
    }
  }

  // ---- The scan inverts the piecewise-linear count ----

  // Bounds grow strictly.
  predicate Rising(prev: Point, points: seq<Point>)
    decreases |points|
  {
    points == [] || (prev.le < points[0].le && Rising(points[0], points[1..]))
  }

  // The number of observations up to x, read off the same straight lines.
  function CountUpTo(prev: Point, points: seq<Point>, x: real): real
    requires Rising(prev, points)
    decreases |points|
  {
    if points == [] then prev.count
    else
      var q := points[0];
      if q.le < x then CountUpTo(q, points[1..], x)
      else prev.count + (x - prev.le) / (q.le - prev.le) * (q.count - prev.count)
  }

  function Total(prev: Point, points: seq<Point>): real {
    if points == [] then prev.count else points[|points| - 1].count
  }

  lemma ShareOfShare(a: real, b: real)
    requires b != 0.0
    ensures a / b * b == a
  {
  }

  lemma ProductOverFactor(f: real, w: real)
    requires w != 0.0
    ensures f * w / w == f
  {
  }

  lemma BetweenInverts(p: Point, q: Point, target: real)
    requires p.count < q.count && p.le < q.le
    ensures p.count + (Between(p, q, target) - p.le) / (q.le - p.le) * (q.count - p.count) == target
  {
    var f, w := (target - p.count) / (q.count - p.count), q.le - p.le;
    ProductOverFactor(f, w);
    ShareOfShare(target - p.count, q.count - p.count);
  }

  lemma BetweenIsAhead(p: Point, q: Point, target: real)
    requires p.count < target <= q.count && p.le < q.le
    ensures p.le < Between(p, q, target) <= q.le
  {
    BetweenStaysInside(p, q, target);
    var f, w := (target - p.count) / (q.count - p.count), q.le - p.le;
    if f * w <= 0.0 {
      ProductOverFactor(f, w);
      ShareOrder(f * w, 0.0, w);
      ShareOfShare(target - p.count, q.count - p.count);
    }
  }

  // For every target the histogram reaches, exactly target observations lie up to the quantile.
  lemma {:induction false} ScanInvertsCount(prev: Point, points: seq<Point>, target: real)
    requires Cumulative(prev, points) && Rising(prev, points)
    requires prev.count < target <= Total(prev, points)
    ensures prev.le < Scan(prev, points, target) && CountUpTo(prev, points, Scan(prev, points, target)) == target
    decreases |points|
  {
    var q := points[0];
    if q.count < target {
      ScanInvertsCount(q, points[1..], target);
    } else {
      BetweenIsAhead(prev, q, target);
      BetweenInverts(prev, q, target);
    }
  }

  // A target equal to the count of a strictly larger bucket is answered with that bucket's bound.
  lemma {:induction false} ExactHit(prev: Point, points: seq<Point>, i: nat)
    requires Cumulative(prev, points) && i < |points|
    requires (if i == 0 then prev else points[i - 1]).count < points[i].count
    ensures Scan(prev, points, points[i].count) == points[i].le
    decreases |points|
  {
    var q := points[0];
    if i > 0 {
      CountsGrow(q, points[1..], i - 1);
      assert i > 1 ==> points[1..][i - 2] == points[i - 1];
      ExactHit(q, points[1..], i - 1);
    } else {
      ProductOverFactor(1.0, q.count - prev.count);
    }
  }

  lemma {:induction false} CountsGrow(prev: Point, points: seq<Point>, i: nat)
    requires Cumulative(prev, points) && i < |points|
    ensures prev.count <= (if i == 0 then prev else points[i - 1]).count <= points[i].count
    decreases |points|
  {
    if i > 0 {
      CountsGrow(points[0], points[1..], i - 1);
      assert i > 1 ==> points[1..][i - 2] == points[i - 1];
    }
  }

  // ---- Whole histograms ----

  // Counts that accumulate over bounds that are not negative.
  predicate IsHistogram(buckets: map<real, real>) {
    forall a, b :: a in buckets && b in buckets && a <= b ==> 0.0 <= a && 0.0 <= buckets[a] <= buckets[b]
  }

  lemma {:induction false} PointsAreCumulative(prev: Point, points: seq<Point>)
    requires forall i, j :: 0 <= i < j < |points| ==> points[i].le <= points[j].le && points[i].count <= points[j].count
    requires forall i :: 0 <= i < |points| ==> prev.le <= points[i].le && prev.count <= points[i].count
    ensures Cumulative(prev, points)
    decreases |points|
  {
    if points != [] {
      PointsAreCumulative(points[0], points[1..]);
    }
  }

  lemma HistogramIsCumulative(buckets: map<real, real>)
    requires IsHistogram(buckets)
    ensures Cumulative(ORIGIN, Points(buckets))
  {
    var points := Points(buckets);
    forall i, j | 0 <= i <= j < |points|
      ensures 0.0 <= points[i].le <= points[j].le && 0.0 <= points[i].count <= points[j].count
    {
      assert points[i] in points && points[j] in points;
    }
    PointsAreCumulative(ORIGIN, points);
  }

  lemma ScanIsMonotoneOnBuckets(buckets: map<real, real>, t: real, u: real)
    requires IsHistogram(buckets) && t <= u
    ensures Scan(ORIGIN, Points(buckets), t) <= Scan(ORIGIN, Points(buckets), u)
  {
    HistogramIsCumulative(buckets);
    ScanIsMonotone(ORIGIN, Points(buckets), t, u);
  }

  lemma TargetsGrow(total: real, p: real, q: real)
    requires p <= q && 0.0 < total
    ensures total * p <= total * q
  {
  }

  // The quantile grows with pct.
  lemma QuantileIsMonotone(buckets: map<real, real>, total: real, p: real, q: real)
    requires IsHistogram(buckets) && p <= q
    requires 0.0 < total && buckets != map[]
    ensures Quantile(buckets, total, p).value <= Quantile(buckets, total, q).value
  {
    TargetsGrow(total, p, q);
    ScanIsMonotoneOnBuckets(buckets, total * p, total * q);
  }

  lemma {:induction false} ScanStaysBelow(prev: Point, points: seq<Point>, target: real)
    requires Cumulative(prev, points)
    ensures Scan(prev, points, target) <= Largest(prev, points)
    decreases |points|
  {
    if points != [] {
      var q := points[0];
      LargestIsAhead(q, points[1..]);
      if q.count < target {
        ScanStaysBelow(q, points[1..], target);
      } else if q.count > prev.count {
        BetweenIsMonotone(prev, q, target, q.count);
        BetweenStaysInside(prev, q, q.count);
      }
    }
  }

  // It never exceeds the largest finite bound, whatever pct is.
  lemma QuantileStaysBelow(buckets: map<real, real>, total: real, pct: real)
    requires IsHistogram(buckets) && 0.0 < total && buckets != map[]
    ensures exists le :: le in buckets && Quantile(buckets, total, pct).value <= le
  {
    HistogramIsCumulative(buckets);
    var points := Points(buckets);
    ScanStaysBelow(ORIGIN, points, total * pct);
    assert points[|points| - 1] in points;
  }

  lemma TargetSign(total: real, pct: real)
    requires 0.0 < total
    ensures total * pct < 0.0 <==> pct < 0.0
  {
  }

  lemma BelowTheOrigin(q: Point, target: real)
    requires 0.0 < q.count && 0.0 <= q.le && target < 0.0
    ensures Between(ORIGIN, q, target) < 0.0 <==> q.le != 0.0
  {
    var f := (target - 0.0) / (q.count - 0.0);
    ShareOfShare(target, q.count);
    assert f < 0.0;
    if q.le != 0.0 {
      assert f * q.le < 0.0;
    }
  }

  lemma ScanSign(buckets: map<real, real>, target: real)
    requires IsHistogram(buckets) && buckets != map[]
    ensures
      var least := Least(buckets.Keys);
      0.0 <= Scan(ORIGIN, Points(buckets), target) <==> 0.0 <= target || least == 0.0 || buckets[least] == 0.0
  {
    HistogramIsCumulative(buckets);
    var points := Points(buckets);
    if 0.0 <= target {
      ScanStaysInside(ORIGIN, points, target);
    } else if points[0].count > 0.0 {
      BelowTheOrigin(points[0], target);
    }
  }

  // And it is negative exactly for a negative pct on a first bucket that has observations and a positive bound.
  lemma QuantileIsNonnegative(buckets: map<real, real>, total: real, pct: real)
    requires IsHistogram(buckets) && 0.0 < total && buckets != map[]
    ensures
      var least := Least(buckets.Keys);
      0.0 <= Quantile(buckets, total, pct).value <==> 0.0 <= pct || least == 0.0 || buckets[least] == 0.0
  {
    TargetSign(total, pct);
    ScanSign(buckets, total * pct);
  }

  lemma {:induction false} PointsAreRising(prev: Point, points: seq<Point>)
    requires forall i, j :: 0 <= i < j < |points| ==> points[i].le < points[j].le
    requires points != [] ==> prev.le < points[0].le
    ensures Rising(prev, points)
    decreases |points|
  {
    if points != [] {
      PointsAreRising(points[0], points[1..]);
    }
  }

  // A histogram whose bounds are positive: reading the count at the quantile gives the target back.
  lemma QuantileInvertsCount(buckets: map<real, real>, total: real, pct: real)
    requires IsHistogram(buckets) && 0.0 !in buckets
    requires 0.0 < total && buckets != map[]
    requires 0.0 < total * pct <= Total(ORIGIN, Points(buckets))
    ensures Rising(ORIGIN, Points(buckets))
    ensures CountUpTo(ORIGIN, Points(buckets), Quantile(buckets, total, pct).value) == total * pct
  {
    var points := Points(buckets);
    HistogramIsCumulative(buckets);
    assert points[0] in points;
    PointsAreRising(ORIGIN, points);
    ScanInvertsCount(ORIGIN, points, total * pct);
  }
}

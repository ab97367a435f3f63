/** Cubic Bezier curves in the plane: the direct one-axis formula, de Casteljau
    evaluation of a point, and the polyline estimate of arc length. Every
    `number` of the original code is a `real` here, so all arithmetic is exact. */
module Bezier {
  import opened Geometry

  /** Four control points: `p1` is the start, `p4` the end (`TBezierCurveCubic`). */
  datatype BezierCurveCubic = BezierCurveCubic(p1: Point, p2: Point, p3: Point, p4: Point)

  /** One coordinate of the four control points (`TPointsValue`). */
  datatype PointsValue = PointsValue(p1: real, p2: real, p3: real, p4: real)

  /** The x coordinates of a curve's control points. */
  function XValues(c: BezierCurveCubic): PointsValue
  {
    PointsValue(c.p1.x, c.p2.x, c.p3.x, c.p4.x)
  }

  /** The y coordinates of a curve's control points. */
  function YValues(c: BezierCurveCubic): PointsValue
  {
    PointsValue(c.p1.y, c.p2.y, c.p3.y, c.p4.y)
  }

  /** `getBezierCurveCubicPos`: the direct one-axis formula exactly as the code
      writes it, `(1-t)^3 p1 + 3(1-t)^2 t p2 + 3(1-t)^2 t p3 + t^3 p4`, with each
      power written out as a product. Note that `p2` and `p3` share one
      coefficient; `BezierProperties` states how this differs from the curve. */
  function BezierCurveCubicPos(t: real, v: PointsValue): real
  {
    (1.0 - t) * (1.0 - t) * (1.0 - t) * v.p1
    + 3.0 * ((1.0 - t) * (1.0 - t)) * t * v.p2
    + 3.0 * ((1.0 - t) * (1.0 - t)) * t * v.p3
    + t * t * t * v.p4
  }

  /** The standard cubic Bernstein form on one axis,
      `(1-t)^3 p1 + 3(1-t)^2 t p2 + 3(1-t) t^2 p3 + t^3 p4`: the reference
      definition that the de Casteljau evaluation is proved against. */
  function BernsteinAxis(t: real, v: PointsValue): real
  {
    (1.0 - t) * (1.0 - t) * (1.0 - t) * v.p1
    + 3.0 * ((1.0 - t) * (1.0 - t)) * t * v.p2
    + 3.0 * (1.0 - t) * (t * t) * v.p3
    + t * t * t * v.p4
  }

  /** The point of the curve at parameter `t`, axis by axis in Bernstein form. */
  function BernsteinPoint(t: real, c: BezierCurveCubic): Point
  {
    Point(BernsteinAxis(t, XValues(c)), BernsteinAxis(t, YValues(c)))
  }

  /** The direct formula starts at `p1` and ends at `p4`. */
  lemma CubicPosEndpoints(v: PointsValue)
    ensures BezierCurveCubicPos(0.0, v) == v.p1
    ensures BezierCurveCubicPos(1.0, v) == v.p4
  {
  }

  /** The Bernstein form starts at `p1` and ends at `p4`. */
  lemma BernsteinAxisEndpoints(v: PointsValue)
    ensures BernsteinAxis(0.0, v) == v.p1
    ensures BernsteinAxis(1.0, v) == v.p4
  {
  }

  /** The curve passes through its first control point at `t = 0` and through its
      last at `t = 1`, in both coordinates. */
  lemma BernsteinPointEndpoints(c: BezierCurveCubic)
    ensures BernsteinPoint(0.0, c) == c.p1
    ensures BernsteinPoint(1.0, c) == c.p4
  {
    BernsteinAxisEndpoints(XValues(c));
    BernsteinAxisEndpoints(YValues(c));
  }

  /** `cubicQxy`: de Casteljau's algorithm. Three rounds of linear interpolation
      `a += (b - a) * t` on the accumulators, first for x, then for y. The point
      it returns is the Bernstein point of the curve, so it starts at `p1` and
      ends at `p4`. The accumulators `ax, bx, cx` and `ay, by, cy` of the code
      are named `xa, xb, xc` and `ya, yb, yc` here (`by` is a keyword). */
  method CubicQxy(t: real, curve: BezierCurveCubic) returns (p: Point)
    ensures p == BernsteinPoint(t, curve)
    ensures t == 0.0 ==> p == curve.p1
    ensures t == 1.0 ==> p == curve.p4
  {
    var xa := curve.p1.x;
    xa := xa + (curve.p2.x - curve.p1.x) * t;
    var xb := curve.p2.x;
    xb := xb + (curve.p3.x - curve.p2.x) * t;
    var xc := curve.p3.x;
    xc := xc + (curve.p4.x - curve.p3.x) * t;
    ghost var xa1, xb1, xc1 := xa, xb, xc;

    xa := xa + (xb - xa) * t;
    xb := xb + (xc - xb) * t;

    var ya := curve.p1.y;
    ya := ya + (curve.p2.y - curve.p1.y) * t;
    var yb := curve.p2.y;
    yb := yb + (curve.p3.y - curve.p2.y) * t;
    var yc := curve.p3.y;
    yc := yc + (curve.p4.y - curve.p3.y) * t;
    ghost var ya1, yb1, yc1 := ya, yb, yc;

    ya := ya + (yb - ya) * t;
    yb := yb + (yc - yb) * t;

    p := Point(xa + (xb - xa) * t, ya + (yb - ya) * t);
    DeCasteljauAxis(t, XValues(curve), xa1, xb1, xc1, xa, xb, p.x);
    DeCasteljauAxis(t, YValues(curve), ya1, yb1, yc1, ya, yb, p.y);
    BernsteinPointEndpoints(curve);
  }

  /** The three rounds of de Casteljau's algorithm on one axis, given by the values
      of the accumulators after each round, end at the Bernstein value of that axis. */
  lemma DeCasteljauAxis(t: real, v: PointsValue, a1: real, b1: real, c1: real, a2: real, b2: real, r: real)
    requires a1 == v.p1 + (v.p2 - v.p1) * t
    requires b1 == v.p2 + (v.p3 - v.p2) * t
    requires c1 == v.p3 + (v.p4 - v.p3) * t
    requires a2 == a1 + (b1 - a1) * t
    requires b2 == b1 + (c1 - b1) * t
    requires r == a2 + (b2 - a2) * t
    ensures r == BernsteinAxis(t, v)
  {
    DeCasteljauScalar(t, v.p1, v.p2, v.p3, v.p4, a1, b1, c1, a2, b2, r);
  }

  lemma DeCasteljauScalar(t: real, p1: real, p2: real, p3: real, p4: real,
                          a1: real, b1: real, c1: real, a2: real, b2: real, r: real)
    requires a1 == p1 + (p2 - p1) * t
    requires b1 == p2 + (p3 - p2) * t
    requires c1 == p3 + (p4 - p3) * t
    requires a2 == a1 + (b1 - a1) * t
    requires b2 == b1 + (c1 - b1) * t
    requires r == a2 + (b2 - a2) * t
    ensures r == BernsteinAxis(t, PointsValue(p1, p2, p3, p4))
  {
    var u := 1.0 - t;
    assert a2 == u * u * p1 + 2.0 * u * t * p2 + t * t * p3;
    assert b2 == u * u * p2 + 2.0 * u * t * p3 + t * t * p4;
    assert r == u * a2 + t * b2;
  }

  /** The number of passes of the sampling loop, `for (i = 1; i < sampleCount; i++)`:
      the largest integer below `sampleCount`, or zero when `sampleCount <= 1`. */
  function InteriorSampleCount(sampleCount: real): (k: nat)
    ensures sampleCount <= 1.0 ==> k == 0
    ensures 1.0 < sampleCount ==> k as real < sampleCount <= (k + 1) as real
  {
    if sampleCount <= 1.0 then 0
    else if sampleCount.Floor as real == sampleCount then sampleCount.Floor - 1
    else sampleCount.Floor
  }

  /** The first `k` interior samples, the curve at `1/n, 2/n, ..., k/n`. */
  function Samples(c: BezierCurveCubic, n: real, k: nat): (s: seq<Point>)
    requires k <= InteriorSampleCount(n)
    ensures |s| == k
  {
    if k == 0 then [] else Samples(c, n, k - 1) + [BernsteinPoint(k as real / n, c)]
  }

  /** The `j`-th interior sample (counting from zero) is the curve at `(j + 1) / n`. */
  lemma {:induction false} SamplesAt(c: BezierCurveCubic, n: real, k: nat, j: nat)
    requires k <= InteriorSampleCount(n)
    requires j < k
    ensures 1.0 < n
    ensures Samples(c, n, k)[j] == BernsteinPoint((j + 1) as real / n, c)
  {
    if j < k - 1 {
      SamplesAt(c, n, k - 1, j);
    }
  }

  /** The chain of points whose segments `getCubicBezierLength` adds up: `p1`, the
      curve at each interior sample, and `p4`. */
  function Polyline(c: BezierCurveCubic, sampleCount: real): (s: seq<Point>)
    ensures |s| == InteriorSampleCount(sampleCount) + 2
    ensures s[0] == c.p1 && s[|s| - 1] == c.p4
  {
    [c.p1] + Samples(c, sampleCount, InteriorSampleCount(sampleCount)) + [c.p4]
  }

  /** Between its two ends, the chain visits the curve at `k / sampleCount` for
      `k = 1, ..., InteriorSampleCount(sampleCount)`. */
  lemma PolylineAt(c: BezierCurveCubic, sampleCount: real, k: nat)
    requires 1 <= k <= InteriorSampleCount(sampleCount)
    ensures 1.0 < sampleCount
    ensures Polyline(c, sampleCount)[k] == BernsteinPoint(k as real / sampleCount, c)
  {
    var count := InteriorSampleCount(sampleCount);
    SamplesAt(c, sampleCount, count, k - 1);
    assert Polyline(c, sampleCount)[k] == Samples(c, sampleCount, count)[k - 1];
  }

  /** One step of the running total: `sqrt(dx * dx + dy * dy)` for the step from
      `a` to `b` is the distance between them. */
  lemma SegmentLength(sqrt: real -> real, a: Point, b: Point, dx: real, dy: real)
    requires dx == b.x - a.x && dy == b.y - a.y
    ensures sqrt(dx * dx + dy * dy) == Dist(sqrt, a, b)
  {
    assert SquaredNorm(dx, dy) == SquaredNorm(b.x - a.x, b.y - a.y);
    assert dx * dx + dy * dy == SquaredNorm(dx, dy);
  }

  /** The length of `Polyline` is non-negative and never shorter than the chord from `p1` to `p4`. */
  lemma LengthAtLeastChord(sqrt: real -> real, c: BezierCurveCubic, sampleCount: real)
    requires IsSqrt(sqrt)
    ensures 0.0 <= Dist(sqrt, c.p1, c.p4) <= PathLength(sqrt, Polyline(c, sampleCount))
  {
    PathLengthAtLeastChord(sqrt, Polyline(c, sampleCount));
    DistNonNegative(sqrt, c.p1, c.p4);
  }

  /** `getCubicBezierLength`: the polyline estimate of the arc length. `sqrt` stands
      for the square-root routine; the result is the length of `Polyline`, and
      when `sqrt` obeys the square-root laws it is at least the chord from `p1`
      to `p4`, hence non-negative. */
  method GetCubicBezierLength(sqrt: real -> real, curve: BezierCurveCubic, sampleCount: real := 40.0)
    returns (totDist: real)
    ensures totDist == PathLength(sqrt, Polyline(curve, sampleCount))
    ensures IsSqrt(sqrt) ==> 0.0 <= Dist(sqrt, curve.p1, curve.p4) <= totDist
  {
    ghost var count := InteriorSampleCount(sampleCount);
    ghost var visited: seq<Point> := [curve.p1];
    totDist := 0.0;
    var lastX := curve.p1.x;
    var lastY := curve.p1.y;
    var dx, dy;
    var i := 1;
    while (i as real) < sampleCount
      invariant 1 <= i <= count + 1
      invariant visited == [curve.p1] + Samples(curve, sampleCount, i - 1)
      invariant visited[|visited| - 1] == Point(lastX, lastY)
      invariant totDist == PathLength(sqrt, visited)
      decreases count + 1 - i
    {
      var pt := CubicQxy(i as real / sampleCount, curve);
      dx := pt.x - lastX;
      dy := pt.y - lastY;
      SegmentLength(sqrt, Point(lastX, lastY), pt, dx, dy);
      PathLengthSnoc(sqrt, visited, pt);
      totDist := totDist + sqrt(dx * dx + dy * dy);
      lastX := pt.x;
      lastY := pt.y;
      visited := visited + [pt];
      i := i + 1;
    }
    dx := curve.p4.x - lastX;
    dy := curve.p4.y - lastY;
    SegmentLength(sqrt, Point(lastX, lastY), curve.p4, dx, dy);
    PathLengthSnoc(sqrt, visited, curve.p4);
    totDist := totDist + sqrt(dx * dx + dy * dy);
    assert i == count + 1;
    assert visited + [curve.p4] == Polyline(curve, sampleCount);
    if IsSqrt(sqrt) {
      LengthAtLeastChord(sqrt, curve, sampleCount);
    }
  }
}

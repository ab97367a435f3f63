/** What the two evaluators and the length estimate promise, and how the direct
    one-axis formula departs from the curve that de Casteljau's algorithm traces. */
module BezierProperties {
  import opened Geometry
  import opened Bezier

  /** `p1`, `p2`, `p3`, `p4` of one axis, with `p2` and `p3` exchanged. */
  function SwapInner(v: PointsValue): PointsValue
  {
    PointsValue(v.p1, v.p3, v.p2, v.p4)
  }

  /** `p1`, `p2`, `p3`, `p4` of one axis in reverse order. */
  function Reverse(v: PointsValue): PointsValue
  {
    PointsValue(v.p4, v.p3, v.p2, v.p1)
  }

  // ---------------------------------------------------------------------------
  // The direct one-axis formula

  /** The direct formula gives `p2` and `p3` one and the same coefficient, so
      exchanging them never changes its value. */
  lemma CubicPosSwapInvariant(t: real, v: PointsValue)
    ensures BezierCurveCubicPos(t, SwapInner(v)) == BezierCurveCubicPos(t, v)
  {
  }

  lemma CubicPosMinusBernsteinScalar(t: real, p1: real, p2: real, p3: real, p4: real)
    ensures BezierCurveCubicPos(t, PointsValue(p1, p2, p3, p4)) - BernsteinAxis(t, PointsValue(p1, p2, p3, p4))
         == 3.0 * t * (1.0 - t) * (1.0 - 2.0 * t) * p3
  {
  }

  /** The direct formula exceeds the curve's own coordinate by exactly
      `3 t (1 - t) (1 - 2t) p3`: the weight it gives `p3` is `3(1-t)^2 t` where the
      curve has `3(1-t) t^2`. */
  lemma CubicPosMinusBernstein(t: real, v: PointsValue)
    ensures BezierCurveCubicPos(t, v) - BernsteinAxis(t, v) == 3.0 * t * (1.0 - t) * (1.0 - 2.0 * t) * v.p3
  {
    CubicPosMinusBernsteinScalar(t, v.p1, v.p2, v.p3, v.p4);
  }

  lemma ZeroProduct(a: real, b: real)
    ensures a * b == 0.0 <==> a == 0.0 || b == 0.0
  {
  }

  /** The direct formula and the de Casteljau value agree on an axis exactly at
      `t = 0`, `t = 1/2` and `t = 1`, or, for every `t`, when `p3` is zero. */
  lemma CubicPosAgreesIff(t: real, v: PointsValue)
    ensures BezierCurveCubicPos(t, v) == BernsteinAxis(t, v)
        <==> t == 0.0 || t == 0.5 || t == 1.0 || v.p3 == 0.0
  {
    CubicPosMinusBernstein(t, v);
    ZeroProduct(3.0 * t * (1.0 - t) * (1.0 - 2.0 * t), v.p3);
    ZeroProduct(3.0 * t * (1.0 - t), 1.0 - 2.0 * t);
    ZeroProduct(3.0 * t, 1.0 - t);
  }

  // ---------------------------------------------------------------------------
  // The curve traced by de Casteljau's algorithm

  /** The x coordinate of a curve point depends on the x coordinates of the
      control points alone, and the y coordinate on the y coordinates alone. */
  lemma BernsteinPointSeparable(t: real, c: BezierCurveCubic, d: BezierCurveCubic)
    ensures XValues(c) == XValues(d) ==> BernsteinPoint(t, c).x == BernsteinPoint(t, d).x
    ensures YValues(c) == YValues(d) ==> BernsteinPoint(t, c).y == BernsteinPoint(t, d).y
  {
  }

  lemma BernsteinAxisConstantScalar(t: real, a: real)
    ensures BernsteinAxis(t, PointsValue(a, a, a, a)) == a
  {
    var u := 1.0 - t;
    assert u * u * u + 3.0 * (u * u) * t + 3.0 * u * (t * t) + t * t * t == (u + t) * (u + t) * (u + t);
  }

  /** A curve whose four control points coincide is that one point for every `t`. */
  lemma ConstantCurve(t: real, c: BezierCurveCubic)
    requires c.p2 == c.p1 && c.p3 == c.p1 && c.p4 == c.p1
    ensures BernsteinPoint(t, c) == c.p1
  {
    BernsteinAxisConstantScalar(t, c.p1.x);
    BernsteinAxisConstantScalar(t, c.p1.y);
  }

  lemma BernsteinAxisReversalScalar(t: real, p1: real, p2: real, p3: real, p4: real)
    ensures BernsteinAxis(1.0 - t, PointsValue(p4, p3, p2, p1)) == BernsteinAxis(t, PointsValue(p1, p2, p3, p4))
  {
  }

  /** Running the curve backwards is the curve of the reversed control points. */
  lemma BernsteinAxisReversal(t: real, v: PointsValue)
    ensures BernsteinAxis(1.0 - t, Reverse(v)) == BernsteinAxis(t, v)
  {
    BernsteinAxisReversalScalar(t, v.p1, v.p2, v.p3, v.p4);
  }

  // ---------------------------------------------------------------------------
  // The polyline estimate of the arc length

  /** For a whole number `n >= 1` of samples the chain has `n` segments: `n - 1`
      interior samples and the closing segment to `p4`. */
  lemma SegmentCount(c: BezierCurveCubic, n: nat)
    requires 1 <= n
    ensures InteriorSampleCount(n as real) == n - 1
    ensures |Polyline(c, n as real)| - 1 == n
  {
    var k := InteriorSampleCount(n as real);
    if n > 1 {
      assert k as real < n as real <= (k + 1) as real;
    }
  }

  /** With at most one sample the loop does not run and the estimate is the chord
      from `p1` to `p4`. */
  lemma FewSamplesChord(sqrt: real -> real, c: BezierCurveCubic, sampleCount: real)
    requires sampleCount <= 1.0
    ensures Polyline(c, sampleCount) == [c.p1, c.p4]
    ensures PathLength(sqrt, Polyline(c, sampleCount)) == Dist(sqrt, c.p1, c.p4)
  {
    var line := Polyline(c, sampleCount);
    assert line == [c.p1, c.p4];
    assert line[1..] == [c.p4];
  }

  /** A curve whose four control points coincide has estimated length zero, for
      every sample count. */
  lemma ConstantCurveLength(sqrt: real -> real, c: BezierCurveCubic, sampleCount: real)
    requires IsSqrt(sqrt)
    requires c.p2 == c.p1 && c.p3 == c.p1 && c.p4 == c.p1
    ensures PathLength(sqrt, Polyline(c, sampleCount)) == 0.0
  {
    var line := Polyline(c, sampleCount);
    forall k | 0 <= k < |line|
      ensures line[k] == c.p1
    {
      if 1 <= k < |line| - 1 {
        PolylineAt(c, sampleCount, k);
        ConstantCurve(k as real / sampleCount, c);
      }
    }
    PathLengthConstant(sqrt, line, c.p1);
  }

  // ---------------------------------------------------------------------------
  // Worked values

  /** The second example curve of the source (cubic-bezier.com `.19,.56,.09,.83`,
      with `p2.y = 0.59` as written in the code). */
  const Curve2: BezierCurveCubic :=
    BezierCurveCubic(Point(0.0, 0.0), Point(0.19, 0.59), Point(0.09, 0.83), Point(1.0, 1.0))

  /** At `t = 1/2` the de Casteljau point of the second example curve is exactly
      `(0.23, 0.6575)`. */
  lemma Curve2AtHalf()
    ensures BernsteinPoint(0.5, Curve2) == Point(0.23, 0.6575)
  {
  }

  /** The direct formula on an axis whose four control values are all `1` gives
      `1.28125` at `t = 1/4`, where the curve stays at `1`: its four weights do
      not add up to one. */
  lemma CubicPosConstantCounterexample()
    ensures BezierCurveCubicPos(0.25, PointsValue(1.0, 1.0, 1.0, 1.0)) == 1.28125
    ensures BernsteinAxis(0.25, PointsValue(1.0, 1.0, 1.0, 1.0)) == 1.0
  {
  }
}

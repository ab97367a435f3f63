/** Points of the plane, the Euclidean distance built on a square-root routine,
    and the length of a polyline (a chain of straight segments). */
module Geometry {

  /** A point of the plane (`TPoint`). */
  datatype Point = Point(x: real, y: real)

  /** The laws a square-root routine is taken to obey on the non-negative reals:
      its result is non-negative and squares back to its argument. The routine
      itself is not computable over the reals, so it is passed in as a value and
      these laws are the only thing known about it. */
  ghost predicate IsSqrt(sqrt: real -> real)
  {
    forall x: real :: 0.0 <= x ==> 0.0 <= sqrt(x) && sqrt(x) * sqrt(x) == x
  }

  /** The squared length `dx * dx + dy * dy` of a step `(dx, dy)`. */
  function SquaredNorm(dx: real, dy: real): real
  {
    dx * dx + dy * dy
  }

  /** The Euclidean distance from `a` to `b`, `sqrt(dx * dx + dy * dy)` for the
      step `dx = b.x - a.x`, `dy = b.y - a.y`. */
  function Dist(sqrt: real -> real, a: Point, b: Point): real
  {
    sqrt(SquaredNorm(b.x - a.x, b.y - a.y))
  }

  lemma SqrtZero(sqrt: real -> real)
    requires IsSqrt(sqrt)
    ensures sqrt(0.0) == 0.0
  {
    var s := sqrt(0.0);
    assert 0.0 <= s && s * s == 0.0;
    SquareLeImpliesLe(s, 0.0);
  }

  /** A factor whose product with a positive number is non-negative is non-negative. */
  lemma NonNegativeFactor(a: real, b: real)
    requires 0.0 < b
    requires 0.0 <= a * b
    ensures 0.0 <= a
  {
  }

  /** For a non-negative `q`, `p * p <= q * q` forces `p <= q`. */
  lemma SquareLeImpliesLe(p: real, q: real)
    requires 0.0 <= q
    requires p * p <= q * q
    ensures p <= q
  {
    if 0.0 < p {
      assert (q - p) * (q + p) == q * q - p * p;
      NonNegativeFactor(q - p, q + p);
    }
  }

  lemma SquaredNormNonNegative(dx: real, dy: real)
    ensures 0.0 <= SquaredNorm(dx, dy)
  {
  }

  lemma DistNonNegative(sqrt: real -> real, a: Point, b: Point)
    requires IsSqrt(sqrt)
    ensures 0.0 <= Dist(sqrt, a, b)
  {
    SquaredNormNonNegative(b.x - a.x, b.y - a.y);
  }

  lemma DistSelf(sqrt: real -> real, a: Point)
    requires IsSqrt(sqrt)
    ensures Dist(sqrt, a, a) == 0.0
  {
    assert SquaredNorm(a.x - a.x, a.y - a.y) == 0.0;
    SqrtZero(sqrt);
  }

  /** Lagrange's identity in the plane: |u|^2 |v|^2 = (u . v)^2 + (u x v)^2. */
  lemma Lagrange(ux: real, uy: real, vx: real, vy: real)
    ensures (ux * ux + uy * uy) * (vx * vx + vy * vy)
         == (ux * vx + uy * vy) * (ux * vx + uy * vy) + (ux * vy - uy * vx) * (ux * vy - uy * vx)
  {
  }

  /** With `s` and `r` the lengths of two vectors, whose squares `uu` and `vv` obey
      Lagrange's identity with the dot product `dot` and the cross product `cross`,
      the dot product is at most `s * r` (the Cauchy-Schwarz inequality). */
  lemma DotAtMostProduct(s: real, r: real, uu: real, vv: real, dot: real, cross: real)
    requires 0.0 <= s && 0.0 <= r
    requires s * s == uu && r * r == vv
    requires uu * vv == dot * dot + cross * cross
    ensures dot <= s * r
  {
    assert (s * r) * (s * r) == (s * s) * (r * r);
    assert 0.0 <= cross * cross;
    assert 0.0 <= s * r;
    SquareLeImpliesLe(dot, s * r);
  }

  /** The length `w` of a sum of two vectors of lengths `s` and `r` is at most `s + r`. */
  lemma SumAtMostLengths(s: real, r: real, w: real, uu: real, vv: real, dot: real)
    requires 0.0 <= s && 0.0 <= r
    requires s * s == uu && r * r == vv
    requires w * w == uu + vv + 2.0 * dot
    requires dot <= s * r
    ensures w <= s + r
  {
    assert (s + r) * (s + r) == s * s + r * r + 2.0 * (s * r);
    SquareLeImpliesLe(w, s + r);
  }

  /** The triangle inequality for vectors `u`, `v` and `u + v` of lengths `s`, `r`, `w`. */
  lemma VectorTriangle(ux: real, uy: real, vx: real, vy: real, wx: real, wy: real, s: real, r: real, w: real)
    requires wx == ux + vx && wy == uy + vy
    requires 0.0 <= s && s * s == ux * ux + uy * uy
    requires 0.0 <= r && r * r == vx * vx + vy * vy
    requires w * w == wx * wx + wy * wy
    ensures w <= s + r
  {
    var dot := ux * vx + uy * vy;
    Lagrange(ux, uy, vx, vy);
    DotAtMostProduct(s, r, ux * ux + uy * uy, vx * vx + vy * vy, dot, ux * vy - uy * vx);
    assert wx * wx + wy * wy == (ux * ux + uy * uy) + (vx * vx + vy * vy) + 2.0 * dot;
    SumAtMostLengths(s, r, w, ux * ux + uy * uy, vx * vx + vy * vy, dot);
  }

  /** The triangle inequality for the distance, derived from the square-root laws
      alone: going from `a` to `c` directly is never longer than going through `b`. */
  lemma TriangleInequality(sqrt: real -> real, a: Point, b: Point, c: Point)
    requires IsSqrt(sqrt)
    ensures Dist(sqrt, a, c) <= Dist(sqrt, a, b) + Dist(sqrt, b, c)
  {
    SquaredNormNonNegative(b.x - a.x, b.y - a.y);
    SquaredNormNonNegative(c.x - b.x, c.y - b.y);
    SquaredNormNonNegative(c.x - a.x, c.y - a.y);
    VectorTriangle(b.x - a.x, b.y - a.y, c.x - b.x, c.y - b.y, c.x - a.x, c.y - a.y,
                   Dist(sqrt, a, b), Dist(sqrt, b, c), Dist(sqrt, a, c));
  }

  /** The total length of the chain of segments through `pts`. */
  function PathLength(sqrt: real -> real, pts: seq<Point>): real
  {
    if |pts| <= 1 then 0.0 else Dist(sqrt, pts[0], pts[1]) + PathLength(sqrt, pts[1..])
  }

  /** Extending a chain by one point adds exactly the one new segment, which is
      how a running total of segment lengths grows. */
  lemma {:induction false} PathLengthSnoc(sqrt: real -> real, pts: seq<Point>, q: Point)
    requires 1 <= |pts|
    ensures PathLength(sqrt, pts + [q]) == PathLength(sqrt, pts) + Dist(sqrt, pts[|pts| - 1], q)
  {
    if |pts| > 1 {
      assert (pts + [q])[1..] == pts[1..] + [q];
      PathLengthSnoc(sqrt, pts[1..], q);
    }
  }

  lemma {:induction false} PathLengthNonNegative(sqrt: real -> real, pts: seq<Point>)
    requires IsSqrt(sqrt)
    ensures 0.0 <= PathLength(sqrt, pts)
  {
    if |pts| > 1 {
      PathLengthNonNegative(sqrt, pts[1..]);
      DistNonNegative(sqrt, pts[0], pts[1]);
    }
  }

  /** A chain is never shorter than the straight segment between its two ends. */
  lemma {:induction false} PathLengthAtLeastChord(sqrt: real -> real, pts: seq<Point>)
    requires IsSqrt(sqrt)
    requires 1 <= |pts|
    ensures Dist(sqrt, pts[0], pts[|pts| - 1]) <= PathLength(sqrt, pts)
  {
    if |pts| == 1 {
      DistSelf(sqrt, pts[0]);
    } else {
      var rest := pts[1..];
      PathLengthAtLeastChord(sqrt, rest);
      assert rest[0] == pts[1] && rest[|rest| - 1] == pts[|pts| - 1];
      TriangleInequality(sqrt, pts[0], pts[1], pts[|pts| - 1]);
    }
  }

  /** A chain whose points all coincide has length zero. */
  lemma {:induction false} PathLengthConstant(sqrt: real -> real, pts: seq<Point>, p: Point)
    requires IsSqrt(sqrt)
    requires forall k :: 0 <= k < |pts| ==> pts[k] == p
    ensures PathLength(sqrt, pts) == 0.0
  {
    if |pts| > 1 {
      PathLengthConstant(sqrt, pts[1..], p);
      DistSelf(sqrt, p);
    }
  }
}

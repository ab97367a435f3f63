# Cubic Bezier evaluation and arc length

A model of the cubic Bezier geometry in `src/index.ts`. That file has three
routines:

- the direct one-axis formula `getBezierCurveCubicPos`;
- the de Casteljau point evaluator `cubicQxy`;
- the polyline arc-length estimate `getCubicBezierLength`.

Every JavaScript `number` becomes a Dafny `real`, so the arithmetic is exact.
`Math.pow` is written out as products. `Math.sqrt` is passed to the length
routine as a parameter `sqrt: real -> real`. The ghost predicate
`Geometry.IsSqrt` states the laws it is taken to obey: the result is
non-negative and squares back to the argument. Everything the model proves
about distances, including the triangle inequality, is derived from those
two laws.

Files:

- `geometry.dfy` (module `Geometry`): points, the distance built on `sqrt`,
  and the length of a chain of segments (`PathLength`).
- `bezier.dfy` (module `Bezier`): the source's types and its three routines.
  - `BezierCurveCubicPos` is a function, written exactly as the code has it.
  - `CubicQxy` is a method that keeps the code's reassignments. It is proved
    equal to the Bernstein form `BernsteinPoint`.
  - `GetCubicBezierLength` is a method with the code's loop. It is proved
    equal to the length of the chain `Polyline`: `p1`, the curve at
    `i / sampleCount` for each pass of the loop, then `p4`.
- `bezier_properties.dfy` (module `BezierProperties`): how the two evaluators
  relate, the constant curve, reversal, segment counts, and worked values.

## Model

| member | source | states |
|---|---|---|
| Bezier.CubicPosEndpoints | src/index.ts:22-27 | the direct formula gives `p1` at `t = 0` and `p4` at `t = 1` |
| BezierProperties.CubicPosSwapInvariant | src/index.ts:24-25 | `p2` and `p3` get the same coefficient, so swapping them never changes the direct formula's value |
| BezierProperties.CubicPosMinusBernstein | src/index.ts:22-27 | for every `t` and every axis, the direct formula minus the de Casteljau value is exactly `3t(1-t)(1-2t)·p3` |
| BezierProperties.CubicPosAgreesIff | src/index.ts:22-27 | the two evaluators agree on an axis if and only if `t` is 0, 1/2 or 1, or `p3 = 0` |
| BezierProperties.CubicPosConstantCounterexample | src/index.ts:22-27 | with all four control values `1` the direct formula gives `1.28125` at `t = 1/4`; the curve itself stays at `1` |
| Bezier.CubicQxy | src/index.ts:64-89 | the returned point is the cubic Bernstein point of the curve; it is `p1` at `t = 0` and `p4` at `t = 1` |
| Bezier.DeCasteljauAxis | src/index.ts:65-73 | three rounds of interpolation `a += (b - a) * t` on one axis end at the Bernstein value of that axis |
| Bezier.BernsteinPointEndpoints | src/index.ts:64-89 | the evaluated curve passes through `p1` at `t = 0` and `p4` at `t = 1`, in both coordinates |
| BezierProperties.BernsteinPointSeparable | src/index.ts:65-88 | the x of the point depends only on the control points' x coordinates, and the y only on their y coordinates |
| BezierProperties.ConstantCurve | src/index.ts:64-89 | when all four control points coincide, the evaluated point is that point for every `t` |
| BezierProperties.BernsteinAxisReversal | src/index.ts:64-89 | evaluating the reversed control points at `1 - t` gives the same value as the original points at `t` |
| BezierProperties.Curve2AtHalf | src/index.ts:38-43 | the second example curve evaluates to exactly `(0.23, 0.6575)` at `t = 1/2` |
| Bezier.InteriorSampleCount | src/index.ts:96 | the loop `for (i = 1; i < sampleCount; i++)` makes no pass when `sampleCount <= 1`; otherwise it makes `k` passes with `k < sampleCount <= k + 1` |
| Bezier.Samples | src/index.ts:96-97 | the first `k` samples of the loop, one point per pass |
| Bezier.SamplesAt | src/index.ts:96-97 | the `j`-th sample is the curve at `(j + 1) / sampleCount`; a sample exists only when `sampleCount > 1` |
| Bezier.Polyline | src/index.ts:91-108 | the chain of points has one point per loop pass plus the two ends; it starts at `p1` and ends at `p4` |
| Bezier.PolylineAt | src/index.ts:96-97 | the `k`-th interior point of the chain is the curve at `k / sampleCount` |
| Bezier.SegmentLength | src/index.ts:98-100 | `sqrt(dx * dx + dy * dy)` for the step from the last point to the new one is the distance between them |
| Bezier.GetCubicBezierLength | src/index.ts:91-108 | the result is the length of the chain `p1`, the samples, `p4`; under the square-root laws it is non-negative and at least the chord `p1`–`p4` |
| Bezier.LengthAtLeastChord | src/index.ts:91-108 | under the square-root laws, the chain's length is non-negative and at least the chord from `p1` to `p4` |
| BezierProperties.SegmentCount | src/index.ts:96-106 | for a whole number `n >= 1` of samples the loop makes `n - 1` passes, and the chain has exactly `n` segments |
| BezierProperties.FewSamplesChord | src/index.ts:104-106 | for `sampleCount <= 1` the chain is `[p1, p4]` and its length is the chord from `p1` to `p4` |
| BezierProperties.ConstantCurveLength | src/index.ts:91-108 | when all four control points coincide, the estimated length is `0` for every sample count |
| Geometry.SqrtZero | src/index.ts:100 | a routine obeying the square-root laws maps `0` to `0` |
| Geometry.DistNonNegative | src/index.ts:100 | each segment length is non-negative |
| Geometry.DistSelf | src/index.ts:100 | a segment from a point to itself has length `0` |
| Geometry.TriangleInequality | src/index.ts:100 | going straight from `a` to `c` is never longer than going through `b`; this follows from the square-root laws |
| Geometry.PathLengthSnoc | src/index.ts:100 | adding one point to the chain adds exactly the one new segment's length to the total |
| Geometry.PathLengthNonNegative | src/index.ts:100-106 | a total of segment lengths is non-negative |
| Geometry.PathLengthAtLeastChord | src/index.ts:96-106 | a chain is never shorter than the straight segment between its first and last points |
| Geometry.PathLengthConstant | src/index.ts:91-108 | a chain whose points all coincide has length `0` |

## Left out

- Canvas and DOM drawing (`src/index.ts:110-128`): these are calls into the browser, which is not modelled.
- The console loop and `console.log` (`src/index.ts:52-58`, `src/index.ts:133`): output only. The loop also steps `i` by a floating-point `0.1`.
- `round2` (`src/index.ts:60-62`): formatting that depends on IEEE-754 details (`Number.EPSILON`, `Math.round`).
- IEEE-754 double arithmetic: rounding, `NaN` and `Infinity` are not modelled. In particular, an infinite `sampleCount` (for which the code's loop never ends) has no counterpart among the reals.
- `Math.sqrt`: it is a parameter of `GetCubicBezierLength`, and the laws in `Geometry.IsSqrt` are the only facts known about it. The bounds that need those laws are stated under the hypothesis `IsSqrt(sqrt)`.
- The example curves (`src/index.ts:30-50`, `src/index.ts:113-118`) are not state of the model. Only the second curve appears, as the constant `BezierProperties.Curve2`, in one worked value.
- The numeric output for the collinear example (about 707.11) is an approximate floating-point result and is not stated.
- Monotonicity of the estimate in `sampleCount` is not claimed. The sample sets for different counts are not nested, and nothing in the code promises it.
- The accumulators `ax, bx, cx` and `ay, by, cy` of `cubicQxy` are named `xa, xb, xc` and `ya, yb, yc` in `Bezier.CubicQxy`, because `by` is a Dafny keyword.

## Findings

| source | as written | input that shows it | evidently intended | confidence | as-written member | corrected member |
|---|---|---|---|---|---|---|
| src/index.ts:22-27 | `getBezierCurveCubicPos` weights `p3` by `3(1-t)^2 t`, the same weight as `p2`, following the comment on `src/index.ts:1` | all four control values `1` at `t = 1/4`: the weights add up to `1.28125`, so the result is `1.28125` instead of `1` | the cubic Bernstein weight `3(1-t) t^2` for `p3`, the curve that `cubicQxy` computes | not executed; exact rational arithmetic | BezierProperties.CubicPosConstantCounterexample | Bezier.BernsteinAxis |

The as-written formula is `Bezier.BezierCurveCubicPos`.
`BezierProperties.CubicPosMinusBernstein` and
`BezierProperties.CubicPosAgreesIff` state exactly where it leaves the curve.
The corrected form `Bezier.BernsteinAxis` is what `Bezier.CubicQxy` is proved
to compute. Three properties are proved about it:

- `Bezier.BernsteinPointEndpoints`: it starts at `p1` and ends at `p4`.
- `BezierProperties.ConstantCurve`: its weights add up to one, so a constant
  curve stays constant.
- `BezierProperties.BernsteinAxisReversal`: it is symmetric under reversal.

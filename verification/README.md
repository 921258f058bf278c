# cubic_spline in Dafny

A model of the interpolation core of the `cubic_spline` Rust library. The
library turns a list of 2D control points into the points of a cardinal
(Catmull-Rom style) cubic Hermite spline through them. For every gap between
two neighbouring control points it takes the window
`(prev, current, next, next2)`. The tangents are `(next - prev) * tension`
and `(next2 - current) * tension`. It evaluates the Hermite basis
`c1 .. c4` at `u = t / n` for a fixed number `n` of samples per gap.

The library carries three generations of that engine, and all three are
modelled over one shared Hermite evaluation (`Hermite.Interp`):

- **The current engine** (`src/v1`). `Points` wraps a list of `Point`s,
  each with an optional tension of its own. `try_from` and
  `try_from_flatten` reject fewer than two points, `From` accepts any list,
  and `calc_spline` checks the count again. `PointsIter`
  slides a 4-point buffer over the list. `calc_spline` emits `n` samples per
  gap (`t = 0 .. n - 1`) and then the last control point. There is an
  optional hidden point before the first and after the last control point.
  Modules: `V1Points`, `V1PointsIter`, `V1Calc`.
- **The deprecated trait engine** (`src/points.rs`, `src/calc.rs`,
  `src/impls`). `GetPoint` reads points out of a flat `[x, y, x, y, ...]`
  slice or a slice of tuples and assembles each gap's window.
  `CalcPoints::calc` pushes `n + 1` samples per gap (`t = 0 ..= n`) into a
  `PushPoint` result, optionally mirroring each coordinate across a canvas
  width or height. Modules: `SrcPoints`, `SplineResult`, `LegacyCalc`.
- **The oldest direct functions** (`src/from_tuples.rs`, `src/from_raw.rs`).
  They pad the input by repeating its first and last points, push `n + 1`
  samples per gap, and can clamp each emitted `x` so that it never falls
  below the previously emitted one. Modules: `FromTuples`, `FromRaw`.

`src/convert.rs` (`flatten_to_tuples`) is modelled in `Convert`. The flat
layout shared by all of them is `Flat`. `Equivalences` relates the current
engine to the deprecated one.

The source's explicit `for` and `while` loops are `method`s, each proved
equal to a pure specification function. Its iterator chains (`map` and
`collect`, and the `for_each` of the inversions and of the flat export) are
recursive functions. The properties are proved about those functions: lengths, where
each sample lands, the curve passing through the control points, the
locality of tensions and hidden points, what the clamp and the inversions
do, and agreement between the generations.

Coordinates are `real`, so every sample is exact. The library's tests
record a reference curve whose values are dyadic rationals. The model proves
that curve's length in each generation, where the control points sit in it,
and its exact second point `(18.60009765625, 207.7001953125)`. The other
recorded values are not proved.

## Model

| member | source | states |
|---|---|---|
| Flat.Pairs | src/impls/impl_flatten_f64.rs:3-12 | the flat list seen as points: `|vals| / 2` pairs, pair `i` is `(vals[2i], vals[2i+1])`, an unpaired trailing value is dropped |
| Flat.FlattenIndex | src/v1/points.rs:362-371 | laying points out flat puts point `i`'s `x` at `2i` and its `y` at `2i + 1` |
| Flat.PairsOfFlatten | src/impls/impl_flatten_f64.rs:3-19 | reading back what was pushed flat gives the pushed points (inverse of flattening) |
| Flat.FlattenOfPairs | src/impls/impl_flatten_f64.rs:3-19 | an even-length flat list is recovered from its points (the other direction of the inverse) |
| Flat.FlattenAppend | src/impls/impl_flatten_f64.rs:15-19 | pushing points flat one batch after another is the concatenation of the flat batches |
| Flat.PairsAppend | src/impls/impl_flatten_f64.rs:15-19 | pushing `x` then `y` onto a flat buffer of whole points adds exactly the point `(x, y)` to its point view |
| Flat.PairsAppendFlatten | src/impls/impl_flatten_f64.rs:15-19 | pushing a batch of points flat adds that batch, in order, to the point view |
| Hermite.InterpIsHermiteCubic | src/v1/calc.rs:53-71 | `Interp`, the source's `c1 * cur + c2 * next + c3 * t1 + c4 * t2`, is the one cubic that starts at `cur` with slope `t1 = (next - prev) * tension` and ends at `next` with slope `t2 = (next2 - cur) * tension`: any power-form cubic meeting those four conditions equals it for every `u` |
| Hermite.InterpPowerForm | src/v1/calc.rs:53-71 | the curve in power form is `cur + t1 u + (3 (next - cur) - 2 t1 - t2) u^2 + (2 (cur - next) + t1 + t2) u^3`, whose value runs from `cur` to `next` and whose slope runs from `t1` to `t2` |
| Hermite.BasisMoments | src/v1/calc.rs:65-68 | the weights `c1 .. c4` sum to 1, and their moments are `u`, `u^2` and `u^3` |
| Hermite.ParamScaled | src/v1/calc.rs:59 | sample `t` of `n` sits at `u` with `u * n == t` |
| Hermite.Param | src/v1/calc.rs:59 | the sample parameter `t / n` lies in `[0, 1]`, and below 1 for `t < n` |
| Hermite.BasisAtEnds | src/v1/calc.rs:65-68 | the weights are `(1, 0, 0, 0)` at `u = 0` and `(0, 1, 0, 0)` at `u = 1` |
| Hermite.InterpAtStart | src/v1/calc.rs:65-71 | every segment starts exactly at its current point, whatever the tangents |
| Hermite.InterpAtEnd | src/calc.rs:50-63 | every segment ends exactly at its next point, whatever the tangents |
| Hermite.ParamAtEnds | src/calc.rs:50-51 | sample 0 has parameter 0 and sample `n` parameter 1 |
| V1Points.SegmentTension | src/v1/points.rs:72-91 | `NewPoint` and `WithTension` keep the coordinates; a segment starting at a `NewPoint` uses the global tension, one starting at a `WithTension` point its own |
| V1Points.ApproxEqMeaning | src/v1/points.rs:119-121 | `ApproxEqWithPrecision` holds iff both coordinate differences lie strictly inside `(-precision, precision)`, and it is symmetric |
| V1Points.ApproxEqDefault | src/v1/points.rs:7-107 | `ApproxEq` holds iff both coordinate differences lie strictly inside `(-1e-6, 1e-6)` |
| V1Points.ApproxEqOrder | src/v1/points.rs:119-121 | a point is approximately equal to itself iff the precision is positive; a coarser precision accepts whatever a finer one does; the tension is never compared |
| V1Points.ApproxEqExamples | src/v1/points.rs:96-117 | the documented comparisons hold; a difference of `0.25` passes at precision `0.5`, and a difference of exactly `0.5` does not |
| V1Points.InvertPointMirror | src/v1/points.rs:137-157 | `InvertPointHorizontally` moves only `x`, to `x'` with `x + x' == width`, and `InvertPointVertically` only `y`, with `y + y' == height`; each undoes itself, and the two commute |
| V1Points.InvertPointExamples | src/v1/points.rs:127-157 | the documented examples: `(1, 3)` becomes `(2, 3)` in a width of 3 and `(1, 4)` in a height of 7 |
| V1Points.InvertHorizontally | src/v1/points.rs:271-273 | every point's `x` becomes `width - x`; `y`, tension and count are kept |
| V1Points.InvertVertically | src/v1/points.rs:289-291 | every point's `y` becomes `height - y`; `x`, tension and count are kept |
| V1Points.InvertTwice | src/v1/points.rs:137-157 | inverting twice with the same width (height) restores the points |
| V1Points.InversionsCommute | src/v1/points.rs:137-157 | the horizontal and vertical inversions commute |
| V1Points.InversionExamples | src/v1/points.rs:257-291 | the documented inversion results, including `y = 390` becoming 10 on a canvas of height 400 |
| V1Points.FromPairs | src/v1/points.rs:327-334 | `Points::from` never fails, keeps order and count, and gives every point the global tension |
| V1Points.TryFromPairs | src/v1/points.rs:336-348 | `try_from` fails with `TooFewPoints` exactly below two points, and otherwise returns the points in order |
| V1Points.TryFromFlatten | src/v1/points.rs:233-255 | an odd count is exactly `MissingY`; an even count below four values is exactly `TooFewPoints`; otherwise point `i` is `(vals[2i], vals[2i+1])` |
| V1Points.DecodeFlatten | src/v1/points.rs:233-255 | the streaming decoder (one pending `x` awaiting its `y`) agrees with `TryFromFlatten` on every input |
| V1Points.ToPairs | src/v1/points.rs:350-354 | the tuple export keeps order and count and drops the tension |
| V1Points.ToFlat | src/v1/points.rs:362-371 | the flat export has `2N` values, `x` at even and `y` at odd positions |
| V1Points.FlattenRoundTrip | src/v1/points.rs:233-255 | decoding the flat export of a valid list gives back its coordinates, tensions dropped |
| V1Points.PairsRoundTrip | src/v1/points.rs:327-354 | converting tuples to points and back is the identity |
| V1Points.DecodeExamples | src/tests/mod.rs:93-138 | the error cases of the library's tests: empty, one value, one point and three values, plus a valid two-point list |
| V1PointsIter.New | src/v1/points_iter.rs:14-30 | the fresh iterator is valid and holds the window of gap 0 |
| V1PointsIter.UpdateCurrent | src/v1/points_iter.rs:37-51 | shifting the buffer and fetching the new `next2` turns the window of gap `index - 1` into the window of gap `index` |
| V1PointsIter.Next | src/v1/points_iter.rs:57-73 | yields `None` exactly once every gap has been visited, otherwise the window of the current gap, and keeps the state valid |
| V1PointsIter.Windows | src/v1/points_iter.rs:13-74 | draining gives exactly `N - 1` windows with `curr`/`next` the gap's points, `prev` the hidden start point or first point for gap 0, and `next2` the hidden end point or last point at the end, except the second point when `N = 2` |
| V1Calc.Spline | src/v1/calc.rs:26-85 | fails with `TooFewPoints` exactly below two points; otherwise `(N - 1) * n + 1` points ending with the last control point, none carrying a tension |
| V1Calc.WindowSamples | src/v1/calc.rs:51-74 | the `n` samples of one window, as the source computes them, are the window's curve points at `t / n` |
| V1Calc.CalcSpline | src/v1/calc.rs:26-85 | the source's loop over the sliding iterator computes exactly `Spline` |
| V1Calc.SplineSample | src/v1/calc.rs:44-74 | sample `t` of gap `j` is at position `j * n + t` |
| V1Calc.SplineJoin | src/v1/calc.rs:58-73 | the curve passes through every control point: position `j * n` is point `j` |
| V1Calc.TensionLocality | src/v1/calc.rs:50-56 | changing point `j`'s tension changes at most positions `j * n .. j * n + n - 1` |
| V1Calc.LastTensionUnused | src/v1/calc.rs:50-82 | the last point's tension is never read |
| V1Calc.HiddenStartLocality | src/v1/points_iter.rs:14-21 | the hidden start point can change only positions `1 .. n - 1` |
| V1Calc.DocumentedLengths | src/v1/calc.rs:13-44 | the documented lengths (3 points: 33; 4: 49; 2: 17; 5 points with 33 segments: 133), and with zero segments only the last point |
| V1Calc.ReferenceCurveJoins | src/lib.rs:11-19 | the reference curve has 49 points and passes through its control points at 0, 16, 32 and 48 |
| V1Calc.ReferenceCurveSecondPoint | src/v1/calc.rs:50-73 | the reference curve's second point is exactly `(18.60009765625, 207.7001953125)` |
| V1Calc.ReferenceSecondSample | src/test.rs:125-127 | the Hermite value behind that second point, computed exactly |
| SrcPoints.SrcPoints.Len | src/impls/impl_flatten_f64.rs:10-12 | the length is the number of points the wrapper exposes (half the flat length, rounded down) |
| SrcPoints.SrcPoints.Get | src/impls/impl_flatten_f64.rs:4-9 | a lookup succeeds exactly for indices below the length and returns that point; for the flat layout, both values must exist |
| SrcPoints.SrcPoints.Last | src/points.rs:66-68 | `last` is the final point |
| SrcPoints.SrcPoints.GetUnchecked | src/impls/impl_tuple_f64.rs:44-48 | an in-range unchecked read agrees with the bounds-checked `Get` |
| SrcPoints.SrcPoints.PointsToCalc | src/points.rs:70-95 | no window exactly when `index + 1` is missing; `prev` falls back to the hidden start point then `current`; `next2` falls back to the hidden end point then `next` |
| SrcPoints.FlatAndTupleAgree | src/impls/impl_flatten_f64.rs:3-12 | a flat wrapper and a tuple wrapper of the same points answer every lookup alike |
| SplineResult.SplineResult.PushSplinePoint | src/impls/impl_flatten_f64.rs:15-20 | a push appends `x` then `y` (flat) or `(x, y)` (tuples) and leaves the earlier contents unchanged |
| SplineResult.PushItems | src/impls/impl_flatten_f64.rs:15-20 | on a buffer of whole points a push adds exactly one point to its point view |
| SplineResult.PushAllItems | src/impls/impl_flatten_f64.rs:15-20 | a batch of pushes adds the batch, in order, to the point view, for both layouts |
| SplineResult.PushAllLayout | src/impls/impl_tuple.rs:12-16 | pushing a batch appends its flattened form (flat) or the batch itself (tuples) |
| SplineResult.PushAllConcat | src/impls/impl_tuple.rs:12-16 | pushing two batches one after the other is pushing their concatenation |
| LegacyCalc.PointsToCalcWindow | src/points.rs:70-95 | the lookup layer returns exactly the gap's window, with the hidden points as fallbacks |
| LegacyCalc.InvertInvolutive | src/calc.rs:30-71 | inverting a point twice with the same options restores it, and with neither a width nor a height set the inversion changes nothing |
| LegacyCalc.WindowPoints | src/calc.rs:50-74 | each window yields `n + 1` points, both ends included |
| LegacyCalc.CalcSamplesLength | src/calc.rs:37-74 | `calc` pushes `(len - 1) * (n + 1)` points, and none for fewer than two points |
| LegacyCalc.Calc | src/calc.rs:13-76 | the source loop, which skips gaps without a following point, pushes exactly the samples of every gap in order, into either result layout |
| LegacyCalc.CalcStep | src/calc.rs:37-49 | pushing gap `i`'s window after gaps `0 .. i - 1` gives the first `i + 1` gaps |
| LegacyCalc.PushWindow | src/calc.rs:45-74 | the sample loop of one window pushes exactly that window's `n + 1` points |
| LegacyCalc.InvertedSample | src/calc.rs:51-71 | one sample, computed as the source does and then inverted, is the window's `t`-th point |
| LegacyCalc.PushWindowPoint | src/calc.rs:73 | one push extends the pushed prefix of the window's points by one |
| LegacyCalc.CalcSampleAt | src/calc.rs:37-74 | sample `t` (`0 <= t <= n`) of gap `i` is pushed at position `i * (n + 1) + t` |
| LegacyCalc.SamplePointEnds | src/calc.rs:50-71 | a window's first sample is its inverted current point and its last sample its inverted next point |
| LegacyCalc.CalcEnds | src/calc.rs:50-63 | without inversion gap `i` starts at point `i` and ends at point `i + 1` |
| LegacyCalc.CalcDuplicatesJoins | src/calc.rs:50 | every interior control point is pushed twice in a row, inverted or not |
| LegacyCalc.WindowInversion | src/calc.rs:65-71 | a window's inverted samples are its plain samples, mirrored |
| LegacyCalc.CalcInversion | src/calc.rs:30-71 | setting a width or height mirrors every pushed coordinate and changes nothing else, not even the count |
| Equivalences.WindowsAgree | src/points.rs:70-95 | the current iterator and the deprecated lookup build the same window for every gap, unless there are exactly two points and a hidden end point |
| Equivalences.HiddenEndDivergence | src/v1/points_iter.rs:14-21 | with two points and a hidden end point, the current engine's `next2` is the second point and the deprecated engine's is the hidden end point |
| Equivalences.SampleAtAgrees | src/calc.rs:45-63 | with the global tension and no inversion, both engines compute the same sample `t` of gap `j` |
| Equivalences.SamplesAgree | src/calc.rs:37-73 | where both emit, they agree: position `j * n + t` of the current curve equals position `j * (n + 1) + t` of the deprecated one |
| Equivalences.HiddenEndSampleDiverges | src/v1/points_iter.rs:19 | a concrete two-point input on which the two engines' middle samples differ (`y = 0` against `y = -0.0625`) |
| FromTuples.Padded | src/from_tuples.rs:17-18 | padding adds one point at each end: a copy of the first point in front and a copy of the last at the back |
| FromTuples.WindowSamples | src/from_tuples.rs:24-49 | each padded window yields `n + 1` samples |
| FromTuples.ClampedShape | src/from_tuples.rs:51-58 | the clamp keeps every `y` and never lowers an `x`; with it on, the pushed `x` values never step back; with it off, nothing changes |
| FromTuples.ClampedIsRunningMax | src/from_tuples.rs:51-58 | with the clamp on, each pushed `x` is the running maximum of the raw `x` values so far |
| FromTuples.GetCurvePoints | src/from_tuples.rs:3-65 | the source's padded double loop computes exactly `Curve`: a single point comes back unchanged, otherwise the clamped samples of every padded window |
| FromTuples.PushWindow | src/from_tuples.rs:24-61 | the inner loop appends the clamped samples of one window |
| FromTuples.WindowSample | src/from_tuples.rs:25-49 | one sample, computed as the source does, is the window's `t`-th sample |
| FromTuples.PushWindowSample | src/from_tuples.rs:51-60 | one pass of the inner loop extends the clamped prefix by one sample |
| FromTuples.PushSample | src/from_tuples.rs:51-60 | one push appends the clamped sample: its `y` unchanged and its `x` never lowered |
| FromTuples.PaddedWindowIsGapWindow | src/from_tuples.rs:17-28 | padding plays the role of absent hidden points: padded window `j + 1` is the deprecated engine's window of gap `j` |
| FromTuples.RawPrefixIsCalcPrefix | src/from_tuples.rs:23-49 | the unclamped samples of the first `m` windows are what the deprecated engine pushes for its first `m` gaps |
| FromTuples.RawSamplesAreCalcSamples | src/from_tuples.rs:23-49 | all unclamped samples equal the deprecated engine's output for the same points without hidden points or inversion |
| FromTuples.CurveLength | src/from_tuples.rs:17-62 | two or more points give `(N - 1) * (n + 1)` curve points |
| FromTuples.CurveEnds | src/from_tuples.rs:24-49 | without the clamp, window `j` starts at point `j` and ends at point `j + 1` |
| FromTuples.CurveStartsAtFirstPoint | src/from_tuples.rs:51-58 | the curve starts at the first point, clamp or not |
| FromTuples.ClampedFirst | src/from_tuples.rs:52 | the clamp leaves the first sample alone, since nothing was pushed before it |
| FromTuples.ClampedKeepsRepeats | src/from_tuples.rs:51-58 | two equal consecutive raw samples stay equal after clamping |
| FromTuples.CurveDuplicatesJoins | src/from_tuples.rs:23-61 | every interior control point appears twice in a row, with or without the clamp |
| FromTuples.FourPointJoins | src/from_tuples.rs:23-61 | an unclamped four-point curve has `3(n + 1)` points and meets its control points at `0`, `n`, `n + 1`, `2n + 1`, `2n + 2` and `3n + 2` |
| FromTuples.ReferenceCurveJoins | src/test.rs:120-188 | the reference tuple curve has 51 points and holds the control points at 0, 16 and 17, 33 and 34, and 50 |
| FromTuples.SecondSample | src/from_tuples.rs:17-49 | without the clamp, the second curve point is the first padded window `(p0, p0, p1, p2)` at `u = 1 / n` |
| FromTuples.ReferenceCurveSecondPoint | src/test.rs:125-127 | the reference tuple curve's second point is exactly `(18.60009765625, 207.7001953125)` |
| FromRaw.Truncated | src/from_raw.rs:15-17 | an odd-length input loses exactly its last value; an even one is kept |
| FromRaw.PadFlat | src/from_raw.rs:22-25 | the two front inserts and two pushes put the first pair in front and the last pair at the back |
| FromRaw.PadFlatIsPadded | src/from_raw.rs:22-25 | flat padding is the tuple padding laid out flat |
| FromRaw.GetCurvePoints | src/from_raw.rs:3-67 | the source function computes exactly `Curve`: short inputs come back unchanged, an odd count is truncated, otherwise the flattened tuple curve |
| FromRaw.PaddedLoop | src/from_raw.rs:22-64 | padding and then walking the flat windows gives the flattened tuple curve |
| FromRaw.WindowsLoop | src/from_raw.rs:29-64 | the flat loop `i = 2, 4, ...` over the padded list pushes the flattened tuple curve |
| FromRaw.WindowStep | src/from_raw.rs:30-62 | one outer pass pushes the flattened clamped samples of padded window `i / 2` |
| FromRaw.FlatWindow | src/from_raw.rs:32-51 | the flat reads `pts[i - 2 .. i + 5]` at `i = 2w` are padded window `w` |
| FromRaw.PushFlatWindow | src/from_raw.rs:31-62 | the inner loop appends one window's clamped samples, flat |
| FromRaw.PushFlatWindowSample | src/from_raw.rs:53-61 | one pass of the inner loop extends the flat clamped prefix by one sample |
| FromRaw.PushFlatSample | src/from_raw.rs:53-61 | comparing with the value two positions from the end of the flat buffer is the tuple clamp against the last pushed `x` |
| FromRaw.FlatAndTupleCurvesAgree | src/from_raw.rs:3-67 | on two or more points the flat function returns the tuple function's curve, laid out flat |
| FromRaw.ShortInputs | src/from_raw.rs:11-20 | zero or one value comes back unchanged; two or three values come back as the first point |
| FromRaw.CurveLength | src/from_raw.rs:27-64 | `N >= 2` points give `2 (N - 1) (n + 1)` values |
| FromRaw.ClampedXNonDecreasing | src/from_raw.rs:53-58 | with the clamp on, the `x` values (even positions) of the flat output never decrease |
| FromRaw.ReferenceFlatCurve | src/test.rs:3-117 | the reference flat curve has 102 values, starting `10, 200, 18.60009765625, 207.7001953125` and ending `778, 200` |
| FromRaw.ReferenceFlatIsFlattened | src/test.rs:5 | the flat reference input is the tuple reference input, laid out flat |
| Convert.OddPairs | src/convert.rs:1-16 | the closed form of the walk: `(len - 1) / 2` pairs, pair `j` is `(pts[2j+1], pts[2j+2])` |
| Convert.FlattenToTuples | src/convert.rs:1-16 | the source loop (skip even positions, stop at the first odd position without a successor) yields exactly `OddPairs` |
| Convert.TwoPointCounterexample | src/convert.rs:4-13 | on `[x0, y0, x1, y1]` the walk gives `[(y0, x1)]` where pairing gives `[(x0, y0), (x1, y1)]` |
| Convert.NotInverseOfFlatten | src/convert.rs:1-16 | for every non-empty point list, the walk over its flat form returns one pair fewer, so it never undoes flattening |

## Left out

- `src/wasm.rs` (the WebAssembly entry point), `src/tfti.rs` (a `TryFrom` stand-in), `src/result.rs` constructors and accessors, the web demo and the build scripts: glue around the core, not part of this model.
- `src/v1/err.rs` messages and `Display`: only the two error variants are modelled.
- The options record of the current engine is not part of this model. `SplineOpts` is reconstructed from the fields that `src/v1/calc.rs`, `src/v1/points_iter.rs`, `src/calc.rs` and `src/wasm.rs` read. Its builder methods are left out.
- Floating point: coordinates are exact reals. Rounding, NaN and infinities are not modelled.
- LegacyCalc.Calc requires `n > 0`. With `n = 0` the source divides `0 / 0` and pushes NaN points, which exact reals cannot express. The current engine's `n = 0` case is modelled: it emits only the last point.
- FromTuples.GetCurvePoints requires `n > 0`, for the same reason: with `n = 0` it pushes NaN points.
- FromRaw.GetCurvePoints requires `n > 0` once two points remain, for the same reason.
- FromTuples.GetCurvePoints requires a non-empty input, because the source indexes `pts[0]` of an empty list and panics.
- SrcPoints.SrcPoints.Last requires at least one point, because the source computes `len - 1` on an empty wrapper and underflows.
- V1PointsIter.New requires at least two points, as `PointsIter::new` indexes `pts[1]`. Its only caller checks this first.
- `u32`/`usize` widths: counts are unbounded `nat`. The capacity products (`src/v1/calc.rs:44`, `src/from_tuples.rs:20`, `src/from_raw.rs:27`) can overflow a 32-bit `usize`. An example is two points with `num_of_segments = u32::MAX` on the WebAssembly target, where a debug build panics. Each product is at most four times the number of output elements, and every element takes at least 8 bytes. So a product overflows only when the output itself could not be allocated, and the unbounded model covers every run that can finish. The overflowing runs are not modelled.
- In-place mutation (`invert_*`, `push_spline_point`, `get_mut`) is modelled as pure functions that return the new value. `get_ref`, `get_mut` and `into_inner` are plain accessors and are left out.
- Generic `From`/`Into` conversions are modelled only for tuple and flat input (`FromPairs`, `TryFromPairs`, `TryFromFlatten`), where every point takes the global tension. `&Point` input is cloned (`src/v1/points.rs:174-178`), so each point keeps its own tension. `V1Calc.Spline` takes a `seq<Point>` with its tensions directly, which covers that case. Array input converts like tuple input. Conversions that users write for their own point types (`src/lib.rs:57-61`) can do anything and are outside the model.
- The `bench1` test measures time and is left out.
- The per-point custom tensions that `src/wasm.rs` sets are covered by the `tension` field of `Point`. The `-100` sentinel filter in `src/wasm.rs` is not modelled.
- `impl_tuple_f64.rs` repeats `impl_tuple.rs`. Both are modelled by the one tuple variant of `SrcPoints` and `SplineResult`, plus `GetUnchecked`.

## Findings

| source | as written | input that shows it | evidently intended | confidence | as-written member | corrected member |
|---|---|---|---|---|---|---|
| src/convert.rs:4-13 | skips even positions and pairs each odd position with the next value, so it pairs `(y_j, x_{j+1})` | `[x0, y0, x1, y1]` gives `[(y0, x1)]` | pair `(x_j, y_j)`: `[(x0, y0), (x1, y1)]`, the inverse of flattening | not executed | Convert.FlattenToTuples (with Convert.TwoPointCounterexample, Convert.NotInverseOfFlatten) | Flat.Pairs (with Flat.PairsOfFlatten, Flat.FlattenOfPairs) |

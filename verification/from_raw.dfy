/** The oldest engine over a flat `[x0, y0, x1, y1, ...]` list: the same
    computation as the tuple variant, read and written through flat indices
    (`x` at even and `y` at odd positions). */
module FromRaw {
  import opened Flat
  import opened Hermite
  import opened Options
  import opened FromTuples

  /** An odd-length input loses its last value. */
  function Truncated(vals: seq<real>): (r: seq<real>)
    ensures |r| % 2 == 0 && |r| == |vals| / 2 * 2
    ensures r == vals[..|r|]
  {
    if |vals| % 2 != 0 then vals[..|vals| - 1] else vals
  }

  /** The two front inserts and the two pushes of the source: they put the
      first pair in front and the last pair at the back. */
  method PadFlat(ev: seq<real>) returns (pts: seq<real>)
    requires |ev| >= 2
    ensures pts == [ev[0], ev[1]] + ev + [ev[|ev| - 2], ev[|ev| - 1]]
  {
    pts := [ev[1]] + ev;
    pts := [pts[1]] + pts;
    pts := pts + [pts[|pts| - 2]];
    pts := pts + [pts[|pts| - 2]];
  }

  /** Flat padding is the tuple padding, laid out flat. */
  lemma PadFlatIsPadded(ps: seq<Pair>)
    requires |ps| >= 1
    ensures var ev := Flatten(ps);
      [ev[0], ev[1]] + ev + [ev[|ev| - 2], ev[|ev| - 1]] == Flatten(Padded(ps))
  {
    FlattenPadded(ps);
    FlatEnds(ps);
  }

  /** Padding, laid out flat, puts the flat first and last pairs around the
      flat list. */
  lemma FlattenPadded(ps: seq<Pair>)
    requires |ps| >= 1
    ensures Flatten(Padded(ps)) == Flatten([ps[0]]) + Flatten(ps) + Flatten([ps[|ps| - 1]])
  {
    FlattenAppend([ps[0]] + ps, [ps[|ps| - 1]]);
    FlattenAppend([ps[0]], ps);
  }

  /** The flat first and last pairs are the first two and last two values. */
  lemma FlatEnds(ps: seq<Pair>)
    requires |ps| >= 1
    ensures var ev := Flatten(ps);
      && Flatten([ps[0]]) == [ev[0], ev[1]]
      && Flatten([ps[|ps| - 1]]) == [ev[|ev| - 2], ev[|ev| - 1]]
  {
    var k := |ps| - 1;
    FlattenAt(ps, 0);
    FlattenAt(ps, k);
    FlattenSingle(ps[0]);
    FlattenSingle(ps[k]);
  }

  /** `get_curve_points` on a flat list: zero or one value comes back
      unchanged; an odd count is truncated; a single remaining point comes
      back unchanged; otherwise the flattened tuple curve of its pairs. The
      tuple variant needs `n > 0` as soon as two points remain. */
  function Curve(vals: seq<real>, opts: LegacyOpts): (r: seq<real>)
    requires |vals| >= 4 ==> opts.numOfSegments > 0
  {
    if |vals| <= 1 then vals
    else
      var ev := Truncated(vals);
      if |ev| == 2 then ev
      else Flatten(FromTuples.Curve(Pairs(ev), opts))
  }

  /** The source function: the early returns for short inputs, the
      truncation of an odd count, then the padded loop. */
  method GetCurvePoints(points: seq<real>, opts: LegacyOpts) returns (result: seq<real>)
    requires |points| >= 4 ==> opts.numOfSegments > 0
    ensures result == Curve(points, opts)
  {
    var pts := points;
    if |pts| == 0 || |pts| == 1 {
      return pts;
    }
    if |pts| % 2 != 0 {
      pts := pts[..|pts| - 1];
    }
    if |pts| == 2 {
      return pts;
    }
    assert pts == Truncated(points);
    FlattenOfPairs(pts);
    result := PaddedLoop(pts, Pairs(pts), opts);
  }

  /** Pad, then walk `i = 2, 4, ...` while `i < len - 4`, reading the
      window `pts[i - 2 .. i + 6]` and pushing `x` then `y`. */
  method PaddedLoop(ev: seq<real>, ghost ps: seq<Pair>, opts: LegacyOpts) returns (result: seq<real>)
    requires ev == Flatten(ps) && |ps| >= 2 && opts.numOfSegments > 0
    ensures result == Flatten(FromTuples.Curve(ps, opts))
  {
    var pts := PadFlat(ev);
    PadFlatIsPadded(ps);
    result := WindowsLoop(pts, ps, opts);
  }

  /** The outer loop itself, on the padded flat list. */
  method WindowsLoop(pts: seq<real>, ghost ps: seq<Pair>, opts: LegacyOpts) returns (result: seq<real>)
    requires |ps| >= 2 && opts.numOfSegments > 0
    requires pts == Flatten(Padded(ps)) && |pts| == 2 * |ps| + 4
    ensures result == Flatten(FromTuples.Curve(ps, opts))
  {
    result := [];
    var i := 2;
    ghost var done: nat := 0;
    while i < |pts| - 4
      invariant i == 2 * done + 2 && done <= |ps| - 1
      invariant result == Flatten(Clamped(opts.disallowXSteppingBack, RawPrefix(ps, opts, done)))
    {
      result := WindowStep(pts, ps, opts, i, done + 1, result);
      i := i + 2;
      done := done + 1;
    }
    AllWindowsDone(ps, opts, done, result);
  }

  /** One pass of the outer loop at flat index `i = 2w`: the samples of
      padded window `w` are pushed. */
  method WindowStep(pts: seq<real>, ghost ps: seq<Pair>, opts: LegacyOpts, i: nat, ghost w: nat, acc: seq<real>)
    returns (out: seq<real>)
    requires |ps| >= 1 && pts == Flatten(Padded(ps)) && opts.numOfSegments > 0
    requires i == 2 * w && 1 <= w < |ps|
    requires acc == Flatten(Clamped(opts.disallowXSteppingBack, RawPrefix(ps, opts, w - 1)))
    ensures out == Flatten(Clamped(opts.disallowXSteppingBack, RawPrefix(ps, opts, w)))
  {
    ghost var padded := Padded(ps);
    FlattenIndex(padded);
    FlatWindow(pts, padded, i, w);
    var q := Quad((pts[i - 2], pts[i - 1]), (pts[i], pts[i + 1]), (pts[i + 2], pts[i + 3]), (pts[i + 4], pts[i + 5]));
    ghost var raw := RawPrefix(ps, opts, w - 1);
    assert RawPrefix(ps, opts, w) == raw + WindowSamples(q, opts);
    out := PushFlatWindow(q, opts, raw, acc);
  }

  /** After the last window the pushed samples are the whole tuple curve. */
  lemma AllWindowsDone(ps: seq<Pair>, opts: LegacyOpts, m: nat, result: seq<real>)
    requires |ps| >= 2 && opts.numOfSegments > 0 && m == |ps| - 1
    requires result == Flatten(Clamped(opts.disallowXSteppingBack, RawPrefix(ps, opts, m)))
    ensures result == Flatten(FromTuples.Curve(ps, opts))
  {
  }

  /** The flat reads `pts[i - 2 .. i + 6]` at `i = 2w` are window `w` of
      the padded pairs. */
  lemma FlatWindow(pts: seq<real>, padded: seq<Pair>, i: nat, w: nat)
    requires |pts| == 2 * |padded|
    requires forall k :: 0 <= k < |padded| ==> pts[2 * k] == padded[k].0 && pts[2 * k + 1] == padded[k].1
    requires i == 2 * w && 1 <= w && w + 2 < |padded|
    ensures i + 5 < |pts|
    ensures Quad((pts[i - 2], pts[i - 1]), (pts[i], pts[i + 1]), (pts[i + 2], pts[i + 3]), (pts[i + 4], pts[i + 5]))
         == PaddedWindow(padded, w)
  {
    assert pts[2 * (w - 1)] == padded[w - 1].0 && pts[2 * (w - 1) + 1] == padded[w - 1].1;
    assert pts[2 * w] == padded[w].0 && pts[2 * w + 1] == padded[w].1;
    assert pts[2 * (w + 1)] == padded[w + 1].0 && pts[2 * (w + 1) + 1] == padded[w + 1].1;
    assert pts[2 * (w + 2)] == padded[w + 2].0 && pts[2 * (w + 2) + 1] == padded[w + 2].1;
  }

  /** The inner loop over `t = 0 ..= n` for one window, on the flat result. */
  method PushFlatWindow(q: Quad, opts: LegacyOpts, ghost raw: seq<Pair>, acc: seq<real>) returns (out: seq<real>)
    requires opts.numOfSegments > 0
    requires acc == Flatten(Clamped(opts.disallowXSteppingBack, raw))
    ensures out == Flatten(Clamped(opts.disallowXSteppingBack, raw + WindowSamples(q, opts)))
  {
    var n := opts.numOfSegments;
    ghost var w := WindowSamples(q, opts);
    out := acc;
    assert raw + w[..0] == raw;
    for t := 0 to n + 1
      invariant out == Flatten(Clamped(opts.disallowXSteppingBack, raw + w[..t]))
    {
      var x, y := WindowSample(q, opts, t);
      out := PushFlatWindowSample(opts.disallowXSteppingBack, w, x, y, t, raw, out);
    }
    assert w[..n + 1] == w;
  }

  /** One pass of the inner loop: push `x` then `y` of sample `t` of window
      `w` after `raw` and the samples before it. */
  method PushFlatWindowSample(clamp: bool, ghost w: seq<Pair>, x: real, y: real, t: nat,
                              ghost raw: seq<Pair>, acc: seq<real>) returns (out: seq<real>)
    requires t < |w| && (x, y) == w[t]
    requires acc == Flatten(Clamped(clamp, raw + w[..t]))
    ensures out == Flatten(Clamped(clamp, raw + w[..t + 1]))
  {
    ClampedStep(clamp, raw, w, t);
    out := PushFlatSample(clamp, acc, Clamped(clamp, raw + w[..t]), x, y);
  }

  /** One push of `x` then `y`: with the clamp on and at least one point
      already out, `x` is raised to the `x` two positions from the end. */
  method PushFlatSample(clamp: bool, acc: seq<real>, ghost pushed: seq<Pair>, x: real, y: real) returns (out: seq<real>)
    requires acc == Flatten(pushed)
    ensures out == Flatten(pushed + [ClampStep(clamp, pushed, (x, y))])
  {
    var cx := x;
    if clamp && |acc| >= 2 {
      var lastX := acc[|acc| - 2];
      FlattenAt(pushed, |pushed| - 1);
      if cx < lastX {
        cx := lastX;
      }
    }
    FlattenAppend(pushed, [ClampStep(clamp, pushed, (x, y))]);
    out := acc + [cx, y];
  }

  /** A flat list of two or more points gives the flattened tuple curve of
      its points: the flat test expectation is the tuple one, flattened. */
  lemma FlatAndTupleCurvesAgree(points: seq<Pair>, opts: LegacyOpts)
    requires |points| >= 2 && opts.numOfSegments > 0
    ensures Curve(Flatten(points), opts) == Flatten(FromTuples.Curve(points, opts))
  {
    PairsOfFlatten(points);
  }

  /** Zero or one value comes back unchanged; two or three values come back
      as the first point. */
  lemma ShortInputs(vals: seq<real>, opts: LegacyOpts)
    requires |vals| < 4
    ensures |vals| <= 1 ==> Curve(vals, opts) == vals
    ensures |vals| >= 2 ==> Curve(vals, opts) == vals[..2]
  {
  }

  /** For `N >= 2` points the flat curve has `2 (N - 1) (n + 1)` values. */
  lemma CurveLength(vals: seq<real>, opts: LegacyOpts)
    requires |vals| >= 4 && opts.numOfSegments > 0
    ensures |Curve(vals, opts)| == 2 * ((|vals| / 2 - 1) * (opts.numOfSegments + 1))
  {
    FromTuples.CurveLength(Pairs(Truncated(vals)), opts);
  }

  /** With the clamp on, the `x` values (even positions) never decrease. */
  lemma ClampedXNonDecreasing(vals: seq<real>, opts: LegacyOpts, k: nat)
    requires |vals| >= 4 && opts.numOfSegments > 0 && opts.disallowXSteppingBack
    requires 2 * k + 2 < |Curve(vals, opts)|
    ensures Curve(vals, opts)[2 * k] <= Curve(vals, opts)[2 * k + 2]
  {
    var c := FromTuples.Curve(Pairs(Truncated(vals)), opts);
    ClampedShape(true, RawSamples(Pairs(Truncated(vals)), opts));
    FlattenAt(c, k);
    FlattenAt(c, k + 1);
  }

  /** The flat points of the library's reference test. */
  const ReferenceFlat: seq<real> := [10.0, 200.0, 256.0, 390.0, 512.0, 10.0, 778.0, 200.0]

  /** The flat reference curve has 102 values, starting
      `10, 200, 18.60009765625, 207.7001953125` and ending `778, 200`. */
  lemma ReferenceFlatCurve(vals: seq<real>, opts: LegacyOpts)
    requires vals == ReferenceFlat && opts == DefaultLegacyOpts()
    ensures var r := Curve(vals, opts);
      && |r| == 102
      && r[0] == 10.0 && r[1] == 200.0 && r[2] == 18.60009765625 && r[3] == 207.7001953125
      && r[100] == 778.0 && r[101] == 200.0
  {
    ReferenceFlatIsFlattened();
    FromTuples.ReferenceCurveJoins(ReferenceTuples, opts);
    FromTuples.ReferenceCurveSecondPoint(ReferenceTuples, opts);
    FlatAndTupleCurvesAgree(ReferenceTuples, opts);
    FlatReference(FromTuples.Curve(ReferenceTuples, opts), Curve(vals, opts));
  }

  /** The flat facts of the reference curve, from its tuple facts. */
  lemma FlatReference(c: seq<Pair>, r: seq<real>)
    requires r == Flatten(c)
    requires |c| == 51 && c[0] == (10.0, 200.0) && c[1] == (18.60009765625, 207.7001953125) && c[50] == (778.0, 200.0)
    ensures |r| == 102
    ensures r[0] == 10.0 && r[1] == 200.0 && r[2] == 18.60009765625 && r[3] == 207.7001953125
    ensures r[100] == 778.0 && r[101] == 200.0
  {
    var zero: nat, one: nat, last: nat := 0, 1, 50;
    FlattenAt(c, zero);
    FlattenAt(c, one);
    FlattenAt(c, last);
  }

  /** The flat reference points are the tuple reference points, flattened. */
  lemma ReferenceFlatIsFlattened()
    ensures ReferenceFlat == Flatten(ReferenceTuples)
  {
    var f := Flatten(ReferenceTuples);
    FlattenIndex(ReferenceTuples);
    assert f[0] == 10.0 && f[1] == 200.0 && f[2] == 256.0 && f[3] == 390.0;
    assert f[4] == 512.0 && f[5] == 10.0 && f[6] == 778.0 && f[7] == 200.0;
  }
}

/** The oldest engine, `get_curve_points` over `(x, y)` tuples: the input is
    padded by repeating its first and last points, every gap of the padded
    list yields `n + 1` samples (`t = 0 ..= n`), and an optional clamp keeps
    each emitted `x` from falling below the previously emitted one. */
module FromTuples {
  import opened Wrappers
  import opened Flat
  import opened Hermite
  import opened Options
  import opened SampleIndex
  import LegacyCalc
  import V1Calc

  /** The padded list: the first point repeated in front, the last one
      repeated at the back. */
  function Padded(points: seq<Pair>): (r: seq<Pair>)
    requires |points| >= 1
    ensures |r| == |points| + 2
    ensures r[0] == points[0] && r[|r| - 1] == points[|points| - 1]
  {
    [points[0]] + points + [points[|points| - 1]]
  }

  /** The four consecutive padded points starting at `i - 1`. */
  function PaddedWindow(pts: seq<Pair>, i: nat): Quad
    requires 1 <= i && i + 2 < |pts|
  {
    Quad(pts[i - 1], pts[i], pts[i + 1], pts[i + 2])
  }

  /** The `n + 1` unclamped samples of one window. */
  function WindowSamples(q: Quad, opts: LegacyOpts): (r: seq<Pair>)
    requires opts.numOfSegments > 0
    ensures |r| == opts.numOfSegments + 1
  {
    seq(opts.numOfSegments + 1, t requires 0 <= t => InterpPair(q, opts.tension, Param(t, opts.numOfSegments)))
  }

  /** The unclamped samples of the first `m` windows (`i = 1 ..= m`) of the
      padded list. */
  function RawPrefix(points: seq<Pair>, opts: LegacyOpts, m: nat): seq<Pair>
    requires |points| >= 1 && opts.numOfSegments > 0 && m <= |points| - 1
  {
    if m == 0 then []
    else RawPrefix(points, opts, m - 1) + WindowSamples(PaddedWindow(Padded(points), m), opts)
  }

  /** All unclamped samples: windows `1 .. len(padded) - 2`. */
  function RawSamples(points: seq<Pair>, opts: LegacyOpts): seq<Pair>
    requires |points| >= 1 && opts.numOfSegments > 0
  {
    RawPrefix(points, opts, |points| - 1)
  }

  /** The point actually pushed for sample `p` after `acc` was pushed: with
      the clamp on, an `x` below the last pushed `x` is raised to it. */
  function ClampStep(clamp: bool, acc: seq<Pair>, p: Pair): Pair {
    if clamp && |acc| > 0 && p.0 < acc[|acc| - 1].0 then (acc[|acc| - 1].0, p.1) else p
  }

  /** The samples as pushed one by one through `ClampStep`. */
  function Clamped(clamp: bool, s: seq<Pair>): (r: seq<Pair>)
    ensures |r| == |s|
  {
    if |s| == 0 then []
    else
      var init := Clamped(clamp, s[..|s| - 1]);
      init + [ClampStep(clamp, init, s[|s| - 1])]
  }

  /** What the clamp does and does not do: every `y` is kept, no `x` goes
      down, with the clamp on the `x` values never step back, and with it
      off nothing changes. */
  lemma {:induction false} ClampedShape(clamp: bool, s: seq<Pair>)
    ensures var r := Clamped(clamp, s);
      && (forall k :: 0 <= k < |s| ==> r[k].1 == s[k].1)
      && (forall k :: 0 <= k < |s| ==> r[k].0 >= s[k].0)
      && (clamp ==> forall k :: 1 <= k < |s| ==> r[k - 1].0 <= r[k].0)
      && (!clamp ==> r == s)
    decreases |s|
  {
    if |s| > 0 {
      var init := s[..|s| - 1];
      ClampedShape(clamp, init);
      assert s == init + [s[|s| - 1]];
    }
  }

  /** The largest `x` of a non-empty list. */
  function MaxX(s: seq<Pair>): real
    requires |s| > 0
  {
    if |s| == 1 then s[0].0
    else
      var m := MaxX(s[..|s| - 1]);
      if s[|s| - 1].0 > m then s[|s| - 1].0 else m
  }

  /** With the clamp on, each pushed `x` is the running maximum of the raw
      `x` values so far. */
  lemma {:induction false} ClampedIsRunningMax(s: seq<Pair>, k: nat)
    requires k < |s|
    ensures Clamped(true, s)[k].0 == MaxX(s[..k + 1])
    decreases |s|
  {
    var init := s[..|s| - 1];
    if k < |s| - 1 {
      ClampedIsRunningMax(init, k);
      assert init[..k + 1] == s[..k + 1];
    } else if k > 0 {
      ClampedIsRunningMax(init, k - 1);
      assert init[..k] == s[..k + 1][..k];
    }
  }

  /** `get_curve_points`: a single point comes back unchanged; otherwise the
      clamped (or raw) samples of every padded window. An empty input makes
      the source index out of bounds, and `n = 0` makes `t / n` undefined,
      so both are excluded. */
  function Curve(points: seq<Pair>, opts: LegacyOpts): (r: seq<Pair>)
    requires |points| >= 1
    requires |points| >= 2 ==> opts.numOfSegments > 0
  {
    if |points| == 1 then points
    else Clamped(opts.disallowXSteppingBack, RawSamples(points, opts))
  }

  /** The source loop: pad, then for `i` in `1 .. len - 2` and `t` in
      `0 ..= n` evaluate the window and push the (clamped) sample. */
  method GetCurvePoints(points: seq<Pair>, opts: LegacyOpts) returns (result: seq<Pair>)
    requires |points| >= 1
    requires |points| >= 2 ==> opts.numOfSegments > 0
    ensures result == Curve(points, opts)
  {
    if |points| == 1 {
      return points;
    }
    var pts := [points[0]] + points + [points[|points| - 1]];
    assert pts == Padded(points);
    var clamp := opts.disallowXSteppingBack;
    result := [];
    for i := 1 to |pts| - 2
      invariant result == Clamped(clamp, RawPrefix(points, opts, i - 1))
    {
      var q := Quad(pts[i - 1], pts[i], pts[i + 1], pts[i + 2]);
      assert q == PaddedWindow(pts, i);
      result := PushWindow(q, opts, RawPrefix(points, opts, i - 1), result);
      assert RawPrefix(points, opts, i) == RawPrefix(points, opts, i - 1) + WindowSamples(q, opts);
    }
  }

  /** The inner loop over `t = 0 ..= n` for one window. */
  method PushWindow(q: Quad, opts: LegacyOpts, ghost raw: seq<Pair>, acc: seq<Pair>) returns (out: seq<Pair>)
    requires opts.numOfSegments > 0
    requires acc == Clamped(opts.disallowXSteppingBack, raw)
    ensures out == Clamped(opts.disallowXSteppingBack, raw + WindowSamples(q, opts))
  {
    var n := opts.numOfSegments;
    ghost var w := WindowSamples(q, opts);
    out := acc;
    assert raw + w[..0] == raw;
    for t := 0 to n + 1
      invariant out == Clamped(opts.disallowXSteppingBack, raw + w[..t])
    {
      var x, y := WindowSample(q, opts, t);
      out := PushWindowSample(opts.disallowXSteppingBack, w, x, y, t, raw, out);
    }
    assert w[..n + 1] == w;
  }

  /** Sample `t` of a window, evaluated as the source does (tangents scaled
      by the tension, then the four basis weights), is the `t`-th of the
      window's samples. */
  method WindowSample(q: Quad, opts: LegacyOpts, t: nat) returns (x: real, y: real)
    requires opts.numOfSegments > 0 && t <= opts.numOfSegments
    ensures t < |WindowSamples(q, opts)| && (x, y) == WindowSamples(q, opts)[t]
  {
    var tension := opts.tension;
    var t1x := (q.next.0 - q.prev.0) * tension;
    var t2x := (q.next2.0 - q.cur.0) * tension;
    var t1y := (q.next.1 - q.prev.1) * tension;
    var t2y := (q.next2.1 - q.cur.1) * tension;
    x, y := EvalSample(q, tension, t1x, t2x, t1y, t2y, Param(t, opts.numOfSegments));
  }

  /** One pass of the inner loop: push sample `t` of window `w` after `raw`
      and the samples before it. */
  method PushWindowSample(clamp: bool, ghost w: seq<Pair>, x: real, y: real, t: nat,
                          ghost raw: seq<Pair>, acc: seq<Pair>) returns (out: seq<Pair>)
    requires t < |w| && (x, y) == w[t]
    requires acc == Clamped(clamp, raw + w[..t])
    ensures out == Clamped(clamp, raw + w[..t + 1])
  {
    out := PushSample(clamp, acc, x, y);
    ClampedStep(clamp, raw, w, t);
  }

  /** One push of the source, behind the optional clamp against the last
      pushed `x`. */
  method PushSample(clamp: bool, acc: seq<Pair>, x: real, y: real) returns (out: seq<Pair>)
    ensures out == acc + [ClampStep(clamp, acc, (x, y))]
    ensures out[|acc|].1 == y
    ensures out[|acc|].0 >= x
  {
    var cx := x;
    if clamp && |acc| > 0 {
      var lastX := acc[|acc| - 1].0;
      if cx < lastX {
        cx := lastX;
      }
    }
    out := acc + [(cx, y)];
  }

  /** Pushing one more sample appends its clamped form. */
  lemma ClampedSnoc(clamp: bool, s: seq<Pair>, p: Pair)
    ensures Clamped(clamp, s + [p]) == Clamped(clamp, s) + [ClampStep(clamp, Clamped(clamp, s), p)]
  {
    assert (s + [p])[..|s|] == s;
  }

  /** Pushing sample `t` of window `w` after `raw` and the samples before it. */
  lemma ClampedStep(clamp: bool, raw: seq<Pair>, w: seq<Pair>, t: nat)
    requires t < |w|
    ensures Clamped(clamp, raw + w[..t + 1])
         == Clamped(clamp, raw + w[..t]) + [ClampStep(clamp, Clamped(clamp, raw + w[..t]), w[t])]
  {
    SnocSlice(raw, w, t);
    ClampedSnoc(clamp, raw + w[..t], w[t]);
  }

  /** The options of the deprecated engine that reproduce this one: no
      hidden points and no inversion. */
  function AsSplineOpts(opts: LegacyOpts): SplineOpts {
    SplineOpts(opts.tension, opts.numOfSegments, None, None, None, None)
  }

  /** Padding plays the role of absent hidden points: padded window `j + 1`
      is the deprecated engine's window of gap `j`. */
  lemma PaddedWindowIsGapWindow(points: seq<Pair>, opts: LegacyOpts, j: nat)
    requires j + 1 < |points|
    ensures PaddedWindow(Padded(points), j + 1) == LegacyCalc.GapWindow(points, AsSplineOpts(opts), j)
  {
  }

  /** The unclamped samples are exactly what the deprecated engine pushes
      for the same points without hidden points or inversion. */
  lemma {:induction false} RawPrefixIsCalcPrefix(points: seq<Pair>, opts: LegacyOpts, m: nat)
    requires |points| >= 1 && opts.numOfSegments > 0 && m <= |points| - 1
    ensures RawPrefix(points, opts, m) == LegacyCalc.CalcPrefix(points, AsSplineOpts(opts), m)
  {
    if m > 0 {
      RawPrefixIsCalcPrefix(points, opts, m - 1);
      PaddedWindowIsGapWindow(points, opts, m - 1);
      var q := PaddedWindow(Padded(points), m);
      assert WindowSamples(q, opts) == LegacyCalc.WindowPoints(q, AsSplineOpts(opts));
    }
  }

  /** `RawSamples` agrees with the deprecated engine's `calc`. */
  lemma RawSamplesAreCalcSamples(points: seq<Pair>, opts: LegacyOpts)
    requires |points| >= 1 && opts.numOfSegments > 0
    ensures RawSamples(points, opts) == LegacyCalc.CalcSamples(points, AsSplineOpts(opts))
  {
    RawPrefixIsCalcPrefix(points, opts, |points| - 1);
  }

  /** For two or more points the curve has `(N - 1) * (n + 1)` points. */
  lemma CurveLength(points: seq<Pair>, opts: LegacyOpts)
    requires |points| >= 2 && opts.numOfSegments > 0
    ensures |Curve(points, opts)| == (|points| - 1) * (opts.numOfSegments + 1)
  {
    RawSamplesAreCalcSamples(points, opts);
    LegacyCalc.CalcSamplesLength(points, AsSplineOpts(opts));
  }

  /** Without the clamp, window `j` starts at point `j` and ends at point
      `j + 1`; so the curve starts at the first point, ends at the last, and
      repeats every interior point twice in a row. */
  lemma CurveEnds(points: seq<Pair>, opts: LegacyOpts, j: nat)
    requires j + 1 < |points| && opts.numOfSegments > 0 && !opts.disallowXSteppingBack
    ensures 0 <= j * (opts.numOfSegments + 1) < |Curve(points, opts)|
         && Curve(points, opts)[j * (opts.numOfSegments + 1)] == points[j]
    ensures 0 <= j * (opts.numOfSegments + 1) + opts.numOfSegments < |Curve(points, opts)|
         && Curve(points, opts)[j * (opts.numOfSegments + 1) + opts.numOfSegments] == points[j + 1]
  {
    ClampedShape(false, RawSamples(points, opts));
    RawSamplesAreCalcSamples(points, opts);
    LegacyCalc.CalcEnds(points, AsSplineOpts(opts), j);
  }

  /** The clamp never touches the first sample, so the curve starts at the
      first point whether or not it is on. */
  lemma CurveStartsAtFirstPoint(points: seq<Pair>, opts: LegacyOpts)
    requires |points| >= 1 && (|points| >= 2 ==> opts.numOfSegments > 0)
    ensures |Curve(points, opts)| > 0 && Curve(points, opts)[0] == points[0]
  {
    if |points| >= 2 {
      var raw := RawSamples(points, opts);
      var first: nat := 0;
      RawSamplesAreCalcSamples(points, opts);
      LegacyCalc.CalcEnds(points, AsSplineOpts(opts), first);
      ClampedFirst(opts.disallowXSteppingBack, raw);
    }
  }

  /** The clamp has nothing to compare the first sample with. */
  lemma ClampedFirst(clamp: bool, s: seq<Pair>)
    requires |s| > 0
    ensures Clamped(clamp, s)[0] == s[0]
  {
    ClampedPrefix(clamp, s, 1);
    assert Clamped(clamp, s[..1]) == [s[0]];
  }

  /** The clamp keeps a repeated sample repeated: a raw `x` equal to the
      previous raw `x` is never below the previous pushed `x` after clamping
      both. */
  lemma ClampedKeepsRepeats(clamp: bool, s: seq<Pair>, k: nat)
    requires 1 <= k < |s| && s[k - 1] == s[k]
    ensures Clamped(clamp, s)[k - 1] == Clamped(clamp, s)[k]
  {
    var pre := s[..k];
    assert s[..k + 1] == pre + [s[k]];
    var c := Clamped(clamp, pre);
    ClampedSnoc(clamp, pre, s[k]);
    ClampedPrefix(clamp, s, k + 1);
    var full := Clamped(clamp, s);
    assert full[..k + 1] == c + [ClampStep(clamp, c, s[k])];
    assert full[k - 1] == full[..k + 1][k - 1] == c[k - 1];
    assert full[k] == full[..k + 1][k] == ClampStep(clamp, c, s[k]);
    assert pre[k - 1] == s[k];
    assert c[k - 1].1 == s[k].1 && c[k - 1].0 >= s[k].0;
  }

  /** Clamping a prefix gives the prefix of the clamped list. */
  lemma {:induction false} ClampedPrefix(clamp: bool, s: seq<Pair>, m: nat)
    requires m <= |s|
    ensures Clamped(clamp, s[..m]) == Clamped(clamp, s)[..m]
    decreases |s|
  {
    if m < |s| {
      ClampedPrefix(clamp, s[..|s| - 1], m);
      assert s[..|s| - 1][..m] == s[..m];
    } else {
      assert s[..m] == s;
    }
  }

  /** Interior control points appear twice in a row, with or without the
      clamp: the last sample of window `j` equals the first of window `j + 1`. */
  lemma CurveDuplicatesJoins(points: seq<Pair>, opts: LegacyOpts, j: nat)
    requires j + 2 < |points| && opts.numOfSegments > 0
    ensures var k := j * (opts.numOfSegments + 1) + opts.numOfSegments;
      && 0 <= k && k + 1 < |Curve(points, opts)|
      && Curve(points, opts)[k] == Curve(points, opts)[k + 1]
  {
    var n1 := opts.numOfSegments + 1;
    var raw := RawSamples(points, opts);
    RawSamplesAreCalcSamples(points, opts);
    LegacyCalc.CalcDuplicatesJoins(points, AsSplineOpts(opts), j);
    NextWindowStart(j, n1);
    ClampedKeepsRepeats(opts.disallowXSteppingBack, raw, (j + 1) * n1);
  }

  /** The tuple points of the library's reference test. */
  const ReferenceTuples: seq<Pair> := [(10.0, 200.0), (256.0, 390.0), (512.0, 10.0), (778.0, 200.0)]

  /** With tension 0.5 and 16 segments the reference curve has 51 points;
      the control points sit at 0, 16 and 17, 33 and 34, and 50. */
  lemma ReferenceCurveJoins(pts: seq<Pair>, opts: LegacyOpts)
    requires pts == ReferenceTuples && opts == DefaultLegacyOpts()
    ensures var r := Curve(pts, opts);
      && |r| == 51
      && r[0] == (10.0, 200.0) && r[16] == (256.0, 390.0) && r[17] == (256.0, 390.0)
      && r[33] == (512.0, 10.0) && r[34] == (512.0, 10.0) && r[50] == (778.0, 200.0)
  {
    FourPointJoins(pts, opts, Curve(pts, opts));
  }

  /** An unclamped curve through four points passes through each of them,
      the interior ones twice in a row. */
  lemma FourPointJoins(pts: seq<Pair>, opts: LegacyOpts, r: seq<Pair>)
    requires |pts| == 4 && opts.numOfSegments > 0 && !opts.disallowXSteppingBack
    requires r == Curve(pts, opts)
    ensures var n := opts.numOfSegments;
      && |r| == 3 * (n + 1)
      && r[0] == pts[0] && r[n] == pts[1] && r[n + 1] == pts[1]
      && r[2 * n + 1] == pts[2] && r[2 * n + 2] == pts[2] && r[3 * n + 2] == pts[3]
  {
    CurveLength(pts, opts);
    var zero: nat, one: nat, two: nat := 0, 1, 2;
    CurveEnds(pts, opts, zero);
    CurveEnds(pts, opts, one);
    CurveEnds(pts, opts, two);
  }

  /** Its second point is exactly `(18.60009765625, 207.7001953125)`. */
  lemma ReferenceCurveSecondPoint(pts: seq<Pair>, opts: LegacyOpts)
    requires pts == ReferenceTuples && opts == DefaultLegacyOpts()
    ensures var r := Curve(pts, opts);
      |r| > 1 && r[1] == (18.60009765625, 207.7001953125)
  {
    SecondSample(pts, opts, Curve(pts, opts));
    ParamScaled(1, 16);
    assert Param(1, 16) == 0.0625;
    V1Calc.ReferenceSecondSample();
  }

  /** Without the clamp, the second sample of a curve through three or more
      points is the first window, `(p0, p0, p1, p2)`, at `t = 1 / n`. */
  lemma SecondSample(pts: seq<Pair>, opts: LegacyOpts, r: seq<Pair>)
    requires |pts| >= 3 && opts.numOfSegments > 0 && !opts.disallowXSteppingBack
    requires r == Curve(pts, opts)
    ensures |r| > 1 && r[1] == InterpPair(Quad(pts[0], pts[0], pts[1], pts[2]), opts.tension, Param(1, opts.numOfSegments))
  {
    var zero: nat, one: nat := 0, 1;
    ClampedShape(false, RawSamples(pts, opts));
    RawSamplesAreCalcSamples(pts, opts);
    LegacyCalc.CalcSampleAt(pts, AsSplineOpts(opts), zero, one);
    assert LegacyCalc.GapWindow(pts, AsSplineOpts(opts), zero) == Quad(pts[0], pts[0], pts[1], pts[2]);
  }
}

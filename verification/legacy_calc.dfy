/** `CalcPoints::calc` of the deprecated engine: for every gap it pushes
    `n + 1` samples, `t = 0 ..= n`, so each interior control point is pushed
    twice in a row; only the global tension is used, and each pushed
    coordinate can be mirrored across a canvas width or height. */
module LegacyCalc {
  import opened Wrappers
  import opened Flat
  import opened Hermite
  import opened V1Points
  import opened Options
  import opened SrcPoints
  import opened SplineResult
  import opened SampleIndex

  /** A hidden point as the coordinate pair the lookup layer takes. */
  function HiddenCoord(p: Option<Point>): Option<Pair> {
    match p
    case Some(q) => Some(q.Coord())
    case None => None
  }

  /** The window of gap `i` of `items` with the hidden points of `opts`:
      `prev` falls back to the hidden start point and then to `cur`, `next2`
      to the hidden end point and then to `next`. */
  function GapWindow(items: seq<Pair>, opts: SplineOpts, i: nat): Quad
    requires i + 1 < |items|
  {
    Quad(if i == 0 then HiddenCoord(opts.hiddenPointAtStart).GetOr(items[0]) else items[i - 1],
         items[i],
         items[i + 1],
         if i + 2 < |items| then items[i + 2] else HiddenCoord(opts.hiddenPointAtEnd).GetOr(items[i + 1]))
  }

  /** The lookup layer assembles exactly the window of the gap. */
  lemma PointsToCalcWindow(src: SrcPoints, opts: SplineOpts, i: nat)
    requires i + 1 < src.Len()
    ensures src.PointsToCalc(i, HiddenCoord(opts.hiddenPointAtStart), HiddenCoord(opts.hiddenPointAtEnd))
         == Some(GapWindow(src.Items(), opts, i))
  {
  }

  /** The canvas inversion applied to each pushed point. */
  function Invert(c: Pair, opts: SplineOpts): Pair
  {
    var x := if opts.invertXWithWidth.Some? then opts.invertXWithWidth.value - c.0 else c.0;
    var y := if opts.invertYWithHeight.Some? then opts.invertYWithHeight.value - c.1 else c.1;
    (x, y)
  }

  /** Inverting twice with the same options restores the point, and with no
      width and no height set the inversion changes nothing. */
  lemma InvertInvolutive(c: Pair, opts: SplineOpts)
    ensures Invert(Invert(c, opts), opts) == c
    ensures opts.invertXWithWidth.None? && opts.invertYWithHeight.None? ==> Invert(c, opts) == c
  {
  }

  /** Sample `t` of window `q` under the global tension, inverted as asked. */
  function SamplePoint(q: Quad, opts: SplineOpts, t: nat): Pair
    requires opts.numOfSegments > 0
  {
    Invert(InterpPair(q, opts.tension, Param(t, opts.numOfSegments)), opts)
  }

  /** The `n + 1` samples of one window, both ends included. */
  function WindowPoints(q: Quad, opts: SplineOpts): (r: seq<Pair>)
    requires opts.numOfSegments > 0
    ensures |r| == opts.numOfSegments + 1
  {
    seq(opts.numOfSegments + 1, t requires 0 <= t => SamplePoint(q, opts, t))
  }

  /** Number of gaps the loop over `0 .. len` visits: `max(len - 1, 0)`. */
  function Gaps(items: seq<Pair>): nat {
    if |items| >= 2 then |items| - 1 else 0
  }

  /** The samples of the first `m` gaps. */
  function CalcPrefix(items: seq<Pair>, opts: SplineOpts, m: nat): (r: seq<Pair>)
    requires opts.numOfSegments > 0 && m <= Gaps(items)
  {
    if m == 0 then []
    else CalcPrefix(items, opts, m - 1) + WindowPoints(GapWindow(items, opts, m - 1), opts)
  }

  /** Everything `calc` pushes, in order. */
  function CalcSamples(items: seq<Pair>, opts: SplineOpts): (r: seq<Pair>)
    requires opts.numOfSegments > 0
  {
    CalcPrefix(items, opts, Gaps(items))
  }

  /** The first `m` gaps push `n + 1` samples each. */
  lemma {:induction false} CalcPrefixLength(items: seq<Pair>, opts: SplineOpts, m: nat)
    requires opts.numOfSegments > 0 && m <= Gaps(items)
    ensures |CalcPrefix(items, opts, m)| == m * (opts.numOfSegments + 1)
  {
    if m > 0 {
      CalcPrefixLength(items, opts, m - 1);
      NextWindowStart(m - 1, opts.numOfSegments + 1);
    }
  }

  /** `calc` pushes `(len - 1) * (n + 1)` points, and none for fewer than
      two points. */
  lemma CalcSamplesLength(items: seq<Pair>, opts: SplineOpts)
    requires opts.numOfSegments > 0
    ensures |items| < 2 ==> CalcSamples(items, opts) == []
    ensures |items| >= 2 ==> |CalcSamples(items, opts)| == (|items| - 1) * (opts.numOfSegments + 1)
  {
    CalcPrefixLength(items, opts, Gaps(items));
  }

  /** The loop of the source: gaps without a following point are skipped,
      and each remaining gap pushes its `n + 1` samples. */
  method Calc(src: SrcPoints, opts: SplineOpts, result: SplineResult) returns (out: SplineResult)
    requires opts.numOfSegments > 0
    ensures out == result.PushAll(CalcSamples(src.Items(), opts))
  {
    var hiddenStart := HiddenCoord(opts.hiddenPointAtStart);
    var hiddenEnd := HiddenCoord(opts.hiddenPointAtEnd);
    ghost var items := src.Items();
    out := result;
    ghost var done: nat := 0;
    for i := 0 to src.Len()
      invariant done == if i <= Gaps(items) then i else Gaps(items)
      invariant out == result.PushAll(CalcPrefix(items, opts, done))
    {
      var window := src.PointsToCalc(i, hiddenStart, hiddenEnd);
      if window.None? {
        continue;
      }
      var q := window.value;
      CalcStep(src, opts, result, i);
      out := PushWindow(q, opts, out);
      done := i + 1;
    }
  }

  /** Pushing the window the lookup layer returns for gap `i` after the
      first `i` gaps pushes the first `i + 1` gaps. */
  lemma CalcStep(src: SrcPoints, opts: SplineOpts, result: SplineResult, i: nat)
    requires opts.numOfSegments > 0 && i < Gaps(src.Items())
    ensures src.PointsToCalc(i, HiddenCoord(opts.hiddenPointAtStart), HiddenCoord(opts.hiddenPointAtEnd))
         == Some(GapWindow(src.Items(), opts, i))
    ensures result.PushAll(CalcPrefix(src.Items(), opts, i)).PushAll(WindowPoints(GapWindow(src.Items(), opts, i), opts))
         == result.PushAll(CalcPrefix(src.Items(), opts, i + 1))
  {
    PointsToCalcWindow(src, opts, i);
    PushAllConcat(result, CalcPrefix(src.Items(), opts, i), WindowPoints(GapWindow(src.Items(), opts, i), opts));
  }

  /** The sample loop of one window, `t = 0 ..= n`, with the inversion of
      each pushed coordinate. */
  method PushWindow(q: Quad, opts: SplineOpts, result: SplineResult) returns (out: SplineResult)
    requires opts.numOfSegments > 0
    ensures out == result.PushAll(WindowPoints(q, opts))
  {
    var n := opts.numOfSegments;
    var t1x, t2x, t1y, t2y := WindowTangents(q, opts.tension);
    ghost var w := WindowPoints(q, opts);
    out := result;
    for t := 0 to n + 1
      invariant out == result.PushAll(w[..t])
    {
      var x, y := InvertedSample(q, opts, t1x, t2x, t1y, t2y, t);
      out := PushWindowPoint(result, w, t, x, y, out);
    }
    assert w[..n + 1] == w;
  }

  /** Sample `t` of a window with the window's tangents, then the optional
      inversions: the `t`-th of the window's points. */
  method InvertedSample(q: Quad, opts: SplineOpts, t1x: real, t2x: real, t1y: real, t2y: real, t: nat)
    returns (x: real, y: real)
    requires opts.numOfSegments > 0 && t <= opts.numOfSegments
    requires TangentsFit(q, opts.tension, t1x, t2x, t1y, t2y)
    ensures t < |WindowPoints(q, opts)| && (x, y) == WindowPoints(q, opts)[t]
  {
    x, y := EvalSample(q, opts.tension, t1x, t2x, t1y, t2y, Param(t, opts.numOfSegments));
    if opts.invertXWithWidth.Some? {
      x := opts.invertXWithWidth.value - x;
    }
    if opts.invertYWithHeight.Some? {
      y := opts.invertYWithHeight.value - y;
    }
  }

  /** One pass of the sample loop: push point `t` of the window's points `w`. */
  method PushWindowPoint(result: SplineResult, ghost w: seq<Pair>, t: nat, x: real, y: real, acc: SplineResult)
    returns (out: SplineResult)
    requires t < |w| && (x, y) == w[t] && acc == result.PushAll(w[..t])
    ensures out == result.PushAll(w[..t + 1])
  {
    PushAllSnoc(result, w[..t], (x, y));
    assert w[..t + 1] == w[..t] + [(x, y)];
    out := acc.PushSplinePoint(x, y);
  }

  /** The first `k` gaps' samples are a prefix of the first `m` gaps' samples. */
  lemma {:induction false} CalcPrefixIsPrefix(items: seq<Pair>, opts: SplineOpts, k: nat, m: nat)
    requires opts.numOfSegments > 0 && k <= m <= Gaps(items)
    ensures CalcPrefix(items, opts, k) <= CalcPrefix(items, opts, m)
    decreases m
  {
    if k < m {
      CalcPrefixIsPrefix(items, opts, k, m - 1);
      var p := CalcPrefix(items, opts, m - 1);
      assert CalcPrefix(items, opts, m) == p + WindowPoints(GapWindow(items, opts, m - 1), opts);
    }
  }

  /** The samples of gap `i` follow those of the gaps before it. */
  lemma GapBlock(items: seq<Pair>, opts: SplineOpts, i: nat)
    requires opts.numOfSegments > 0 && i < Gaps(items)
    ensures CalcPrefix(items, opts, i) + WindowPoints(GapWindow(items, opts, i), opts) <= CalcSamples(items, opts)
  {
    CalcPrefixIsPrefix(items, opts, i + 1, Gaps(items));
  }

  /** Sample `t` (`0 <= t <= n`) of gap `i` is pushed at position `i * (n + 1) + t`. */
  lemma CalcSampleAt(items: seq<Pair>, opts: SplineOpts, i: nat, t: nat)
    requires opts.numOfSegments > 0 && i < Gaps(items) && t <= opts.numOfSegments
    ensures 0 <= i * (opts.numOfSegments + 1) + t < |CalcSamples(items, opts)|
         && CalcSamples(items, opts)[i * (opts.numOfSegments + 1) + t] == SamplePoint(GapWindow(items, opts, i), opts, t)
  {
    var pre := CalcPrefix(items, opts, i);
    GapBlock(items, opts, i);
    SampleInBlock(CalcSamples(items, opts), pre, WindowPoints(GapWindow(items, opts, i), opts), t);
    CalcPrefixLength(items, opts, i);
  }

  /** The first sample of a window is its (inverted) start and the last is
      its (inverted) end. */
  lemma SamplePointEnds(q: Quad, opts: SplineOpts, t: nat)
    requires opts.numOfSegments > 0
    ensures t == 0 ==> SamplePoint(q, opts, t) == Invert(q.cur, opts)
    ensures t == opts.numOfSegments ==> SamplePoint(q, opts, t) == Invert(q.next, opts)
  {
    ParamAtEnds(opts.numOfSegments);
    InterpAtStart(q, opts.tension);
    InterpAtEnd(q, opts.tension);
  }

  /** Without inversion, gap `i` starts at point `i` and ends at point
      `i + 1`: both ends of every gap are pushed. */
  lemma CalcEnds(items: seq<Pair>, opts: SplineOpts, i: nat)
    requires opts.numOfSegments > 0 && i < Gaps(items)
    requires opts.invertXWithWidth.None? && opts.invertYWithHeight.None?
    ensures 0 <= i * (opts.numOfSegments + 1) < |CalcSamples(items, opts)|
         && CalcSamples(items, opts)[i * (opts.numOfSegments + 1)] == items[i]
    ensures 0 <= i * (opts.numOfSegments + 1) + opts.numOfSegments < |CalcSamples(items, opts)|
         && CalcSamples(items, opts)[i * (opts.numOfSegments + 1) + opts.numOfSegments] == items[i + 1]
  {
    var first: nat, last: nat := 0, opts.numOfSegments;
    CalcSampleAt(items, opts, i, first);
    CalcSampleAt(items, opts, i, last);
    SamplePointEnds(GapWindow(items, opts, i), opts, first);
    SamplePointEnds(GapWindow(items, opts, i), opts, last);
  }

  /** Each interior control point is pushed twice in a row: the last sample
      of gap `i` equals the first of gap `i + 1`, inverted or not. */
  lemma CalcDuplicatesJoins(items: seq<Pair>, opts: SplineOpts, i: nat)
    requires opts.numOfSegments > 0 && i + 1 < Gaps(items)
    ensures var n1 := opts.numOfSegments + 1;
      && 0 <= i * n1 + opts.numOfSegments < |CalcSamples(items, opts)|
      && 0 <= (i + 1) * n1 < |CalcSamples(items, opts)|
      && CalcSamples(items, opts)[i * n1 + opts.numOfSegments] == CalcSamples(items, opts)[(i + 1) * n1]
  {
    var first: nat, last: nat := 0, opts.numOfSegments;
    CalcSampleAt(items, opts, i, last);
    CalcSampleAt(items, opts, i + 1, first);
    SamplePointEnds(GapWindow(items, opts, i), opts, last);
    SamplePointEnds(GapWindow(items, opts, i + 1), opts, first);
  }

  /** Inversion of one window's samples. */
  lemma WindowInversion(q: Quad, opts: SplineOpts)
    requires opts.numOfSegments > 0
    ensures var plain := WindowPoints(q, opts.(invertXWithWidth := None, invertYWithHeight := None));
            var r := WindowPoints(q, opts);
      forall t :: 0 <= t < |r| ==> r[t] == Invert(plain[t], opts)
  {
  }

  /** Setting a width (height) mirrors every pushed `x` (`y`) and leaves the
      other coordinate and the count untouched. */
  lemma {:induction false} CalcInversion(items: seq<Pair>, opts: SplineOpts, m: nat)
    requires opts.numOfSegments > 0 && m <= Gaps(items)
    ensures var plain := CalcPrefix(items, opts.(invertXWithWidth := None, invertYWithHeight := None), m);
            var r := CalcPrefix(items, opts, m);
      && |r| == |plain|
      && forall k :: 0 <= k < |r| ==> r[k] == Invert(plain[k], opts)
    decreases m
  {
    CalcPrefixLength(items, opts, m);
    CalcPrefixLength(items, opts.(invertXWithWidth := None, invertYWithHeight := None), m);
    if m > 0 {
      CalcInversion(items, opts, m - 1);
      var opts' := opts.(invertXWithWidth := None, invertYWithHeight := None);
      assert GapWindow(items, opts, m - 1) == GapWindow(items, opts', m - 1);
      WindowInversion(GapWindow(items, opts, m - 1), opts);
      ConcatPointwise(CalcPrefix(items, opts, m - 1), WindowPoints(GapWindow(items, opts, m - 1), opts),
                      CalcPrefix(items, opts', m - 1), WindowPoints(GapWindow(items, opts', m - 1), opts'), opts);
    }
  }

  /** Pointwise inversion carries over to concatenations. */
  lemma ConcatPointwise(a: seq<Pair>, b: seq<Pair>, a': seq<Pair>, b': seq<Pair>, opts: SplineOpts)
    requires |a| == |a'| && |b| == |b'|
    requires forall k :: 0 <= k < |a| ==> a[k] == Invert(a'[k], opts)
    requires forall k :: 0 <= k < |b| ==> b[k] == Invert(b'[k], opts)
    ensures forall k :: 0 <= k < |a + b| ==> (a + b)[k] == Invert((a' + b')[k], opts)
  {
  }
}

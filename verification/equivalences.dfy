/** How the current engine relates to the deprecated one: the same windows
    and the same samples at every position the current engine emits, except
    that with only two points the current iterator ignores the hidden end
    point while the deprecated lookup uses it. */
module Equivalences {
  import opened Wrappers
  import opened Flat
  import opened Hermite
  import opened V1Points
  import opened Options
  import opened V1PointsIter
  import opened V1Calc
  import opened LegacyCalc

  /** The current iterator's window of gap `j` is the deprecated lookup's,
      unless there are only two points and a hidden end point. */
  lemma WindowsAgree(pts: seq<Point>, opts: SplineOpts, j: nat)
    requires |pts| >= 2 && j < |pts| - 1
    requires |pts| >= 3 || opts.hiddenPointAtEnd.None?
    ensures WindowAt(pts, opts, j).Coords() == GapWindow(ToPairs(pts), opts, j)
  {
  }

  /** With two points and a hidden end point the two engines see different
      windows: the current one uses the second point as `next2`, the
      deprecated one the hidden end point. */
  lemma HiddenEndDivergence(pts: seq<Point>, opts: SplineOpts)
    requires |pts| == 2 && opts.hiddenPointAtEnd.Some?
    ensures WindowAt(pts, opts, 0).Coords().next2 == pts[1].Coord()
    ensures GapWindow(ToPairs(pts), opts, 0).next2 == opts.hiddenPointAtEnd.value.Coord()
  {
  }

  /** Sample `t` of gap `j` is the same point in both engines, given the
      global tension and no inversion; `items` is the deprecated engine's
      view of `pts`. */
  lemma SampleAtAgrees(pts: seq<Point>, items: seq<Pair>, opts: SplineOpts, j: nat, t: nat)
    requires |pts| >= 2 && j < |pts| - 1 && opts.numOfSegments > 0 && items == ToPairs(pts)
    requires pts[j].tension.None?
    requires opts.invertXWithWidth.None? && opts.invertYWithHeight.None?
    requires |pts| >= 3 || opts.hiddenPointAtEnd.None?
    ensures j + 1 < |items| && SampleAt(pts, opts, j, t).Coord() == SamplePoint(GapWindow(items, opts, j), opts, t)
  {
    WindowsAgree(pts, opts, j);
  }

  /** Where both engines sample, they agree: sample `t < n` of gap `j` sits
      at `j * n + t` in the current output and at `j * (n + 1) + t` in the
      deprecated one, given the global tension and no inversion. */
  lemma SamplesAgree(pts: seq<Point>, items: seq<Pair>, opts: SplineOpts, j: nat, t: nat)
    requires |pts| >= 2 && j < |pts| - 1 && t < opts.numOfSegments && items == ToPairs(pts)
    requires pts[j].tension.None?
    requires opts.invertXWithWidth.None? && opts.invertYWithHeight.None?
    requires |pts| >= 3 || opts.hiddenPointAtEnd.None?
    ensures j * opts.numOfSegments + t < |Spline(pts, opts).value|
    ensures 0 <= j * (opts.numOfSegments + 1) + t < |CalcSamples(items, opts)|
    ensures Spline(pts, opts).value[j * opts.numOfSegments + t].Coord()
         == CalcSamples(items, opts)[j * (opts.numOfSegments + 1) + t]
  {
    SplineSample(pts, opts, j, t);
    CalcSampleAt(items, opts, j, t);
    SampleAtAgrees(pts, items, opts, j, t);
  }

  /** A concrete instance of the divergence: for the points `(0, 0)` and
      `(1, 0)` with hidden end point `(1, 1)`, tension 0.5 and two segments,
      the current engine's middle sample lies on the line `y = 0` while the
      deprecated engine's dips to `y = -0.0625`. */
  lemma HiddenEndSampleDiverges(pts: seq<Point>, items: seq<Pair>, opts: SplineOpts)
    requires pts == [NewPoint(0.0, 0.0), NewPoint(1.0, 0.0)] && items == ToPairs(pts)
    requires opts == SplineOpts(0.5, 2, None, Some(NewPoint(1.0, 1.0)), None, None)
    ensures |Spline(pts, opts).value| == 3 && Spline(pts, opts).value[1].y == 0.0
    ensures |CalcSamples(items, opts)| == 3 && CalcSamples(items, opts)[1].1 == -0.0625
  {
    CurrentMidSample(pts, opts);
    TwoPointPairs(pts, items);
    DeprecatedMidSample(items, opts);
  }

  /** The deprecated engine's view of the two-point example. */
  lemma TwoPointPairs(pts: seq<Point>, items: seq<Pair>)
    requires pts == [NewPoint(0.0, 0.0), NewPoint(1.0, 0.0)] && items == ToPairs(pts)
    ensures items == [(0.0, 0.0), (1.0, 0.0)]
  {
    assert |items| == 2 && items[0] == pts[0].Coord() && items[1] == pts[1].Coord();
  }

  /** The current engine's middle sample of the two-point example. */
  lemma CurrentMidSample(pts: seq<Point>, opts: SplineOpts)
    requires pts == [NewPoint(0.0, 0.0), NewPoint(1.0, 0.0)]
    requires opts == SplineOpts(0.5, 2, None, Some(NewPoint(1.0, 1.0)), None, None)
    ensures |Spline(pts, opts).value| == 3 && Spline(pts, opts).value[1].y == 0.0
  {
    SplineSample(pts, opts, 0, 1);
    CurrentMidSampleAt(pts, opts);
  }

  /** Sample 1 of the only gap of the two-point example, from the flat window
      `(p0, p0, p1, p1)`. */
  lemma CurrentMidSampleAt(pts: seq<Point>, opts: SplineOpts)
    requires pts == [NewPoint(0.0, 0.0), NewPoint(1.0, 0.0)]
    requires opts == SplineOpts(0.5, 2, None, Some(NewPoint(1.0, 1.0)), None, None)
    ensures SampleAt(pts, opts, 0, 1).y == 0.0
  {
    var w := WindowAt(pts, opts, 0);
    assert w.Coords() == Quad((0.0, 0.0), (0.0, 0.0), (1.0, 0.0), (1.0, 0.0));
    assert w.curr.tension.GetOr(opts.tension) == 0.5;
    FlatWindowSample(w);
  }

  /** The middle sample of a flat window stays at `y = 0`. */
  lemma FlatWindowSample(w: Window)
    requires w.Coords() == Quad((0.0, 0.0), (0.0, 0.0), (1.0, 0.0), (1.0, 0.0))
    ensures SampleOf(w, 0.5, 1, 2).y == 0.0
  {
    var u := Param(1, 2);
    var c := InterpPair(w.Coords(), 0.5, u);
    assert SampleOf(w, 0.5, 1, 2) == NewPoint(c.0, c.1);
    FlatY(u);
  }

  /** The deprecated engine's middle sample of the two-point example. */
  lemma DeprecatedMidSample(items: seq<Pair>, opts: SplineOpts)
    requires items == [(0.0, 0.0), (1.0, 0.0)]
    requires opts == SplineOpts(0.5, 2, None, Some(NewPoint(1.0, 1.0)), None, None)
    ensures |CalcSamples(items, opts)| == 3 && CalcSamples(items, opts)[1].1 == -0.0625
  {
    var zero: nat, one: nat := 0, 1;
    CalcSampleAt(items, opts, zero, one);
    CalcSamplesLength(items, opts);
    var q := GapWindow(items, opts, zero);
    assert q == Quad((0.0, 0.0), (0.0, 0.0), (1.0, 0.0), (1.0, 1.0));
    var u := Param(one, opts.numOfSegments);
    assert u == 0.5;
    DippedY(u);
    assert SamplePoint(q, opts, one).1 == Interp(0.0, 0.0, 0.0, 1.0, 0.5, u);
  }

  /** On a flat window every sample stays at `y = 0`. */
  lemma FlatY(u: real)
    ensures Interp(0.0, 0.0, 0.0, 0.0, 0.5, u) == 0.0
  {
  }

  /** With `next2` lifted to `y = 1`, the midpoint sample dips below zero. */
  lemma DippedY(u: real)
    requires u == 0.5
    ensures Interp(0.0, 0.0, 0.0, 1.0, 0.5, u) == -0.0625
  {
    assert H11(u) == -0.125;
  }
}

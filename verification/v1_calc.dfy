/** `calc_spline` of the current engine: for each window of the sliding
    iterator, `numOfSegments` Hermite samples at `u = t / numOfSegments`,
    `t = 0 .. numOfSegments - 1`, then the last control point once. */
module V1Calc {
  import opened Wrappers
  import opened Errors
  import opened V1Points
  import opened Options
  import opened V1PointsIter
  import opened Hermite
  import opened SampleIndex

  /** Sample `t` out of `n` of window `w` under `tension`; the emitted point
      has no tension of its own. */
  function SampleOf(w: Window, tension: real, t: nat, n: nat): Point
    requires n > 0
  {
    var c := InterpPair(w.Coords(), tension, Param(t, n));
    NewPoint(c.0, c.1)
  }

  /** Sample `t` of gap `j`: the window's current point chooses the tension,
      its own or else the global one. */
  function SampleAt(pts: seq<Point>, opts: SplineOpts, j: nat, t: nat): Point
    requires |pts| >= 2 && j < |pts| - 1 && opts.numOfSegments > 0
  {
    var w := WindowAt(pts, opts, j);
    SampleOf(w, w.curr.tension.GetOr(opts.tension), t, opts.numOfSegments)
  }

  /** The curve as a whole: position `j * numOfSegments + t` holds sample `t`
      of gap `j`, and the last control point closes the list. */
  function Spline(pts: seq<Point>, opts: SplineOpts): (r: Result<seq<Point>, Error>)
    ensures r.Failure? <==> |pts| < 2
    ensures r.Failure? ==> r.error == TooFewPoints
    ensures r.Success? ==> |r.value| == (|pts| - 1) * opts.numOfSegments + 1
    ensures r.Success? ==> r.value[|r.value| - 1] == NewPoint(pts[|pts| - 1].x, pts[|pts| - 1].y)
    ensures r.Success? ==> forall i :: 0 <= i < |r.value| ==> r.value[i].tension.None?
  {
    if |pts| < 2 then Failure(TooFewPoints)
    else
      var k := opts.numOfSegments;
      var last := pts[|pts| - 1];
      var samples :=
        if k == 0 then []
        else seq((|pts| - 1) * k, i requires 0 <= i < (|pts| - 1) * k =>
               WindowOfPosition(i, k, |pts| - 1); SampleAt(pts, opts, i / k, i % k));
      Success(samples + [NewPoint(last.x, last.y)])
  }

  /** The samples of one window: `u = t / n` for `t = 0 .. n - 1`, with the
      basis weights and scaled tangents computed as the source does. */
  method WindowSamples(w: Window, tension: real, n: nat) returns (samples: seq<Point>)
    requires n > 0
    ensures |samples| == n
    ensures forall t :: 0 <= t < n ==> samples[t] == SampleOf(w, tension, t, n)
  {
    var t1x, t2x, t1y, t2y := WindowTangents(w.Coords(), tension);
    samples := [];
    for t := 0 to n
      invariant |samples| == t
      invariant forall s :: 0 <= s < t ==> samples[s] == SampleOf(w, tension, s, n)
    {
      var x, y := EvalSample(w.Coords(), tension, t1x, t2x, t1y, t2y, Param(t, n));
      samples := samples + [NewPoint(x, y)];
    }
  }

  /** The engine loop of the source, driving the sliding iterator; it
      computes exactly `Spline`. With no samples per gap the sample loop
      never runs (no division happens) and only the last point is emitted. */
  method CalcSpline(points: seq<Point>, opts: SplineOpts) returns (r: Result<seq<Point>, Error>)
    ensures r == Spline(points, opts)
  {
    if |points| < 2 {
      return Failure(TooFewPoints);
    }
    var n := opts.numOfSegments;
    ghost var spec := Spline(points, opts).value;
    var result: seq<Point> := [];
    var it := New(points, opts);
    while true
      invariant Valid(it, opts) && it.points == points
      invariant |result| == it.index * n
      invariant |result| <= |spec|
      invariant result == spec[..|result|]
      decreases it.maxIndex - it.index
    {
      var step := Next(it, opts);
      if step.0.None? {
        break;
      }
      if n > 0 {
        var w := step.0.value;
        var tension := w.curr.tension.GetOr(opts.tension);
        var samples := WindowSamples(w, tension, n);
        SplinePrefixExtend(points, opts, it.index, result, samples);
        result := result + samples;
      }
      NextWindowStart(it.index, n);
      it := step.1;
    }
    var last := points[|points| - 1];
    assert spec == spec[..|result|] + [spec[|result|]];
    result := result + [NewPoint(last.x, last.y)];
    r := Success(result);
  }

  /** Sample `t` of gap `j` sits at position `j * numOfSegments + t`. */
  lemma SplineSample(pts: seq<Point>, opts: SplineOpts, j: nat, t: nat)
    requires |pts| >= 2 && j < |pts| - 1 && t < opts.numOfSegments
    ensures j * opts.numOfSegments + t < |Spline(pts, opts).value| &&
            Spline(pts, opts).value[j * opts.numOfSegments + t] == SampleAt(pts, opts, j, t)
  {
    var k := opts.numOfSegments;
    var i := j * k + t;
    DivModOfSample(j, t, k);
    PositionInRange(j, t, k, |pts| - 1);
    var r := Spline(pts, opts).value;
    assert r[i] == SampleAt(pts, opts, i / k, i % k);
  }

  /** Appending the samples of gap `j` to the curve's first `j` gaps gives
      its first `j + 1` gaps. */
  lemma SplinePrefixExtend(pts: seq<Point>, opts: SplineOpts, j: nat, prefix: seq<Point>, samples: seq<Point>)
    requires |pts| >= 2 && j < |pts| - 1 && opts.numOfSegments > 0
    requires j * opts.numOfSegments <= |Spline(pts, opts).value|
    requires prefix == Spline(pts, opts).value[..j * opts.numOfSegments]
    requires |samples| == opts.numOfSegments
    requires forall t :: 0 <= t < |samples| ==> samples[t] == SampleAt(pts, opts, j, t)
    ensures (j + 1) * opts.numOfSegments <= |Spline(pts, opts).value|
    ensures prefix + samples == Spline(pts, opts).value[..(j + 1) * opts.numOfSegments]
  {
    var n := opts.numOfSegments;
    var spec := Spline(pts, opts).value;
    NextWindowStart(j, n);
    GapSamplesInPlace(pts, opts, j, samples);
    ExtendPrefix(spec, prefix, samples, j * n);
  }

  /** The samples of gap `j` sit at positions `j * n .. j * n + n - 1`. */
  lemma GapSamplesInPlace(pts: seq<Point>, opts: SplineOpts, j: nat, samples: seq<Point>)
    requires |pts| >= 2 && j < |pts| - 1 && opts.numOfSegments > 0
    requires |samples| == opts.numOfSegments
    requires forall t :: 0 <= t < |samples| ==> samples[t] == SampleAt(pts, opts, j, t)
    ensures j * opts.numOfSegments + |samples| <= |Spline(pts, opts).value|
    ensures forall t :: 0 <= t < |samples| ==> Spline(pts, opts).value[j * opts.numOfSegments + t] == samples[t]
  {
    var n := opts.numOfSegments;
    forall t | 0 <= t < n
      ensures j * n + t < |Spline(pts, opts).value| && Spline(pts, opts).value[j * n + t] == samples[t]
    {
      SplineSample(pts, opts, j, t);
    }
    var last: nat := n - 1;
    SplineSample(pts, opts, j, last);
  }

  /** Every position before the last is some sample of some gap. */
  lemma SplinePosition(pts: seq<Point>, opts: SplineOpts, i: nat) returns (g: nat, t: nat)
    requires |pts| >= 2 && i < |Spline(pts, opts).value| - 1
    ensures opts.numOfSegments > 0 && g < |pts| - 1 && t < opts.numOfSegments
    ensures g == i / opts.numOfSegments && t == i % opts.numOfSegments
    ensures i == g * opts.numOfSegments + t
    ensures Spline(pts, opts).value[i] == SampleAt(pts, opts, g, t)
  {
    WindowOfPosition(i, opts.numOfSegments, |pts| - 1);
    g, t := i / opts.numOfSegments, i % opts.numOfSegments;
  }

  /** The first sample of every gap is that gap's control point: the curve
      passes through every control point. */
  lemma SplineJoin(pts: seq<Point>, opts: SplineOpts, j: nat)
    requires |pts| >= 2 && j < |pts| - 1 && opts.numOfSegments > 0
    ensures j * opts.numOfSegments < |Spline(pts, opts).value| &&
            Spline(pts, opts).value[j * opts.numOfSegments] == NewPoint(pts[j].x, pts[j].y)
  {
    SplineSample(pts, opts, j, 0);
    ParamAtEnds(opts.numOfSegments);
    InterpAtStart(WindowAt(pts, opts, j).Coords(), pts[j].tension.GetOr(opts.tension));
  }

  /** Samples of windows with the same coordinates and the same tension agree. */
  lemma SampleAtCongruent(pts: seq<Point>, opts: SplineOpts, pts': seq<Point>, opts': SplineOpts, j: nat, t: nat)
    requires |pts| >= 2 && j < |pts| - 1 && opts.numOfSegments > 0
    requires |pts'| >= 2 && j < |pts'| - 1 && opts'.numOfSegments == opts.numOfSegments
    requires WindowAt(pts, opts, j).Coords() == WindowAt(pts', opts', j).Coords()
    requires pts[j].tension.GetOr(opts.tension) == pts'[j].tension.GetOr(opts'.tension)
    ensures SampleAt(pts, opts, j, t) == SampleAt(pts', opts', j, t)
  {
  }

  /** Two point lists with the same coordinates everywhere give windows with
      the same coordinates, whatever their tensions. */
  lemma WindowCoordsIgnoreTension(pts: seq<Point>, pts': seq<Point>, opts: SplineOpts, k: nat)
    requires |pts| == |pts'| >= 2 && k < |pts| - 1
    requires forall m :: 0 <= m < |pts| ==> pts[m].Coord() == pts'[m].Coord()
    ensures WindowAt(pts, opts, k).Coords() == WindowAt(pts', opts, k).Coords()
  {
  }

  /** Two point lists with the same coordinates everywhere and the same
      tension at point `g` agree on every sample of gap `g`. */
  lemma SameGapSample(pts: seq<Point>, pts': seq<Point>, opts: SplineOpts, g: nat, t: nat)
    requires |pts| == |pts'| >= 2 && g < |pts| - 1 && t < opts.numOfSegments
    requires forall m :: 0 <= m < |pts| ==> pts[m].Coord() == pts'[m].Coord()
    requires pts[g].tension == pts'[g].tension
    ensures g * opts.numOfSegments + t < |Spline(pts, opts).value|
    ensures g * opts.numOfSegments + t < |Spline(pts', opts).value|
    ensures Spline(pts, opts).value[g * opts.numOfSegments + t] == Spline(pts', opts).value[g * opts.numOfSegments + t]
  {
    SplineSample(pts, opts, g, t);
    SplineSample(pts', opts, g, t);
    WindowCoordsIgnoreTension(pts, pts', opts, g);
    SampleAtCongruent(pts, opts, pts', opts, g, t);
  }

  /** Changing the tension of point `j` changes at most the samples of gap
      `j`, positions `j * n .. j * n + n - 1`. */
  lemma TensionLocality(pts: seq<Point>, opts: SplineOpts, j: nat, tension: Option<real>)
    requires |pts| >= 2 && j < |pts|
    ensures var r, r' := Spline(pts, opts).value, Spline(pts[j := pts[j].(tension := tension)], opts).value;
      && |r| == |r'|
      && forall i :: 0 <= i < |r| && !(j * opts.numOfSegments <= i < j * opts.numOfSegments + opts.numOfSegments) ==>
           r[i] == r'[i]
  {
    var n := opts.numOfSegments;
    var pts' := pts[j := pts[j].(tension := tension)];
    var r, r' := Spline(pts, opts).value, Spline(pts', opts).value;
    assert forall m :: 0 <= m < |pts| ==> pts[m].Coord() == pts'[m].Coord();
    assert forall m :: 0 <= m < |pts| && m != j ==> pts[m].tension == pts'[m].tension;
    forall i | 0 <= i < |r| && !(j * n <= i < j * n + n)
      ensures r[i] == r'[i]
    {
      RetensionedAt(pts, pts', opts, j, i);
    }
  }

  /** One position outside gap `j` of `TensionLocality`. */
  lemma RetensionedAt(pts: seq<Point>, pts': seq<Point>, opts: SplineOpts, j: nat, i: nat)
    requires |pts| == |pts'| >= 2 && j < |pts|
    requires forall m :: 0 <= m < |pts| ==> pts[m].Coord() == pts'[m].Coord()
    requires forall m :: 0 <= m < |pts| && m != j ==> pts[m].tension == pts'[m].tension
    requires i < |Spline(pts, opts).value|
    requires !(j * opts.numOfSegments <= i < j * opts.numOfSegments + opts.numOfSegments)
    ensures i < |Spline(pts', opts).value| && Spline(pts, opts).value[i] == Spline(pts', opts).value[i]
  {
    var n := opts.numOfSegments;
    if i < |Spline(pts, opts).value| - 1 {
      var g, t := SplinePosition(pts, opts, i);
      OtherGap(i, n, g, t, j);
      SameGapSample(pts, pts', opts, g, t);
    } else {
      assert pts[|pts| - 1].Coord() == pts'[|pts| - 1].Coord();
    }
  }

  /** A position outside gap `j` belongs to another gap. */
  lemma OtherGap(i: nat, n: nat, g: nat, t: nat, j: nat)
    requires i == g * n + t && t < n && !(j * n <= i < j * n + n)
    ensures g != j
  {
  }

  /** The tension of the last control point is never read. */
  lemma LastTensionUnused(pts: seq<Point>, opts: SplineOpts, tension: Option<real>)
    requires |pts| >= 2
    ensures Spline(pts[|pts| - 1 := pts[|pts| - 1].(tension := tension)], opts) == Spline(pts, opts)
  {
    var n := opts.numOfSegments;
    var last := |pts| - 1;
    var pts' := pts[last := pts[last].(tension := tension)];
    var r, r' := Spline(pts, opts).value, Spline(pts', opts).value;
    TensionLocality(pts, opts, last, tension);
    forall i | 0 <= i < |r|
      ensures r[i] == r'[i]
    {
      LastGapBound(pts, opts, i);
    }
    assert r == r';
  }

  /** No position of the curve lies inside the (nonexistent) gap of the last
      point, except the closing point itself. */
  lemma LastGapBound(pts: seq<Point>, opts: SplineOpts, i: nat)
    requires |pts| >= 2 && i < |Spline(pts, opts).value|
    ensures !((|pts| - 1) * opts.numOfSegments <= i < (|pts| - 1) * opts.numOfSegments + opts.numOfSegments)
         || i == |Spline(pts, opts).value| - 1
  {
  }

  /** The hidden start point bends only the first gap: it can change only
      positions `1 .. n - 1`; position 0 is the first control point anyway. */
  lemma HiddenStartLocality(pts: seq<Point>, opts: SplineOpts, hidden: Option<Point>)
    requires |pts| >= 2
    ensures var r, r' := Spline(pts, opts).value, Spline(pts, opts.(hiddenPointAtStart := hidden)).value;
      && |r| == |r'|
      && forall i :: 0 <= i < |r| && !(1 <= i < opts.numOfSegments) ==> r[i] == r'[i]
  {
    var opts' := opts.(hiddenPointAtStart := hidden);
    var r, r' := Spline(pts, opts).value, Spline(pts, opts').value;
    forall i | 0 <= i < |r| && !(1 <= i < opts.numOfSegments)
      ensures r[i] == r'[i]
    {
      if i < |r| - 1 {
        HiddenStartAt(pts, opts, opts', i);
      }
    }
  }

  /** One position of `HiddenStartLocality` before the closing point. */
  lemma HiddenStartAt(pts: seq<Point>, opts: SplineOpts, opts': SplineOpts, i: nat)
    requires |pts| >= 2 && opts' == opts.(hiddenPointAtStart := opts'.hiddenPointAtStart)
    requires i < |Spline(pts, opts).value| - 1 && !(1 <= i < opts.numOfSegments)
    ensures i < |Spline(pts, opts').value| && Spline(pts, opts).value[i] == Spline(pts, opts').value[i]
  {
    var g, t := SplinePosition(pts, opts, i);
    var g', t' := SplinePosition(pts, opts', i);
    if g == 0 {
      SplineJoin(pts, opts, g);
      SplineJoin(pts, opts', g);
    } else {
      SampleAtCongruent(pts, opts, pts, opts', g, t);
    }
  }

  /** The lengths the library documents: 3 points with 16 samples per gap
      give 33, 4 give 49, 2 give 17, and 5 points with 33 give 133. */
  lemma DocumentedLengths(pts: seq<Point>, opts: SplineOpts)
    ensures |pts| == 3 && opts.numOfSegments == 16 ==> |Spline(pts, opts).value| == 33
    ensures |pts| == 4 && opts.numOfSegments == 16 ==> |Spline(pts, opts).value| == 49
    ensures |pts| == 2 && opts.numOfSegments == 16 ==> |Spline(pts, opts).value| == 17
    ensures |pts| == 5 && opts.numOfSegments == 33 ==> |Spline(pts, opts).value| == 133
    ensures |pts| >= 2 && opts.numOfSegments == 0 ==>
              Spline(pts, opts).value == [NewPoint(pts[|pts| - 1].x, pts[|pts| - 1].y)]
  {
  }

  /** The control points of the library's reference test. */
  const ReferencePoints: seq<Point> :=
    [NewPoint(10.0, 200.0), NewPoint(256.0, 390.0), NewPoint(512.0, 10.0), NewPoint(778.0, 200.0)]

  /** The reference curve of the library's tests, with default options, has
      49 points and passes through the control points at positions 0, 16, 32
      and 48. */
  lemma ReferenceCurveJoins()
    ensures |Spline(ReferencePoints, DefaultSplineOpts()).value| == 49
    ensures Spline(ReferencePoints, DefaultSplineOpts()).value[0] == NewPoint(10.0, 200.0)
    ensures Spline(ReferencePoints, DefaultSplineOpts()).value[16] == NewPoint(256.0, 390.0)
    ensures Spline(ReferencePoints, DefaultSplineOpts()).value[32] == NewPoint(512.0, 10.0)
    ensures Spline(ReferencePoints, DefaultSplineOpts()).value[48] == NewPoint(778.0, 200.0)
  {
    var pts, opts := ReferencePoints, DefaultSplineOpts();
    SplineJoin(pts, opts, 0);
    SplineJoin(pts, opts, 1);
    SplineJoin(pts, opts, 2);
  }

  /** Its second point is exactly `(18.60009765625, 207.7001953125)`. */
  lemma ReferenceCurveSecondPoint()
    ensures |Spline(ReferencePoints, DefaultSplineOpts()).value| > 1
    ensures Spline(ReferencePoints, DefaultSplineOpts()).value[1] == NewPoint(18.60009765625, 207.7001953125)
  {
    SplineSample(ReferencePoints, DefaultSplineOpts(), 0, 1);
    ReferenceFirstGapSample();
  }

  /** Sample 1 of the reference curve's first gap, from the window
      `(p0, p0, p1, p2)` at `u = 1 / 16`. */
  lemma ReferenceFirstGapSample()
    ensures SampleAt(ReferencePoints, DefaultSplineOpts(), 0, 1) == NewPoint(18.60009765625, 207.7001953125)
  {
    var w := WindowAt(ReferencePoints, DefaultSplineOpts(), 0);
    assert w.Coords() == Quad((10.0, 200.0), (10.0, 200.0), (256.0, 390.0), (512.0, 10.0));
    ParamScaled(1, 16);
    assert Param(1, 16) == 0.0625;
    ReferenceSecondSample();
  }

  /** Over the reals the second sample of the reference curve is exactly the
      dyadic value recorded in the library's tests. */
  lemma ReferenceSecondSample()
    ensures InterpPair(Quad((10.0, 200.0), (10.0, 200.0), (256.0, 390.0), (512.0, 10.0)), 0.5, 0.0625)
         == (18.60009765625, 207.7001953125)
  {
    var u := 0.0625;
    assert H00(u) == 4050.0 / 4096.0 && H01(u) == 46.0 / 4096.0;
    assert H10(u) == 225.0 / 4096.0 && H11(u) == -15.0 / 4096.0;
  }
}

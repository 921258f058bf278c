/** Points of the current engine: a 2D point with an optional per-segment
    tension, the validated point list (`Points`), conversions from and to
    tuples and the flat layout, and canvas inversion. */
module V1Points {
  import opened Wrappers
  import opened Errors
  import opened Flat

  /** A point; `tension`, when present, overrides the global tension for the
      segment that starts at this point. */
  datatype Point = Point(x: real, y: real, tension: Option<real>) {

    /** The coordinates without the tension. */
    function Coord(): Pair { (x, y) }
  }

  /** `Point::new`: a point that uses the global tension. */
  function NewPoint(x: real, y: real): Point {
    Point(x, y, None)
  }

  /** `Point::with_tension`: a point with its own segment tension. */
  function WithTension(x: real, y: real, tension: real): Point {
    Point(x, y, Some(tension))
  }

  /** A point made by `NewPoint` keeps its coordinates and its segment uses
      the global tension; one made by `WithTension` keeps its coordinates and
      its segment uses its own tension, whatever the global one. */
  lemma SegmentTension(x: real, y: real, tension: real, global: real)
    ensures NewPoint(x, y).Coord() == (x, y) && NewPoint(x, y).tension.GetOr(global) == global
    ensures WithTension(x, y, tension).Coord() == (x, y) && WithTension(x, y, tension).tension.GetOr(global) == tension
  {
  }

  /** Precision used by `ApproxEq`. */
  const DefaultApproxEqPrecision: real := 0.000001

  function Abs(r: real): real { if r < 0.0 then -r else r }

  /** Both coordinates differ by strictly less than `precision`; tension is
      not compared. */
  predicate ApproxEqWithPrecision(p: Point, q: Point, precision: real) {
    Abs(p.x - q.x) < precision && Abs(p.y - q.y) < precision
  }

  predicate ApproxEq(p: Point, q: Point) {
    ApproxEqWithPrecision(p, q, DefaultApproxEqPrecision)
  }

  /** Approximate equality is exactly "each coordinate lies in the open
      interval of radius `precision`", and it is symmetric. */
  lemma ApproxEqMeaning(p: Point, q: Point, precision: real)
    ensures ApproxEqWithPrecision(p, q, precision) <==>
              (-precision < p.x - q.x < precision && -precision < p.y - q.y < precision)
    ensures ApproxEqWithPrecision(p, q, precision) <==> ApproxEqWithPrecision(q, p, precision)
  {
  }

  /** `approx_eq` is the comparison at the fixed precision `1e-6`. */
  lemma ApproxEqDefault(p: Point, q: Point)
    ensures ApproxEq(p, q) <==>
              (-0.000001 < p.x - q.x < 0.000001 && -0.000001 < p.y - q.y < 0.000001)
  {
  }

  /** A point is approximately equal to itself exactly when the precision is
      positive; a coarser precision accepts everything a finer one does; the
      tension never matters. */
  lemma ApproxEqOrder(p: Point, q: Point, precision: real, coarser: real, t: Option<real>)
    ensures ApproxEqWithPrecision(p, p, precision) <==> precision > 0.0
    ensures precision <= coarser && ApproxEqWithPrecision(p, q, precision) ==> ApproxEqWithPrecision(p, q, coarser)
    ensures ApproxEqWithPrecision(p, q, precision) <==> ApproxEqWithPrecision(p.(tension := t), q, precision)
  {
  }

  /** The documented examples of approximate equality, and a difference of
      exactly the precision (one that is exact in binary floating point) that
      is rejected. */
  lemma ApproxEqExamples()
    ensures ApproxEq(NewPoint(1.2, 3.5), NewPoint(1.2, 3.5))
    ensures ApproxEqWithPrecision(NewPoint(1.0, 1.0), NewPoint(1.000001, 1.0), 0.0001)
    ensures ApproxEqWithPrecision(NewPoint(1.0001, 1.0), NewPoint(1.0, 1.0), 0.01)
    ensures ApproxEqWithPrecision(NewPoint(1.0, 1.0), NewPoint(1.25, 1.0), 0.5)
    ensures !ApproxEqWithPrecision(NewPoint(1.0, 1.0), NewPoint(1.5, 1.0), 0.5)
  {
  }

  /** Mirrors `x` across a canvas of the given width. */
  function InvertPointHorizontally(p: Point, width: real): Point {
    p.(x := width - p.x)
  }

  /** Mirrors `y` across a canvas of the given height. */
  function InvertPointVertically(p: Point, height: real): Point {
    p.(y := height - p.y)
  }

  /** Mirroring a point moves only the mirrored coordinate, to the other side
      of the canvas's middle (`x + x' == width`), so mirroring twice restores
      the point; the two mirrors commute. */
  lemma InvertPointMirror(p: Point, width: real, height: real)
    ensures InvertPointHorizontally(p, width).x + p.x == width
    ensures InvertPointHorizontally(p, width).y == p.y && InvertPointHorizontally(p, width).tension == p.tension
    ensures InvertPointVertically(p, height).y + p.y == height
    ensures InvertPointVertically(p, height).x == p.x && InvertPointVertically(p, height).tension == p.tension
    ensures InvertPointHorizontally(InvertPointHorizontally(p, width), width) == p
    ensures InvertPointVertically(InvertPointVertically(p, height), height) == p
    ensures InvertPointHorizontally(InvertPointVertically(p, height), width)
         == InvertPointVertically(InvertPointHorizontally(p, width), height)
  {
  }

  /** The documented single-point examples: `(1, 3)` mirrored in a width of 3
      is `(2, 3)`, and in a height of 7 it is `(1, 4)`. */
  lemma InvertPointExamples()
    ensures InvertPointHorizontally(NewPoint(1.0, 3.0), 3.0) == NewPoint(2.0, 3.0)
    ensures InvertPointVertically(NewPoint(1.0, 3.0), 7.0) == NewPoint(1.0, 4.0)
  {
  }

  /** `Points::invert_horizontally`: every point mirrored in `x`. */
  function InvertHorizontally(ps: seq<Point>, width: real): (qs: seq<Point>)
    ensures |qs| == |ps|
    ensures forall i :: 0 <= i < |ps| ==>
              qs[i].x == width - ps[i].x && qs[i].y == ps[i].y && qs[i].tension == ps[i].tension
  {
    if |ps| == 0 then [] else [InvertPointHorizontally(ps[0], width)] + InvertHorizontally(ps[1..], width)
  }

  /** `Points::invert_vertically`: every point mirrored in `y`. */
  function InvertVertically(ps: seq<Point>, height: real): (qs: seq<Point>)
    ensures |qs| == |ps|
    ensures forall i :: 0 <= i < |ps| ==>
              qs[i].y == height - ps[i].y && qs[i].x == ps[i].x && qs[i].tension == ps[i].tension
  {
    if |ps| == 0 then [] else [InvertPointVertically(ps[0], height)] + InvertVertically(ps[1..], height)
  }

  /** Inverting twice with the same width, or the same height, restores the points. */
  lemma InvertTwice(ps: seq<Point>, width: real, height: real)
    ensures InvertHorizontally(InvertHorizontally(ps, width), width) == ps
    ensures InvertVertically(InvertVertically(ps, height), height) == ps
  {
  }

  /** The two inversions commute. */
  lemma InversionsCommute(ps: seq<Point>, width: real, height: real)
    ensures InvertHorizontally(InvertVertically(ps, height), width)
         == InvertVertically(InvertHorizontally(ps, width), height)
  {
  }

  /** The library's own example: `y = 390` on a canvas of height 400 becomes 10,
      and `(1, 3), (2, 2)` mirrored in a width of 7 become `(6, 3), (5, 2)`. */
  lemma InversionExamples()
    ensures InvertVertically([NewPoint(10.0, 200.0), NewPoint(256.0, 390.0)], 400.0)[1].y == 10.0
    ensures ToPairs(InvertHorizontally([NewPoint(1.0, 3.0), NewPoint(2.0, 2.0)], 7.0)) == [(6.0, 3.0), (5.0, 2.0)]
    ensures ToPairs(InvertVertically([NewPoint(1.0, 3.0), NewPoint(2.0, 2.0)], 7.0)) == [(1.0, 4.0), (2.0, 5.0)]
  {
  }

  /** `Points::from`: never fails, keeps order, every point uses the global tension. */
  function FromPairs(pairs: seq<Pair>): (ps: seq<Point>)
    ensures |ps| == |pairs|
    ensures forall i :: 0 <= i < |pairs| ==> ps[i] == Point(pairs[i].0, pairs[i].1, None)
  {
    if |pairs| == 0 then [] else [NewPoint(pairs[0].0, pairs[0].1)] + FromPairs(pairs[1..])
  }

  /** `Points::try_from`: the same conversion, refused below two points. */
  function TryFromPairs(pairs: seq<Pair>): (r: Result<seq<Point>, Error>)
    ensures r.Failure? <==> |pairs| < 2
    ensures r.Failure? ==> r.error == TooFewPoints
    ensures r.Success? ==> |r.value| == |pairs|
    ensures r.Success? ==> forall i :: 0 <= i < |pairs| ==> r.value[i].Coord() == pairs[i] && r.value[i].tension.None?
  {
    var v := FromPairs(pairs);
    if |v| < 2 then Failure(TooFewPoints) else Success(v)
  }

  /** `Points::try_from_flatten`: the flat list is paired up; an odd count is
      `MissingY` (checked first), fewer than two points `TooFewPoints`. */
  function TryFromFlatten(vals: seq<real>): (r: Result<seq<Point>, Error>)
    ensures |vals| % 2 == 1 <==> r == Failure(MissingY)
    ensures |vals| % 2 == 0 && |vals| < 4 <==> r == Failure(TooFewPoints)
    ensures r.Success? ==> |r.value| == |vals| / 2
    ensures r.Success? ==> forall i :: 0 <= i < |r.value| ==> r.value[i] == Point(vals[2 * i], vals[2 * i + 1], None)
  {
    if |vals| % 2 == 1 then Failure(MissingY)
    else TryFromPairs(Pairs(vals))
  }

  /** The streaming decoder of the source: one pending `x` is held until its
      `y` arrives. It agrees with `TryFromFlatten`. */
  method DecodeFlatten(vals: seq<real>) returns (r: Result<seq<Point>, Error>)
    ensures r == TryFromFlatten(vals)
  {
    var v: seq<Point> := [];
    var x: Option<real> := None;
    for i := 0 to |vals|
      invariant |v| == i / 2
      invariant forall j :: 0 <= j < |v| ==> v[j] == Point(vals[2 * j], vals[2 * j + 1], None)
      invariant x.Some? <==> i % 2 == 1
      invariant x.Some? ==> x.value == vals[i - 1]
    {
      if x.Some? {
        v := v + [NewPoint(x.value, vals[i])];
        x := None;
      } else {
        x := Some(vals[i]);
      }
    }
    if x.Some? {
      return Failure(MissingY);
    }
    if |v| < 2 {
      return Failure(TooFewPoints);
    }
    r := Success(v);
    assert r.value == FromPairs(Pairs(vals));
  }

  /** `Vec<(f64, f64)>::from(Points)`: coordinates in order, tension dropped. */
  function ToPairs(ps: seq<Point>): (pairs: seq<Pair>)
    ensures |pairs| == |ps|
    ensures forall i :: 0 <= i < |ps| ==> pairs[i] == ps[i].Coord()
  {
    if |ps| == 0 then [] else [ps[0].Coord()] + ToPairs(ps[1..])
  }

  /** `Vec<f64>::from(Points)`: `2N` values, x at even and y at odd positions. */
  function ToFlat(ps: seq<Point>): (vals: seq<real>)
    ensures |vals| == 2 * |ps|
    ensures forall i :: 0 <= i < |ps| ==> vals[2 * i] == ps[i].x && vals[2 * i + 1] == ps[i].y
  {
    FlattenIndex(ToPairs(ps));
    Flatten(ToPairs(ps))
  }

  /** Decoding the flat form of a valid point list gives back its coordinates
      with every tension dropped. */
  lemma FlattenRoundTrip(ps: seq<Point>)
    requires |ps| >= 2
    ensures TryFromFlatten(ToFlat(ps)) == Success(FromPairs(ToPairs(ps)))
  {
    PairsOfFlatten(ToPairs(ps));
  }

  /** Converting pairs to points and back is the identity. */
  lemma PairsRoundTrip(pairs: seq<Pair>)
    ensures ToPairs(FromPairs(pairs)) == pairs
  {
  }

  /** The error cases exercised by the library's tests. */
  lemma DecodeExamples()
    ensures TryFromFlatten([]) == Failure(TooFewPoints)
    ensures TryFromFlatten([1.1]) == Failure(MissingY)
    ensures TryFromFlatten([1.1, 2.2]) == Failure(TooFewPoints)
    ensures TryFromFlatten([1.1, 2.2, 3.3]) == Failure(MissingY)
    ensures TryFromFlatten([1.1, 2.2, 3.3, 4.4]) == Success([NewPoint(1.1, 2.2), NewPoint(3.3, 4.4)])
    ensures TryFromPairs([]) == Failure(TooFewPoints)
    ensures TryFromPairs([(1.0, 22123.123)]) == Failure(TooFewPoints)
  {
    var vals := [1.1, 2.2, 3.3, 4.4];
    var r := TryFromFlatten(vals);
    assert r.Success?;
    assert vals[2 * 0] == 1.1 && vals[2 * 0 + 1] == 2.2 && vals[2 * 1] == 3.3 && vals[2 * 1 + 1] == 4.4;
    assert r.value[0] == NewPoint(1.1, 2.2);
    assert r.value[1] == NewPoint(3.3, 4.4);
    assert r.value == [NewPoint(1.1, 2.2), NewPoint(3.3, 4.4)];
  }
}

/** The 4-point sliding window of the current engine. For each gap `k` between
    control points `k` and `k + 1` it yields `(prev, current, next, next2)`,
    keeping a 4-slot buffer that is shifted left by one slot per step. */
module V1PointsIter {
  import opened Wrappers
  import opened V1Points
  import opened Options
  import Hermite

  datatype Window = Window(prev: Point, curr: Point, next: Point, next2: Point) {

    /** The window's coordinates, as the Hermite evaluation reads them. */
    function Coords(): Hermite.Quad {
      Hermite.Quad(prev.Coord(), curr.Coord(), next.Coord(), next2.Coord())
    }
  }

  /** The window of gap `k` by direct indexing: `prev` of the first gap is the
      hidden start point or the first point; `next2` of the last gap is the
      hidden end point or the last point, except that with exactly two points
      the hidden end point is never consulted. */
  function WindowAt(pts: seq<Point>, opts: SplineOpts, k: nat): Window
    requires |pts| >= 2 && k < |pts| - 1
  {
    var prev := if k == 0 then opts.hiddenPointAtStart.GetOr(pts[0]) else pts[k - 1];
    var next2 :=
      if k + 2 < |pts| then pts[k + 2]
      else if |pts| == 2 then pts[1]
      else opts.hiddenPointAtEnd.GetOr(pts[k + 1]);
    Window(prev, pts[k], pts[k + 1], next2)
  }

  /** Iterator state: the window about to be yielded is `current`. */
  datatype PointsIter = PointsIter(
    maxIndex: nat,
    index: nat,
    points: seq<Point>,
    current: Window,
    hiddenPointAtEnd: Option<Point>)

  /** The bookkeeping fields agree with the points and with `opts`. */
  ghost predicate WellFormed(it: PointsIter, opts: SplineOpts) {
    && |it.points| >= 2
    && it.maxIndex == |it.points| - 1
    && it.index <= it.maxIndex
    && it.hiddenPointAtEnd == opts.hiddenPointAtEnd
  }

  /** Well formed and, while windows remain, the buffer holds exactly the
      window of gap `index`. */
  ghost predicate Valid(it: PointsIter, opts: SplineOpts) {
    && WellFormed(it, opts)
    && (it.index < it.maxIndex ==> it.current == WindowAt(it.points, opts, it.index))
  }

  /** `PointsIter::new`: the first window is built from `points[0]`,
      `points[1]` and `points.get(2)`, so with two points `next2` is the
      second point. */
  function New(points: seq<Point>, opts: SplineOpts): (it: PointsIter)
    requires |points| >= 2
    ensures Valid(it, opts)
    ensures it.index == 0 && it.points == points
  {
    var curr := points[0];
    var prev := opts.hiddenPointAtStart.GetOr(curr);
    var next := points[1];
    var next2 := if 2 < |points| then points[2] else next;
    PointsIter(|points| - 1, 0, points, Window(prev, curr, next, next2), opts.hiddenPointAtEnd)
  }

  /** `update_current`: shift the buffer left and fetch the new `next2`,
      which is the hidden end point (or the shifted-in `next`) when the new
      window is the last one. Moves the buffer from gap `index - 1` to gap
      `index`. */
  function UpdateCurrent(it: PointsIter, ghost opts: SplineOpts): (r: PointsIter)
    requires WellFormed(it, opts) && 1 <= it.index < it.maxIndex
    requires it.current == WindowAt(it.points, opts, it.index - 1)
    ensures Valid(r, opts) && r.index == it.index && r.points == it.points
  {
    var prev, curr, next := it.current.curr, it.current.next, it.current.next2;
    var last := if it.index == it.maxIndex - 1 then it.hiddenPointAtEnd.GetOr(next)
                else it.points[it.index + 2];
    it.(current := Window(prev, curr, next, last))
  }

  /** `Iterator::next`: `None` once every gap has been visited; otherwise the
      window of gap `index`, and the state advanced to the next gap. */
  function Next(it: PointsIter, ghost opts: SplineOpts): (r: (Option<Window>, PointsIter))
    requires Valid(it, opts)
    ensures Valid(r.1, opts) && r.1.points == it.points
    ensures r.0.None? <==> it.index == it.maxIndex
    ensures r.0.None? ==> r.1 == it
    ensures r.0.Some? ==> r.0.value == WindowAt(it.points, opts, it.index) && r.1.index == it.index + 1
  {
    if it.index == it.maxIndex then (None, it)
    else
      var w := it.current;
      var advanced := it.(index := it.index + 1);
      if advanced.index != advanced.maxIndex then (Some(w), UpdateCurrent(advanced, opts))
      else (Some(w), advanced)
  }

  /** Drains the iterator. There are exactly `N - 1` windows; window `k` is
      `(prev, points[k], points[k + 1], next2)` with the boundary rules of the
      source. */
  method Windows(points: seq<Point>, opts: SplineOpts) returns (ws: seq<Window>)
    requires |points| >= 2
    ensures |ws| == |points| - 1
    ensures forall k :: 0 <= k < |ws| ==> ws[k].curr == points[k] && ws[k].next == points[k + 1]
    ensures ws[0].prev == opts.hiddenPointAtStart.GetOr(points[0])
    ensures forall k :: 1 <= k < |ws| ==> ws[k].prev == points[k - 1]
    ensures forall k :: 0 <= k < |ws| && k + 2 < |points| ==> ws[k].next2 == points[k + 2]
    ensures |points| >= 3 ==> ws[|ws| - 1].next2 == opts.hiddenPointAtEnd.GetOr(points[|points| - 1])
    ensures |points| == 2 ==> ws[0].next2 == points[1]
  {
    var it := New(points, opts);
    ws := [];
    while true
      invariant Valid(it, opts) && it.points == points
      invariant |ws| == it.index
      invariant forall k :: 0 <= k < |ws| ==> ws[k] == WindowAt(points, opts, k)
      decreases it.maxIndex - it.index
    {
      var step := Next(it, opts);
      if step.0.None? {
        break;
      }
      ws := ws + [step.0.value];
      it := step.1;
    }
  }
}

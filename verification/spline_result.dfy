/** The deprecated output side: `PushPoint` appends one computed point to a
    result buffer, flat (`x` then `y`) or as a tuple. */
module SplineResult {
  import opened Flat

  /** `SplineResult<f64>` or `SplineResult<(f64, f64)>`. */
  datatype SplineResult = FlatResult(values: seq<real>) | TupleResult(tuples: seq<Pair>) {

    /** The points held, pairing up the flat layout. */
    function Items(): seq<Pair> {
      match this
      case FlatResult(v) => Pairs(v)
      case TupleResult(p) => p
    }

    /** The buffer holds whole points only. */
    predicate Whole() {
      FlatResult? ==> |values| % 2 == 0
    }

    /** `push_spline_point`: appends one point at the end, and nothing else
        changes. */
    function PushSplinePoint(x: real, y: real): (r: SplineResult)
      ensures r.FlatResult? == FlatResult?
      ensures FlatResult? ==> |r.values| == |values| + 2 && r.values[..|values|] == values
                              && r.values[|values|] == x && r.values[|values| + 1] == y
      ensures TupleResult? ==> |r.tuples| == |tuples| + 1 && r.tuples[..|tuples|] == tuples
                               && r.tuples[|tuples|] == (x, y)
    {
      match this
      case FlatResult(v) => FlatResult(v + [x] + [y])
      case TupleResult(p) => TupleResult(p + [(x, y)])
    }

    /** Pushes every point of `ps` in order. */
    function PushAll(ps: seq<Pair>): (r: SplineResult)
      ensures r.FlatResult? == FlatResult?
      decreases |ps|
    {
      if |ps| == 0 then this
      else PushAll(ps[..|ps| - 1]).PushSplinePoint(ps[|ps| - 1].0, ps[|ps| - 1].1)
    }
  }

  /** On a buffer of whole points a push adds exactly one point to its view. */
  lemma PushItems(r: SplineResult, x: real, y: real)
    requires r.Whole()
    ensures r.PushSplinePoint(x, y).Whole()
    ensures r.PushSplinePoint(x, y).Items() == r.Items() + [(x, y)]
  {
    if r.FlatResult? {
      assert r.values + [x] + [y] == r.values + [x, y];
      PairsAppend(r.values, x, y);
    }
  }

  /** A batch push adds the batch, in order, to the buffer's view. */
  lemma PushAllItems(r: SplineResult, ps: seq<Pair>)
    requires r.Whole()
    ensures r.PushAll(ps).Whole()
    ensures r.PushAll(ps).Items() == r.Items() + ps
  {
    PushAllLayout(r, ps);
    if r.FlatResult? {
      PairsAppendFlatten(r.values, ps);
    }
  }

  /** Pushing one more point after a batch is pushing the longer batch. */
  lemma PushAllSnoc(r: SplineResult, ps: seq<Pair>, p: Pair)
    ensures r.PushAll(ps).PushSplinePoint(p.0, p.1) == r.PushAll(ps + [p])
  {
    assert (ps + [p])[..|ps|] == ps;
  }

  /** Pushing into a flat buffer appends the flattened points; pushing into a
      tuple buffer appends the points themselves. */
  lemma {:induction false} PushAllLayout(r: SplineResult, ps: seq<Pair>)
    ensures r.FlatResult? ==> r.PushAll(ps).values == r.values + Flatten(ps)
    ensures r.TupleResult? ==> r.PushAll(ps).tuples == r.tuples + ps
    decreases |ps|
  {
    if |ps| > 0 {
      var init, p := ps[..|ps| - 1], ps[|ps| - 1];
      var before := r.PushAll(init);
      assert r.PushAll(ps) == before.PushSplinePoint(p.0, p.1);
      assert ps == init + [p];
      PushAllLayout(r, init);
      if r.FlatResult? {
        FlattenAppend(init, [p]);
        assert Flatten([p]) == [p.0, p.1];
        assert before.values + [p.0] + [p.1] == r.values + Flatten(init) + Flatten([p]);
      }
    }
  }

  /** Pushing two batches one after the other is pushing their concatenation. */
  lemma {:induction false} PushAllConcat(r: SplineResult, ps: seq<Pair>, qs: seq<Pair>)
    ensures r.PushAll(ps).PushAll(qs) == r.PushAll(ps + qs)
    decreases |qs|
  {
    if |qs| > 0 {
      var init, q := qs[..|qs| - 1], qs[|qs| - 1];
      PushAllConcat(r, ps, init);
      assert (ps + qs)[..|ps + qs| - 1] == ps + init;
    } else {
      assert ps + qs == ps;
    }
  }
}

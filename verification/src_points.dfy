/** The deprecated point-lookup layer: `SrcPoints` wraps either a flat
    `[x, y, x, y, ...]` slice or a slice of `(x, y)` tuples, and `GetPoint`
    reads points out of it and assembles the 4-point window of a gap. */
module SrcPoints {
  import opened Wrappers
  import opened Flat
  import opened Hermite

  /** `SrcPoints<f64>` (flat) or `SrcPoints<(f64, f64)>` (tuples). */
  datatype SrcPoints = FlatSrc(values: seq<real>) | TupleSrc(tuples: seq<Pair>) {

    /** The points the wrapper exposes, in order. */
    function Items(): seq<Pair> {
      match this
      case FlatSrc(v) => Pairs(v)
      case TupleSrc(p) => p
    }

    /** `len`: half the flat length, rounded down, or the tuple count. */
    function Len(): (n: nat)
      ensures n == |Items()|
    {
      match this
      case FlatSrc(v) => |v| / 2
      case TupleSrc(p) => |p|
    }

    /** `get`: for the flat layout both `values[2i]` and `values[2i + 1]`
        must exist; for tuples `tuples[i]` must. */
    function Get(i: nat): (r: Option<Pair>)
      ensures r.Some? <==> i < Len()
      ensures r.Some? ==> r.value == Items()[i]
      ensures FlatSrc? && r.Some? ==> r.value == (values[2 * i], values[2 * i + 1])
      ensures TupleSrc? && r.Some? ==> r.value == tuples[i]
    {
      match this
      case FlatSrc(v) =>
        var x := if 2 * i < |v| then Some(v[2 * i]) else None;
        var y := if 2 * i + 1 < |v| then Some(v[2 * i + 1]) else None;
        if x.Some? && y.Some? then Some((x.value, y.value)) else None
      case TupleSrc(p) =>
        if i < |p| then Some(p[i]) else None
    }

    /** `last`: the point at `len - 1`; the source underflows on an empty
        wrapper, so at least one point is required. */
    function Last(): (r: Option<Pair>)
      requires Len() >= 1
      ensures r == Some(Items()[|Items()| - 1])
    {
      Get(Len() - 1)
    }

    /** `get_unchecked` of the tuple wrapper: no bounds check, so the index
        must be in range. */
    function GetUnchecked(i: nat): (p: Pair)
      requires TupleSrc? && i < |tuples|
      ensures Get(i) == Some(p)
    {
      tuples[i]
    }

    /** `points_to_calc`: the window of gap `index`, or `None` when there is
        no point after `index`. `prev` falls back to the hidden start point
        and then to `current`; `next2` to the hidden end point and then to
        `next` — whenever `index + 2` is missing, even with only two points. */
    function PointsToCalc(index: nat, hiddenStart: Option<Pair>, hiddenEnd: Option<Pair>): (r: Option<Quad>)
      ensures r.None? <==> index + 1 >= Len()
      ensures r.Some? ==> r.value.cur == Items()[index] && r.value.next == Items()[index + 1]
      ensures r.Some? ==> r.value.prev == if index == 0 then hiddenStart.GetOr(Items()[0]) else Items()[index - 1]
      ensures r.Some? ==> r.value.next2 == if index + 2 < Len() then Items()[index + 2] else hiddenEnd.GetOr(Items()[index + 1])
    {
      var current := Get(index);
      if current.None? then None
      else
        var next := Get(index + 1);
        if next.None? then None
        else
          var prev := if index == 0 then hiddenStart.GetOr(current.value)
                      else Get(index - 1).GetOr(current.value);
          var after := Get(index + 2);
          var next2 := if after.Some? then after.value
                       else if hiddenEnd.Some? then hiddenEnd.value
                       else next.value;
          Some(Quad(prev, current.value, next.value, next2))
    }
  }

  /** The flat and the tuple wrapper of the same points answer every lookup
      alike; a trailing unpaired flat value is invisible. */
  lemma FlatAndTupleAgree(vals: seq<real>, i: nat, hiddenStart: Option<Pair>, hiddenEnd: Option<Pair>)
    ensures FlatSrc(vals).Len() == TupleSrc(Pairs(vals)).Len()
    ensures FlatSrc(vals).Get(i) == TupleSrc(Pairs(vals)).Get(i)
    ensures FlatSrc(vals).PointsToCalc(i, hiddenStart, hiddenEnd)
         == TupleSrc(Pairs(vals)).PointsToCalc(i, hiddenStart, hiddenEnd)
  {
  }
}

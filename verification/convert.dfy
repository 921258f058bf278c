/** `flatten_to_tuples`: walks a flat list, skips even positions and pairs
    every odd position that has a successor with that successor, stopping
    at the first odd position without one. So it pairs `(y_j, x_{j+1})`,
    not `(x_j, y_j)`. */
module Convert {
  import opened Flat

  /** What the walk produces, in closed form: for every odd position
      `2j + 1` with a successor, the pair `(pts[2j + 1], pts[2j + 2])`. */
  function OddPairs(pts: seq<real>): (r: seq<Pair>)
    ensures |r| == if |pts| == 0 then 0 else (|pts| - 1) / 2
  {
    var count := if |pts| == 0 then 0 else (|pts| - 1) / 2;
    seq(count, j requires 0 <= j < count => (pts[2 * j + 1], pts[2 * j + 2]))
  }

  /** The source loop over `(ind, x_or_y)`: `continue` on even `ind`,
      `break` when `ind + 1` is out of range, push otherwise. */
  method FlattenToTuples(pts: seq<real>) returns (result: seq<Pair>)
    ensures |result| == if |pts| == 0 then 0 else (|pts| - 1) / 2
    ensures forall j :: 0 <= j < |result| ==> result[j] == (pts[2 * j + 1], pts[2 * j + 2])
    ensures result == OddPairs(pts)
  {
    result := [];
    for ind := 0 to |pts|
      invariant |result| == ind / 2
      invariant |pts| == 0 || 2 * |result| < |pts|
      invariant forall j :: 0 <= j < |result| ==> 2 * j + 2 < |pts| && result[j] == (pts[2 * j + 1], pts[2 * j + 2])
    {
      if ind % 2 == 0 {
        continue;
      }
      if ind + 1 < |pts| {
        result := result + [(pts[ind], pts[ind + 1])];
      } else {
        break;
      }
    }
  }

  /** On `[x0, y0, x1, y1]` the walk yields the single pair `(y0, x1)`,
      while pairing the list yields `[(x0, y0), (x1, y1)]`. */
  lemma TwoPointCounterexample(x0: real, y0: real, x1: real, y1: real)
    ensures OddPairs([x0, y0, x1, y1]) == [(y0, x1)]
    ensures Pairs([x0, y0, x1, y1]) == [(x0, y0), (x1, y1)]
  {
  }

  /** The walk never undoes flattening: for any non-empty list of points it
      returns one pair fewer. */
  lemma NotInverseOfFlatten(ps: seq<Pair>)
    requires |ps| >= 1
    ensures |OddPairs(Flatten(ps))| == |ps| - 1
    ensures OddPairs(Flatten(ps)) != ps
  {
  }
}

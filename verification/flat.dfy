/** The flat coordinate layout `[x0, y0, x1, y1, ...]` shared by every
    generation of the library, and its pairing into `(x, y)` tuples. */
module Flat {

  /** A coordinate pair `(x, y)`, the library's `(f64, f64)`. */
  type Pair = (real, real)

  /** Pairs up a flat list: pair `i` is `(vals[2i], vals[2i+1])`; an unpaired
      trailing value is ignored. */
  function Pairs(vals: seq<real>): (ps: seq<Pair>)
    ensures |ps| == |vals| / 2
    ensures forall i :: 0 <= i < |ps| ==> ps[i] == (vals[2 * i], vals[2 * i + 1])
    decreases |vals|
  {
    if |vals| < 2 then [] else [(vals[0], vals[1])] + Pairs(vals[2..])
  }

  /** Lays pairs out flat: x at even and y at odd positions. */
  function Flatten(ps: seq<Pair>): (vals: seq<real>)
    ensures |vals| == 2 * |ps|
  {
    if |ps| == 0 then [] else [ps[0].0, ps[0].1] + Flatten(ps[1..])
  }

  /** Pair `i` lands at positions `2i` and `2i + 1`. */
  lemma {:induction false} FlattenIndex(ps: seq<Pair>)
    ensures forall i :: 0 <= i < |ps| ==> Flatten(ps)[2 * i] == ps[i].0 && Flatten(ps)[2 * i + 1] == ps[i].1
  {
    if |ps| > 0 {
      FlattenIndex(ps[1..]);
      assert forall i :: 1 <= i < |ps| ==> ps[1..][i - 1] == ps[i];
    }
  }

  /** One pair of `FlattenIndex`. */
  lemma FlattenAt(ps: seq<Pair>, i: nat)
    requires i < |ps|
    ensures 2 * i + 1 < |Flatten(ps)| && Flatten(ps)[2 * i] == ps[i].0 && Flatten(ps)[2 * i + 1] == ps[i].1
  {
    FlattenIndex(ps);
  }

  /** A single pair flattens to its two coordinates. */
  lemma FlattenSingle(p: Pair)
    ensures Flatten([p]) == [p.0, p.1]
  {
    assert [p][1..] == [];
  }

  /** Pairing undoes flattening. */
  lemma {:induction false} PairsOfFlatten(ps: seq<Pair>)
    ensures Pairs(Flatten(ps)) == ps
  {
    if |ps| > 0 {
      PairsOfFlatten(ps[1..]);
      var f := Flatten(ps);
      assert f[2..] == Flatten(ps[1..]);
      assert ps == [ps[0]] + ps[1..];
    }
  }

  /** Flattening undoes pairing when no value is left unpaired. */
  lemma {:induction false} FlattenOfPairs(vals: seq<real>)
    requires |vals| % 2 == 0
    ensures Flatten(Pairs(vals)) == vals
    decreases |vals|
  {
    if |vals| > 0 {
      var ps := Pairs(vals);
      FlattenOfPairs(vals[2..]);
      assert ps[1..] == Pairs(vals[2..]);
      assert Flatten(ps) == [vals[0], vals[1]] + vals[2..];
      assert vals == [vals[0], vals[1]] + vals[2..];
    }
  }

  /** Flattening distributes over concatenation. */
  lemma {:induction false} FlattenAppend(ps: seq<Pair>, qs: seq<Pair>)
    ensures Flatten(ps + qs) == Flatten(ps) + Flatten(qs)
  {
    if |ps| == 0 {
      assert ps + qs == qs;
    } else {
      var head, tail := [ps[0].0, ps[0].1], ps[1..];
      FlattenAppend(tail, qs);
      assert (ps + qs)[0] == ps[0] && (ps + qs)[1..] == tail + qs;
      assert Flatten(ps + qs) == head + Flatten(tail + qs);
      assert Flatten(ps) == head + Flatten(tail);
      AppendAssoc(head, Flatten(tail), Flatten(qs));
    }
  }

  /** Concatenation is associative. */
  lemma AppendAssoc<T>(a: seq<T>, b: seq<T>, c: seq<T>)
    ensures a + (b + c) == (a + b) + c
  {
  }

  /** Pairing a flat list extended by one pair extends its pairing by that pair. */
  lemma {:induction false} PairsAppend(vals: seq<real>, x: real, y: real)
    requires |vals| % 2 == 0
    ensures Pairs(vals + [x, y]) == Pairs(vals) + [(x, y)]
    decreases |vals|
  {
    if |vals| == 0 {
      assert vals + [x, y] == [x, y];
      assert [x, y][2..] == [];
    } else {
      PairsAppend(vals[2..], x, y);
      assert (vals + [x, y])[2..] == vals[2..] + [x, y];
    }
  }

  /** Pairing a flat list extended by flattened pairs extends its pairing by
      those pairs. */
  lemma {:induction false} PairsAppendFlatten(vals: seq<real>, ps: seq<Pair>)
    requires |vals| % 2 == 0
    ensures Pairs(vals + Flatten(ps)) == Pairs(vals) + ps
    decreases |ps|
  {
    if |ps| == 0 {
      assert vals + Flatten(ps) == vals && Pairs(vals) + ps == Pairs(vals);
    } else {
      var p, rest := ps[0], ps[1..];
      var head := [p.0, p.1];
      assert Flatten(ps) == head + Flatten(rest);
      AppendAssoc(vals, head, Flatten(rest));
      PairsAppendFlatten(vals + head, rest);
      PairsAppend(vals, p.0, p.1);
      AppendAssoc(Pairs(vals), [p], rest);
      assert [p] + rest == ps;
    }
  }
}

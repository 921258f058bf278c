/** The cubic Hermite evaluation every generation of the engine performs on a
    window `(prev, current, next, next2)` of control points: tangents are the
    neighbour differences scaled by the tension (Catmull-Rom style). */
module Hermite {
  import opened Flat

  /** The four points a segment needs: the library's `PointsToCalc` tuple. */
  datatype Quad = Quad(prev: Pair, cur: Pair, next: Pair, next2: Pair)

  /** Basis weight of the current point (the source's `c1`). */
  function H00(u: real): real { 2.0 * (u * u * u) - 3.0 * (u * u) + 1.0 }

  /** Basis weight of the next point (`c2`). */
  function H01(u: real): real { -(2.0 * (u * u * u)) + 3.0 * (u * u) }

  /** Basis weight of the incoming tangent (`c3`). */
  function H10(u: real): real { u * u * u - 2.0 * (u * u) + u }

  /** Basis weight of the outgoing tangent (`c4`). */
  function H11(u: real): real { u * u * u - u * u }

  /** The weighted sum `c1 * p0 + c2 * p1 + c3 * m0 + c4 * m1` of two points
      and two tangents, the source's `c1 * cur + c2 * next + c3 * t1 + c4 * t2`. */
  function Blend(c1: real, c2: real, c3: real, c4: real, p0: real, p1: real, m0: real, m1: real): real {
    c1 * p0 + c2 * p1 + c3 * m0 + c4 * m1
  }

  /** One coordinate of the curve at parameter `u`, with tangents
      `(next - prev) * tension` and `(next2 - cur) * tension`. */
  function Interp(prev: real, cur: real, next: real, next2: real, tension: real, u: real): real {
    var t1 := (next - prev) * tension;
    var t2 := (next2 - cur) * tension;
    Blend(H00(u), H01(u), H10(u), H11(u), cur, next, t1, t2)
  }

  /** The cubic `a + b u + c u^2 + d u^3` in power form. */
  function Cubic(a: real, b: real, c: real, d: real, u: real): real {
    a + b * u + c * (u * u) + d * (u * u * u)
  }

  /** The derivative `b + 2 c u + 3 d u^2` of `Cubic(a, b, c, d, u)`. */
  function CubicSlope(b: real, c: real, d: real, u: real): real {
    b + 2.0 * c * u + 3.0 * d * (u * u)
  }

  /** `t1x .. t2y` are the window's tangents scaled by the tension. */
  predicate TangentsFit(q: Quad, tension: real, t1x: real, t2x: real, t1y: real, t2y: real) {
    && t1x == (q.next.0 - q.prev.0) * tension && t2x == (q.next2.0 - q.cur.0) * tension
    && t1y == (q.next.1 - q.prev.1) * tension && t2y == (q.next2.1 - q.cur.1) * tension
  }

  /** The four scaled tangents of a window, computed once per window. */
  method WindowTangents(q: Quad, tension: real) returns (t1x: real, t2x: real, t1y: real, t2y: real)
    ensures TangentsFit(q, tension, t1x, t2x, t1y, t2y)
  {
    t1x := (q.next.0 - q.prev.0) * tension;
    t2x := (q.next2.0 - q.cur.0) * tension;
    t1y := (q.next.1 - q.prev.1) * tension;
    t2y := (q.next2.1 - q.cur.1) * tension;
  }

  /** One coordinate of a sample: the weights `c1 .. c4` at `u` applied to the
      current and next coordinates and to the precomputed tangents. */
  method EvalCoord(prev: real, cur: real, next: real, next2: real, tension: real,
                   c1: real, c2: real, c3: real, c4: real, t1: real, t2: real, u: real)
    returns (v: real)
    requires c1 == H00(u) && c2 == H01(u) && c3 == H10(u) && c4 == H11(u)
    requires t1 == (next - prev) * tension && t2 == (next2 - cur) * tension
    ensures v == Interp(prev, cur, next, next2, tension, u)
  {
    v := Blend(c1, c2, c3, c4, cur, next, t1, t2);
  }

  /** One sample as the source computes it: the basis weights `c1 .. c4` at
      `st`, applied to the current and next points and to the tangents the
      caller computed once per window. */
  method EvalSample(q: Quad, tension: real, t1x: real, t2x: real, t1y: real, t2y: real, st: real)
    returns (x: real, y: real)
    requires TangentsFit(q, tension, t1x, t2x, t1y, t2y)
    ensures (x, y) == InterpPair(q, tension, st)
  {
    var c1, c2, c3, c4 := H00(st), H01(st), H10(st), H11(st);
    x := EvalCoord(q.prev.0, q.cur.0, q.next.0, q.next2.0, tension, c1, c2, c3, c4, t1x, t2x, st);
    y := EvalCoord(q.prev.1, q.cur.1, q.next.1, q.next2.1, tension, c1, c2, c3, c4, t1y, t2y, st);
  }

  /** The curve point of window `q` at parameter `u`. */
  function InterpPair(q: Quad, tension: real, u: real): Pair {
    (Interp(q.prev.0, q.cur.0, q.next.0, q.next2.0, tension, u),
     Interp(q.prev.1, q.cur.1, q.next.1, q.next2.1, tension, u))
  }

  /** A quotient of a non-negative numerator by a positive denominator is
      non-negative, at most 1 when the numerator is at most the denominator,
      and below 1 when it is smaller. */
  lemma QuotientBounds(a: real, b: real)
    requires 0.0 <= a && 0.0 < b
    ensures 0.0 <= a / b
    ensures a <= b ==> a / b <= 1.0
    ensures a < b ==> a / b < 1.0
  {
    var r := a / b;
    assert r * b == a;
    assert (1.0 - r) * b == b - a;
  }

  /** The sample parameter `t / n` of sample `t` out of `n` per segment. */
  function Param(t: nat, n: nat): (u: real)
    requires n > 0
    ensures t <= n ==> 0.0 <= u <= 1.0
    ensures t < n ==> u < 1.0
  {
    QuotientBounds(t as real, n as real);
    (t as real) / (n as real)
  }

  /** Sample `t` sits `t` steps of `1 / n` into the segment. */
  lemma ParamScaled(t: nat, n: nat)
    requires n > 0
    ensures Param(t, n) * (n as real) == t as real
  {
  }

  /** The first sample of a segment has parameter 0 and the `n`-th parameter 1. */
  lemma ParamAtEnds(n: nat)
    requires n > 0
    ensures Param(0, n) == 0.0 && Param(n, n) == 1.0
  {
  }

  /** At `u = 0` the basis is `(1, 0, 0, 0)` and at `u = 1` it is `(0, 1, 0, 0)`. */
  lemma BasisAtEnds()
    ensures H00(0.0) == 1.0 && H01(0.0) == 0.0 && H10(0.0) == 0.0 && H11(0.0) == 0.0
    ensures H00(1.0) == 0.0 && H01(1.0) == 1.0 && H10(1.0) == 0.0 && H11(1.0) == 0.0
  {
  }

  /** One coordinate of a segment starts at the current coordinate, whatever
      the tangents... */
  lemma InterpAtZero(prev: real, cur: real, next: real, next2: real, tension: real)
    ensures Interp(prev, cur, next, next2, tension, 0.0) == cur
  {
    BasisAtEnds();
  }

  /** ...and ends at the next one. */
  lemma InterpAtOne(prev: real, cur: real, next: real, next2: real, tension: real)
    ensures Interp(prev, cur, next, next2, tension, 1.0) == next
  {
    BasisAtEnds();
  }

  /** Every segment starts at its current point... */
  lemma InterpAtStart(q: Quad, tension: real)
    ensures InterpPair(q, tension, 0.0) == q.cur
  {
    InterpAtZero(q.prev.0, q.cur.0, q.next.0, q.next2.0, tension);
    InterpAtZero(q.prev.1, q.cur.1, q.next.1, q.next2.1, tension);
  }

  /** ...and ends at its next point. */
  lemma InterpAtEnd(q: Quad, tension: real)
    ensures InterpPair(q, tension, 1.0) == q.next
  {
    InterpAtOne(q.prev.0, q.cur.0, q.next.0, q.next2.0, tension);
    InterpAtOne(q.prev.1, q.cur.1, q.next.1, q.next2.1, tension);
  }

  /** The weights of the Hermite basis regroup into the power basis: they sum to
      1, and their moments are `u`, `u^2` and `u^3`. */
  lemma BasisMoments(u: real)
    ensures H00(u) + H01(u) == 1.0
    ensures H01(u) + H10(u) + H11(u) == u
    ensures H01(u) + 2.0 * H11(u) == u * u
    ensures H01(u) + 3.0 * H11(u) == u * u * u
  {
  }

  /** Regrouping a blend of `a`, `a + b + c + d`, `b` and `b + 2c + 3d` by the
      power coefficients. */
  lemma {:induction false} BlendRegroup(c1: real, c2: real, c3: real, c4: real, a: real, b: real, c: real, d: real)
    ensures Blend(c1, c2, c3, c4, a, a + b + c + d, b, b + 2.0 * c + 3.0 * d)
         == (c1 + c2) * a + (c2 + c3 + c4) * b + (c2 + 2.0 * c4) * c + (c2 + 3.0 * c4) * d
  {
    assert c2 * (a + b + c + d) == c2 * a + c2 * b + c2 * c + c2 * d;
    assert c4 * (b + 2.0 * c + 3.0 * d) == c4 * b + 2.0 * (c4 * c) + 3.0 * (c4 * d);
  }

  /** A power-form sum whose weights are `1, u, u^2, u^3` is the cubic. */
  lemma PowerSum(a: real, b: real, c: real, d: real, u: real, w0: real, w1: real, w2: real, w3: real)
    requires w0 == 1.0 && w1 == u && w2 == u * u && w3 == u * u * u
    ensures w0 * a + w1 * b + w2 * c + w3 * d == Cubic(a, b, c, d, u)
  {
  }

  /** The curve is THE cubic through the current and the next point whose
      slopes there are the two scaled tangents: any power-form cubic with
      those end values and end slopes agrees with `Interp` everywhere. */
  lemma InterpIsHermiteCubic(prev: real, cur: real, next: real, next2: real, tension: real,
                             a: real, b: real, c: real, d: real, u: real)
    requires Cubic(a, b, c, d, 0.0) == cur && Cubic(a, b, c, d, 1.0) == next
    requires CubicSlope(b, c, d, 0.0) == (next - prev) * tension
    requires CubicSlope(b, c, d, 1.0) == (next2 - cur) * tension
    ensures Interp(prev, cur, next, next2, tension, u) == Cubic(a, b, c, d, u)
  {
    assert cur == a && next == a + b + c + d;
    assert (next - prev) * tension == b && (next2 - cur) * tension == b + 2.0 * c + 3.0 * d;
    BlendRegroup(H00(u), H01(u), H10(u), H11(u), a, b, c, d);
    BasisMoments(u);
    PowerSum(a, b, c, d, u, H00(u) + H01(u), H01(u) + H10(u) + H11(u), H01(u) + 2.0 * H11(u), H01(u) + 3.0 * H11(u));
  }

  /** The curve in power form, with the coefficients the tangents determine:
      `cur + t1 u + (3 (next - cur) - 2 t1 - t2) u^2 + (2 (cur - next) + t1 + t2) u^3`,
      a cubic whose value runs from `cur` to `next` while its slope runs from
      `t1` to `t2`. */
  lemma InterpPowerForm(prev: real, cur: real, next: real, next2: real, tension: real, u: real)
    returns (a: real, b: real, c: real, d: real)
    ensures a == cur && b == (next - prev) * tension
    ensures c == 3.0 * (next - cur) - 2.0 * b - (next2 - cur) * tension
    ensures d == 2.0 * (cur - next) + b + (next2 - cur) * tension
    ensures Cubic(a, b, c, d, 0.0) == cur && Cubic(a, b, c, d, 1.0) == next
    ensures CubicSlope(b, c, d, 0.0) == (next - prev) * tension
    ensures CubicSlope(b, c, d, 1.0) == (next2 - cur) * tension
    ensures Interp(prev, cur, next, next2, tension, u) == Cubic(a, b, c, d, u)
  {
    var t1, t2 := (next - prev) * tension, (next2 - cur) * tension;
    a, b := cur, t1;
    c, d := 3.0 * (next - cur) - 2.0 * t1 - t2, 2.0 * (cur - next) + t1 + t2;
    InterpIsHermiteCubic(prev, cur, next, next2, tension, a, b, c, d, u);
  }
}

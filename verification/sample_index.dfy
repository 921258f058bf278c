/** Index arithmetic shared by the sampling loops: sample `t` of window `j`,
    with `k` samples per window, sits at position `j * k + t` of the output. */
module SampleIndex {

  /** A positive multiple of `k` is at least `k`. */
  lemma {:induction false} MulAtLeast(a: int, k: nat)
    requires a >= 1
    ensures a * k >= k
  {
    if a > 1 {
      MulAtLeast(a - 1, k);
      assert a * k == (a - 1) * k + k;
    }
  }

  /** Position `j * k + t` decomposes back into window `j` and sample `t`. */
  lemma DivModOfSample(j: nat, t: nat, k: nat)
    requires t < k
    ensures (j * k + t) / k == j
    ensures (j * k + t) % k == t
  {
    var n := j * k + t;
    var q, r := n / k, n % k;
    assert n == q * k + r;
    assert (q - j) * k == t - r;
    if q - j >= 1 {
      MulAtLeast(q - j, k);
    } else if j - q >= 1 {
      MulAtLeast(j - q, k);
    }
  }

  /** Window `j + 1` starts `k` positions after window `j`. */
  lemma NextWindowStart(j: nat, k: nat)
    ensures (j + 1) * k == j * k + k
  {
  }

  /** Sample `t` of window `j < w` lies inside the first `w` windows. */
  lemma PositionInRange(j: nat, t: nat, k: nat, w: nat)
    requires j < w && t < k
    ensures j * k + t < w * k
  {
    MulAtLeast(w - j, k);
    assert w * k == j * k + (w - j) * k;
  }

  /** A prefix of `s` followed by the next `|block|` elements of `s` is a
      longer prefix of `s`. */
  lemma ExtendPrefix<T>(s: seq<T>, prefix: seq<T>, block: seq<T>, a: nat)
    requires a + |block| <= |s| && prefix == s[..a]
    requires forall t :: 0 <= t < |block| ==> s[a + t] == block[t]
    ensures prefix + block == s[..a + |block|]
  {
    forall m | 0 <= m < a + |block|
      ensures (prefix + block)[m] == s[m]
    {
      if m >= a {
        assert s[a + (m - a)] == block[m - a];
      }
    }
  }

  /** A position inside the first `w` windows belongs to one of them. */
  lemma WindowOfPosition(i: nat, k: nat, w: nat)
    requires 0 < k
    requires i < w * k
    ensures i / k < w
    ensures i == (i / k) * k + i % k
  {
    var q := i / k;
    if q >= w {
      MulAtLeast(q - w + 1, k);
    }
  }

  /** An element of a block that follows a prefix, seen through a longer sequence. */
  lemma SampleInBlock<T>(s: seq<T>, prefix: seq<T>, block: seq<T>, t: nat)
    requires prefix + block <= s && t < |block|
    ensures |prefix| + t < |s| && s[|prefix| + t] == block[t]
  {
    assert (prefix + block)[|prefix| + t] == block[t];
  }

  /** Extending a slice of `w` by one element appends that element. */
  lemma SnocSlice<T>(a: seq<T>, w: seq<T>, t: nat)
    requires t < |w|
    ensures a + w[..t + 1] == (a + w[..t]) + [w[t]]
  {
    assert w[..t + 1] == w[..t] + [w[t]];
  }
}

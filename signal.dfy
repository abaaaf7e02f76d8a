/**
 * Arithmetic over sample sequences shared by the feature extractor: the sums
 * that `Array.prototype.reduce` computes, means, population variance, and
 * counts of events between adjacent samples.
 */
module Signal {

  /** `Math.abs` */
  function Abs(x: real): (r: real)
    ensures r >= 0.0
    ensures r == x || r == -x
  {
    if x < 0.0 then -x else x
  }

  /** `Math.max` of two numbers */
  function Max(a: real, b: real): (r: real)
    ensures r >= a && r >= b
    ensures r == a || r == b
  {
    if a >= b then a else b
  }

  /** `Math.min` of two numbers */
  function Min(a: real, b: real): (r: real)
    ensures r <= a && r <= b
    ensures r == a || r == b
  {
    if a <= b then a else b
  }

  function Id(x: real): real { x }

  /** The squared deviation from `m`, `Math.pow(x - m, 2)`. */
  function SqDev(m: real): real -> real
  {
    x => (x - m) * (x - m)
  }

  /**
   * `s.reduce((sum, v) => sum + f(v), 0)`: a left fold, so the last
   * element is added last.
   */
  function SumOf(s: seq<real>, f: real -> real): real
  {
    if s == [] then 0.0 else SumOf(s[..|s| - 1], f) + f(s[|s| - 1])
  }

  function Mean(s: seq<real>): real
    requires |s| > 0
  {
    SumOf(s, Id) / |s| as real
  }

  /** Population variance: the mean squared deviation from the mean. */
  function PopulationVariance(s: seq<real>): (v: real)
    requires |s| > 0
    ensures v >= 0.0
  {
    var m := Mean(s);
    SqDevNonNegative(s, m);
    SumOfAtLeast(s, SqDev(m), 0.0);
    SumOf(s, SqDev(m)) / |s| as real
  }

  lemma SqDevNonNegative(s: seq<real>, m: real)
    ensures forall i :: 0 <= i < |s| ==> SqDev(m)(s[i]) >= 0.0
  {
    forall i | 0 <= i < |s|
      ensures SqDev(m)(s[i]) >= 0.0
    {
      var d := s[i] - m;
      assert SqDev(m)(s[i]) == d * d;
      if d < 0.0 {
        assert d * d == (-d) * (-d);
      }
    }
  }

  lemma {:induction false} SumOfConcat(a: seq<real>, b: seq<real>, f: real -> real)
    ensures SumOf(a + b, f) == SumOf(a, f) + SumOf(b, f)
    decreases |b|
  {
    if b == [] {
      assert a + b == a;
    } else {
      var b' := b[..|b| - 1];
      assert (a + b)[..|a + b| - 1] == a + b';
      SumOfConcat(a, b', f);
    }
  }

  /** Every term at least `lo` makes the sum at least `|s|·lo`. */
  lemma {:induction false} SumOfAtLeast(s: seq<real>, f: real -> real, lo: real)
    requires forall i :: 0 <= i < |s| ==> f(s[i]) >= lo
    ensures SumOf(s, f) >= |s| as real * lo
  {
    if s != [] {
      var p := s[..|s| - 1];
      assert forall i :: 0 <= i < |p| ==> p[i] == s[i];
      SumOfAtLeast(p, f, lo);
      assert |s| as real * lo == |p| as real * lo + lo;
    }
  }

  /** Every term at most `hi` makes the sum at most `|s|·hi`. */
  lemma {:induction false} SumOfAtMost(s: seq<real>, f: real -> real, hi: real)
    requires forall i :: 0 <= i < |s| ==> f(s[i]) <= hi
    ensures SumOf(s, f) <= |s| as real * hi
  {
    if s != [] {
      var p := s[..|s| - 1];
      assert forall i :: 0 <= i < |p| ==> p[i] == s[i];
      SumOfAtMost(p, f, hi);
      assert |s| as real * hi == |p| as real * hi + hi;
    }
  }

  /** With nonnegative terms the sum is at least any one of them. */
  lemma {:induction false} SumOfAtLeastTerm(s: seq<real>, f: real -> real, k: nat)
    requires forall i :: 0 <= i < |s| ==> f(s[i]) >= 0.0
    requires k < |s|
    ensures SumOf(s, f) >= f(s[k])
  {
    var p := s[..|s| - 1];
    assert forall i :: 0 <= i < |p| ==> p[i] == s[i];
    SumOfAtLeast(p, f, 0.0);
    if k < |s| - 1 {
      SumOfAtLeastTerm(p, f, k);
    }
  }

  /** A sum over a sequence depends only on the multiset of its elements. */
  lemma {:induction false} SumOfPermutation(s: seq<real>, t: seq<real>, f: real -> real)
    requires multiset(s) == multiset(t)
    ensures SumOf(s, f) == SumOf(t, f)
    decreases |s|
  {
    assert |s| == |multiset(s)| == |t|;
    if s != [] {
      var x := s[|s| - 1];
      var s' := s[..|s| - 1];
      assert s == s' + [x];
      assert x in multiset(t);
      var i :| 0 <= i < |t| && t[i] == x;
      var t' := t[..i] + t[i + 1..];
      assert t == t[..i] + [x] + t[i + 1..];
      assert multiset(s') == multiset(s) - multiset{x};
      assert multiset(t') == multiset(t) - multiset{x};
      SumOfPermutation(s', t', f);
      SumOfConcat(t[..i] + [x], t[i + 1..], f);
      SumOfConcat(t[..i], [x], f);
      SumOfConcat(t[..i], t[i + 1..], f);
      assert SumOf([x], f) == f(x) by {
        assert [x][..0] == [];
      }
    }
  }

  /** Every element equal to `c` makes the mean `c` and the variance 0. */
  lemma ConstantVariance(s: seq<real>, c: real)
    requires |s| > 0
    requires forall i :: 0 <= i < |s| ==> s[i] == c
    ensures Mean(s) == c
    ensures PopulationVariance(s) == 0.0
  {
    SumOfAtLeast(s, Id, c);
    SumOfAtMost(s, Id, c);
    assert SumOf(s, Id) == |s| as real * c;
    assert forall i :: 0 <= i < |s| ==> SqDev(c)(s[i]) == 0.0;
    SumOfAtLeast(s, SqDev(c), 0.0);
    SumOfAtMost(s, SqDev(c), 0.0);
  }

  /**
   * The number of indices i in [1, n) for which `edge(s[i - 1], s[i])`
   * holds, counted in the order of a `for (i = 1; i < n; i++)` loop.
   */
  function CountAdjacent(s: seq<real>, n: nat, edge: (real, real) -> bool): (c: nat)
    requires n <= |s|
    ensures n >= 1 ==> c <= n - 1
  {
    if n <= 1 then 0
    else CountAdjacent(s, n - 1, edge) + (if EdgeAt(s, n - 1, edge) then 1 else 0)
  }

  /** Whether the pair (s[i - 1], s[i]) satisfies `edge`. */
  predicate EdgeAt(s: seq<real>, i: nat, edge: (real, real) -> bool)
    requires 1 <= i < |s|
  {
    edge(s[i - 1], s[i])
  }

  /** The indices that `CountAdjacent` counts. */
  function AdjacentIndices(s: seq<real>, n: nat, edge: (real, real) -> bool): set<nat>
    requires n <= |s|
  {
    set i: nat | 1 <= i < n && EdgeAt(s, i, edge)
  }

  /** The count is exactly the number of adjacent pairs that satisfy `edge`. */
  lemma {:induction false} CountAdjacentIsCardinality(s: seq<real>, n: nat, edge: (real, real) -> bool)
    requires n <= |s|
    ensures CountAdjacent(s, n, edge) == |AdjacentIndices(s, n, edge)|
  {
    if n <= 1 {
      assert AdjacentIndices(s, n, edge) == {};
    } else {
      CountAdjacentIsCardinality(s, n - 1, edge);
      var before := AdjacentIndices(s, n - 1, edge);
      if EdgeAt(s, n - 1, edge) {
        assert AdjacentIndices(s, n, edge) == before + {n - 1};
        assert n - 1 !in before;
      } else {
        assert AdjacentIndices(s, n, edge) == before;
      }
    }
  }

  /** No adjacent pair satisfying `edge` makes the count 0. */
  lemma {:induction false} CountAdjacentNone(s: seq<real>, n: nat, edge: (real, real) -> bool)
    requires n <= |s|
    requires forall i :: 1 <= i < n ==> !EdgeAt(s, i, edge)
    ensures CountAdjacent(s, n, edge) == 0
  {
    if n > 1 {
      CountAdjacentNone(s, n - 1, edge);
    }
  }

  // ------------------------------------------- facts of real arithmetic

  lemma MulMonotone(a: real, b: real, w: real)
    requires a <= b && w >= 0.0
    ensures a * w <= b * w
  {
    assert b * w - a * w == (b - a) * w;
  }

  lemma DivMonotone(a: real, b: real, c: real)
    requires a <= b && c > 0.0
    ensures a / c <= b / c
  {
    assert b / c - a / c == (b - a) / c;
  }

  lemma CancelFactor(a: real, b: real)
    requires b != 0.0
    ensures (a * b) / b == a
  {
  }

  lemma AtLeastOne(a: real, b: real)
    requires 0.0 < b <= a
    ensures a / b >= 1.0
  {
  }

  lemma DivBelowOne(a: real, b: real)
    requires 0.0 < b && a < b
    ensures a / b < 1.0
  {
  }

  lemma MulAtMost(a: real, w: real)
    requires a <= 1.0 && w >= 0.0
    ensures a * w <= w
  {
    assert w - a * w == (1.0 - a) * w;
    MulMonotone(0.0, 1.0 - a, w);
  }

  lemma MulBelow(a: real, w: real)
    requires a < 1.0 && w > 0.0
    ensures a * w < w
  {
    assert w - a * w == (1.0 - a) * w;
  }

  lemma StepAtMost(sum: real, total: real, t: real, w: real)
    requires sum <= total && t <= 1.0 && w >= 0.0
    ensures sum + t * w <= total + w
  {
    MulAtMost(t, w);
  }

  lemma StepNonNegative(sum: real, t: real, w: real)
    requires sum >= 0.0 && t >= 0.0 && w >= 0.0
    ensures sum + t * w >= 0.0
  {
    MulMonotone(0.0, t, w);
  }

  lemma StepKeepsBelow(sum: real, total: real, t: real, w: real)
    requires sum < total && t <= 1.0 && w >= 0.0
    ensures sum + t * w < total + w
  {
    MulAtMost(t, w);
  }

  lemma StepGoesBelow(sum: real, total: real, t: real, w: real)
    requires sum <= total && t < 1.0 && w > 0.0
    ensures sum + t * w < total + w
  {
    MulBelow(t, w);
  }

  lemma NatMulMonotone(a: nat, b: nat, w: nat)
    requires a <= b
    ensures a * w <= b * w
  {
    assert b * w == a * w + (b - a) * w;
  }
}

/** Numeric helpers over ordered series of reals, shared by the analytics modules. */
module SeqMath {

  /** `None` stands for a result the original computes as NaN or an infinity. */
  datatype Option<+T> = None | Some(value: T)

  function Abs(x: real): (r: real)
    ensures r >= 0.0 && (r == x || r == -x)
  {
    if x < 0.0 then -x else x
  }

  /** Left-to-right sum: the fold `reduce((a, b) => a + b, 0)`. */
  function Sum(s: seq<real>): real
    decreases |s|
  {
    if |s| == 0 then 0.0 else Sum(s[..|s| - 1]) + s[|s| - 1]
  }

  /** Arithmetic mean; the empty series has no mean and is given 0. */
  function Mean(s: seq<real>): real
  {
    if |s| == 0 then 0.0 else Sum(s) / (|s| as real)
  }

  /** Largest element, found as a running maximum over the prefixes. */
  function Max(s: seq<real>): (m: real)
    requires |s| > 0
    ensures forall i :: 0 <= i < |s| ==> s[i] <= m
    ensures m in s
    decreases |s|
  {
    if |s| == 1 then s[0]
    else
      var m' := Max(s[..|s| - 1]);
      assert m' in s;
      if s[|s| - 1] > m' then s[|s| - 1] else m'
  }

  /** Smallest element, found as a running minimum over the prefixes. */
  function Min(s: seq<real>): (m: real)
    requires |s| > 0
    ensures forall i :: 0 <= i < |s| ==> m <= s[i]
    ensures m in s
    decreases |s|
  {
    if |s| == 1 then s[0]
    else
      var m' := Min(s[..|s| - 1]);
      assert m' in s;
      if s[|s| - 1] < m' then s[|s| - 1] else m'
  }

  /** The strictly positive elements, in order: `filter(v => v > 0)`. */
  function Positives(s: seq<real>): (r: seq<real>)
    ensures |r| <= |s|
    ensures forall x :: x in r <==> x in s && x > 0.0
    decreases |s|
  {
    if |s| == 0 then []
    else
      var r' := Positives(s[..|s| - 1]);
      assert s == s[..|s| - 1] + [s[|s| - 1]];
      if s[|s| - 1] > 0.0 then r' + [s[|s| - 1]] else r'
  }

  /** `Math.pow(x, 2)`. */
  function Square(x: real): (r: real)
    ensures r >= 0.0
  {
    x * x
  }

  /** Sum of squared deviations from `m`. */
  function SumSquares(s: seq<real>, m: real): real
    decreases |s|
  {
    if |s| == 0 then 0.0
    else SumSquares(s[..|s| - 1], m) + Square(s[|s| - 1] - m)
  }

  /** Population variance: the mean squared deviation from the mean (divide by |s|). */
  function Variance(s: seq<real>): real
  {
    if |s| == 0 then 0.0 else SumSquares(s, Mean(s)) / (|s| as real)
  }

  lemma {:induction false} SumAppend(a: seq<real>, b: seq<real>)
    ensures Sum(a + b) == Sum(a) + Sum(b)
    decreases |b|
  {
    if |b| > 0 {
      var c := a + b;
      assert c[..|c| - 1] == a + b[..|b| - 1];
      SumAppend(a, b[..|b| - 1]);
    } else {
      assert a + b == a;
    }
  }

  /** A sum of |s| terms each within [lo, hi] lies within [|s|*lo, |s|*hi]. */
  lemma {:induction false} SumBounds(s: seq<real>, lo: real, hi: real)
    requires forall i :: 0 <= i < |s| ==> lo <= s[i] <= hi
    ensures (|s| as real) * lo <= Sum(s) <= (|s| as real) * hi
    decreases |s|
  {
    if |s| > 0 {
      var t := s[..|s| - 1];
      assert forall i :: 0 <= i < |t| ==> t[i] == s[i];
      SumBounds(t, lo, hi);
      assert (|s| as real) * lo == (|t| as real) * lo + lo;
      assert (|s| as real) * hi == (|t| as real) * hi + hi;
    }
  }

  /** Dividing bounds n*lo <= x <= n*hi by a positive n. */
  lemma DivideBounds(x: real, n: real, lo: real, hi: real)
    requires n > 0.0 && n * lo <= x <= n * hi
    ensures lo <= x / n <= hi
  {
    var q := x / n;
    assert x == n * q;
    assert n * (q - lo) >= 0.0;
    assert n * (hi - q) >= 0.0;
  }

  /** A quotient is the factor that multiplies the divisor back to the dividend. */
  lemma DivideExact(x: real, n: real, q: real)
    requires n > 0.0 && q * n == x
    ensures x / n == q
  {
    var d := x / n;
    assert d * n == x;
    assert (d - q) * n == 0.0;
  }

  /** The mean of terms each within [lo, hi] lies within [lo, hi]. */
  lemma MeanBounds(s: seq<real>, lo: real, hi: real)
    requires |s| > 0
    requires forall i :: 0 <= i < |s| ==> lo <= s[i] <= hi
    ensures lo <= Mean(s) <= hi
  {
    SumBounds(s, lo, hi);
    DivideBounds(Sum(s), |s| as real, lo, hi);
  }

  /** The mean of a non-empty series lies between its minimum and its maximum. */
  lemma MeanWithinRange(s: seq<real>)
    requires |s| > 0
    ensures Min(s) <= Mean(s) <= Max(s)
  {
    MeanBounds(s, Min(s), Max(s));
  }

  /** The sum of a series whose elements all equal c is |s|*c. */
  lemma {:induction false} SumConstant(s: seq<real>, c: real)
    requires forall i :: 0 <= i < |s| ==> s[i] == c
    ensures Sum(s) == (|s| as real) * c
    decreases |s|
  {
    if |s| > 0 {
      var t := s[..|s| - 1];
      assert forall i :: 0 <= i < |t| ==> t[i] == s[i];
      SumConstant(t, c);
    }
  }

  lemma {:induction false} SumSquaresNonNegative(s: seq<real>, m: real)
    ensures SumSquares(s, m) >= 0.0
    decreases |s|
  {
    if |s| > 0 {
      SumSquaresNonNegative(s[..|s| - 1], m);
    }
  }

  /** Deviations from m vanish when every element equals m. */
  lemma {:induction false} SumSquaresOfConstant(s: seq<real>, m: real)
    requires forall i :: 0 <= i < |s| ==> s[i] == m
    ensures SumSquares(s, m) == 0.0
    decreases |s|
  {
    if |s| > 0 {
      var t := s[..|s| - 1];
      assert forall i :: 0 <= i < |t| ==> t[i] == s[i];
      SumSquaresOfConstant(t, m);
      assert Square(s[|s| - 1] - m) == Square(0.0) == 0.0;
    }
  }

  /** A variance is never negative. */
  lemma VarianceNonNegative(s: seq<real>)
    ensures Variance(s) >= 0.0
  {
    if |s| > 0 {
      SumSquaresNonNegative(s, Mean(s));
    }
  }

  /** A flat series (all elements equal) has variance exactly zero. */
  lemma FlatHasZeroVariance(s: seq<real>)
    requires |s| > 0
    requires forall i :: 0 <= i < |s| ==> s[i] == s[0]
    ensures Variance(s) == 0.0
  {
    var n := |s| as real;
    SumConstant(s, s[0]);
    assert Mean(s) == (n * s[0]) / n == s[0];
    SumSquaresOfConstant(s, s[0]);
  }

  /** A series with no positive element filters down to nothing. */
  lemma {:induction false} PositivesOfNonPositive(s: seq<real>)
    requires forall i :: 0 <= i < |s| ==> s[i] <= 0.0
    ensures Positives(s) == []
    decreases |s|
  {
    if |s| > 0 {
      PositivesOfNonPositive(s[..|s| - 1]);
    }
  }

  lemma {:induction false} PositivesAppend(a: seq<real>, b: seq<real>)
    ensures Positives(a + b) == Positives(a) + Positives(b)
    decreases |b|
  {
    if |b| == 0 {
      assert a + b == a;
    } else {
      var c := a + b;
      assert c[..|c| - 1] == a + b[..|b| - 1];
      PositivesAppend(a, b[..|b| - 1]);
    }
  }

  /** The mean of two values is their midpoint. */
  lemma MeanOfPair(a: real, b: real)
    ensures Mean([a, b]) == (a + b) / 2.0
  {
    var s := [a, b];
    assert s[..1] == [a];
    assert Sum([a]) == a by {
      assert [a][..0] == [];
    }
    assert Sum(s) == Sum(s[..1]) + b;
    assert |[a, b]| as real == 2.0;
  }
}

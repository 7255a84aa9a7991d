/** Sums over sequences of reals: the quantities the benchmark's kernel and
    its statistics accumulate, written from the end of the sequence so that
    they follow a left-to-right accumulation loop one element at a time. */
module RealSums {

  /** Sum of all elements. */
  function Sum(s: seq<real>): real
  {
    if |s| == 0 then 0.0 else Sum(s[..|s| - 1]) + s[|s| - 1]
  }

  /** Sum of the squares of all elements. */
  function SumSq(s: seq<real>): real
  {
    if |s| == 0 then 0.0 else SumSq(s[..|s| - 1]) + s[|s| - 1] * s[|s| - 1]
  }

  /** Sum of squared distances of the elements from the point c. */
  function Deviation(s: seq<real>, c: real): real
  {
    if |s| == 0 then 0.0
    else Deviation(s[..|s| - 1], c) + (s[|s| - 1] - c) * (s[|s| - 1] - c)
  }

  /** Arithmetic mean of a non-empty sequence. */
  function Average(s: seq<real>): real
    requires |s| > 0
  {
    Sum(s) / (|s| as real)
  }

  /** Population variance: mean squared distance from the mean. */
  function PopVariance(s: seq<real>): real
    requires |s| > 0
  {
    Deviation(s, Average(s)) / (|s| as real)
  }

  /** Trial times 1, 2, 3 have mean 2 and population variance 2/3. */
  lemma ThreeTimesExample()
    ensures Average([1.0, 2.0, 3.0]) == 2.0
    ensures PopVariance([1.0, 2.0, 3.0]) == 2.0 / 3.0
  {
    var s1, s2, s3 := [1.0], [1.0, 2.0], [1.0, 2.0, 3.0];
    assert s1[..0] == [] && s2[..1] == s1 && s3[..2] == s2;
    assert Sum(s1) == 1.0 && Sum(s2) == 3.0 && Sum(s3) == 6.0;
    assert Deviation(s1, 2.0) == 1.0 && Deviation(s2, 2.0) == 1.0 && Deviation(s3, 2.0) == 2.0;
  }

  /** A sum of squares is never negative. */
  lemma {:induction false} DeviationNonNegative(s: seq<real>, c: real)
    ensures Deviation(s, c) >= 0.0
  {
    if |s| > 0 {
      DeviationNonNegative(s[..|s| - 1], c);
      var d := s[|s| - 1] - c;
      if d < 0.0 {
        assert d * d == (-d) * (-d);
      }
      assert d * d >= 0.0;
    }
  }

  /** The sum of squared distances from c of n numbers with sum t and sum of
      squares q, once the squares are expanded. */
  function Expanded(q: real, t: real, n: real, c: real): real
  {
    q - 2.0 * c * t + n * c * c
  }

  /** Expanding the squares: the distances from c are the raw sums corrected by c. */
  lemma {:induction false} DeviationExpand(s: seq<real>, c: real)
    ensures Deviation(s, c) == Expanded(SumSq(s), Sum(s), |s| as real, c)
  {
    if |s| > 0 {
      var t, x := s[..|s| - 1], s[|s| - 1];
      DeviationExpand(t, c);
      ExpandedStep(SumSq(t), Sum(t), |t| as real, c, x, SumSq(s), Sum(s), |s| as real);
    }
  }

  /** Adding one number x to the expansion. */
  lemma ExpandedStep(q: real, t: real, n: real, c: real, x: real, q': real, t': real, n': real)
    requires q' == q + x * x && t' == t + x && n' == n + 1.0
    ensures Expanded(q, t, n, c) + (x - c) * (x - c) == Expanded(q', t', n', c)
  {}

  /** (a / n) / n == a / (n * n), with the square taken on integers as the
      source does. */
  lemma DivTwice(a: real, n: int)
    requires n > 0
    ensures (a / (n as real)) / (n as real) == a / ((n * n) as real)
  {
    assert n * n > 0;
    CastSquare(n);
    DivTwiceTimesSquare(a, n as real);
    DivUnique((a / (n as real)) / (n as real), a, (n * n) as real);
  }

  lemma CastSquare(n: int)
    ensures (n * n) as real == (n as real) * (n as real)
  {}

  lemma DivTwiceTimesSquare(a: real, n: real)
    requires n > 0.0
    ensures ((a / n) / n) * (n * n) == a
  {}

  lemma DivUnique(x: real, y: real, w: real)
    requires w != 0.0
    requires x * w == y
    ensures x == y / w
  {}

  lemma DivNonNegative(d: real, n: real)
    requires d >= 0.0 && n > 0.0
    ensures d / n >= 0.0
  {}

  lemma DivDifference(a: real, b: real, n: real)
    requires n != 0.0
    ensures (a - b) / n == a / n - b / n
  {}

  lemma CompleteSquare(q: real, t: real, n: real)
    requires n > 0.0
    ensures q - 2.0 * (t / n) * t + n * (t / n) * (t / n) == q - t * t / n
  {}

  /** The algebra of the one-pass variance formula on plain numbers: d is the
      sum of squared distances from the mean t / n, q the sum of squares. */
  lemma RadicandAlgebra(q: real, t: real, n: int, c: real, d: real, p: real)
    requires n > 0
    requires c == t / (n as real)
    requires d == Expanded(q, t, n as real, c)
    requires d >= 0.0
    requires p == d / (n as real)
    ensures OnePassRadicand(q, t, n) == p
    ensures p >= 0.0
  {
    DivNonNegative(d, n as real);
    CompleteSquare(q, t, n as real);
    DivDifference(q, t * t / (n as real), n as real);
    DivTwice(t * t, n);
  }

  /** The one-pass variance formula E[x^2] - E[x]^2 on a sum of squares sum2,
      a sum and a positive count n, with the count squared on integers. */
  function OnePassRadicand(sum2: real, sum: real, n: int): real
    requires n > 0
  {
    sum2 / (n as real) - sum * sum / ((n * n) as real)
  }

  /** The one-pass formula applied to a non-empty sequence is its population
      variance, hence never negative over the reals. */
  lemma {:induction false} VarianceRadicand(s: seq<real>)
    requires |s| > 0
    ensures OnePassRadicand(SumSq(s), Sum(s), |s|) == PopVariance(s)
    ensures PopVariance(s) >= 0.0
  {
    var mu := Average(s);
    DeviationExpand(s, mu);
    DeviationNonNegative(s, mu);
    RadicandAlgebra(SumSq(s), Sum(s), |s|, mu, Deviation(s, mu), PopVariance(s));
  }
}

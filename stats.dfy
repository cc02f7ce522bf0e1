/** Window statistics of the statistical detector: the sum, the mean and the
    population variance (dividing by N) of a sequence of values, and the
    bound (Samuelson's inequality) that limits how far one member of the
    window can lie from the window's own mean. */
module Stats {

  /** `xs.reduce((a, b) => a + b, 0)`, folded from the left. */
  function Sum(xs: seq<real>): real
    decreases |xs|
  {
    if xs == [] then 0.0 else Sum(xs[..|xs| - 1]) + xs[|xs| - 1]
  }

  /** `xs.reduce((a, b) => a + Math.pow(b - m, 2), 0)`. */
  function SumSquaredDeviations(xs: seq<real>, m: real): real
    decreases |xs|
  {
    if xs == [] then 0.0
    else SumSquaredDeviations(xs[..|xs| - 1], m) + (xs[|xs| - 1] - m) * (xs[|xs| - 1] - m)
  }

  function Mean(xs: seq<real>): real
    requires |xs| > 0
  {
    Sum(xs) / (|xs| as real)
  }

  /** Population variance: the squared deviations divided by N. */
  function Variance(xs: seq<real>): real
    requires |xs| > 0
  {
    SumSquaredDeviations(xs, Mean(xs)) / (|xs| as real)
  }

  /** sqrt is a square root on the non-negative reals (standing in for Math.sqrt). */
  ghost predicate IsSqrt(sqrt: real -> real) {
    forall x: real :: 0.0 <= x ==> 0.0 <= sqrt(x) && Square(sqrt(x)) == x
  }

  function Square(x: real): real {
    x * x
  }

  lemma SquareNonNegative(x: real)
    ensures x * x >= 0.0
  {
    if x < 0.0 {
      assert x * x == (-x) * (-x);
    }
  }

  lemma {:induction false} SumAppend(a: seq<real>, b: seq<real>)
    ensures Sum(a + b) == Sum(a) + Sum(b)
    decreases |b|
  {
    if b == [] {
      assert a + b == a;
    } else {
      assert (a + b)[..|a + b| - 1] == a + b[..|b| - 1];
      SumAppend(a, b[..|b| - 1]);
    }
  }

  lemma {:induction false} SumSquaredDeviationsAppend(a: seq<real>, b: seq<real>, m: real)
    ensures SumSquaredDeviations(a + b, m) == SumSquaredDeviations(a, m) + SumSquaredDeviations(b, m)
    decreases |b|
  {
    if b == [] {
      assert a + b == a;
    } else {
      assert (a + b)[..|a + b| - 1] == a + b[..|b| - 1];
      SumSquaredDeviationsAppend(a, b[..|b| - 1], m);
    }
  }

  lemma {:induction false} SumSquaredDeviationsNonNegative(xs: seq<real>, m: real)
    ensures SumSquaredDeviations(xs, m) >= 0.0
    decreases |xs|
  {
    if xs != [] {
      SumSquaredDeviationsNonNegative(xs[..|xs| - 1], m);
      SquareNonNegative(xs[|xs| - 1] - m);
    }
  }

  lemma VarianceNonNegative(xs: seq<real>)
    requires |xs| > 0
    ensures Variance(xs) >= 0.0
  {
    SumSquaredDeviationsNonNegative(xs, Mean(xs));
  }

  lemma Cancel(n: real, x: real, y: real)
    requires n > 0.0 && n * x >= n * y
    ensures x >= y
  {
  }

  /** 2sa <= q + n a^2 whenever s^2 <= n q: the induction step of Cauchy-Schwarz. */
  lemma CrossTermBound(n: real, s: real, q: real, a: real)
    requires n > 0.0 && s * s <= n * q
    ensures 2.0 * s * a <= q + n * a * a
  {
    var t := s - n * a;
    SquareNonNegative(t);
    assert t * t == s * s - 2.0 * n * s * a + n * n * a * a;
    assert n * (q + n * a * a) == n * q + n * n * a * a;
    assert n * (q + n * a * a) >= n * (2.0 * s * a);
    Cancel(n, q + n * a * a, 2.0 * s * a);
  }

  /** One induction step of Cauchy-Schwarz: adding a term a to a sequence of
      n terms with sum s and sum of squares q keeps sum^2 <= count * squares. */
  lemma StepBound(n: real, s: real, q: real, a: real, bigN: real, bigS: real, bigQ: real)
    requires n >= 0.0 && s * s <= n * q
    requires n == 0.0 ==> s == 0.0 && q == 0.0
    requires bigN == n + 1.0 && bigS == s + a && bigQ == q + a * a
    ensures Square(bigS) <= bigN * bigQ
  {
    assert bigS * bigS == s * s + 2.0 * s * a + a * a;
    assert bigN * bigQ == n * q + q + n * a * a + a * a;
    if n > 0.0 {
      CrossTermBound(n, s, q, a);
    }
  }

  /** A product of two positive factors is positive. The product is passed
      in as p so that the fact is about p itself. */
  lemma MulPositive(c: real, d: real, p: real)
    requires c > 0.0 && d > 0.0 && p == c * d
    ensures p > 0.0
  {
  }

  /** Multiplying by a positive factor keeps a strict order. */
  lemma MulStrict(c: real, x: real, y: real, cx: real, cy: real)
    requires c > 0.0 && y > x && cx == c * x && cy == c * y
    ensures cy > cx
  {
    MulPositive(c, y - x, cy - cx);
  }

  lemma SquarePositive(x: real)
    ensures x != 0.0 ==> Square(x) > 0.0
  {
    if x > 0.0 {
      MulPositive(x, x, Square(x));
    } else if x < 0.0 {
      MulPositive(-x, -x, Square(x));
    }
  }

  /** On the non-negative reals squaring is strictly increasing. */
  lemma SquareAbove(a: real, b: real)
    requires a >= 0.0 && b >= 0.0
    ensures a > b <==> Square(a) > Square(b)
  {
    if a > b {
      MulPositive(a + b, a - b, Square(a) - Square(b));
    } else if b > a {
      MulPositive(a + b, b - a, Square(b) - Square(a));
    }
  }

  /** The square root of 0 is 0 and that of a positive number is positive. */
  lemma SqrtOf(sqrt: real -> real, x: real)
    requires IsSqrt(sqrt) && x >= 0.0
    ensures sqrt(x) >= 0.0 && Square(sqrt(x)) == x
    ensures x > 0.0 ==> sqrt(x) > 0.0
    ensures x == 0.0 ==> sqrt(x) == 0.0
  {
    SquarePositive(sqrt(x));
  }

  /** a / s > t exactly when a > t * s, for a positive divisor s. */
  lemma QuotientAbove(a: real, s: real, t: real)
    requires s > 0.0
    ensures a / s > t <==> a > t * s
  {
    assert a / s * s == a;
    if a / s > t {
      MulStrict(s, t, a / s, s * t, a);
    } else if a / s < t {
      MulStrict(s, a / s, t, a, s * t);
    }
  }

  /** Dividing by the square root s of the variance: a^2 <= k * variance
      gives (a / s)^2 <= k. */
  lemma QuotientSquareBound(a: real, s: real, variance: real, k: real)
    requires s > 0.0 && Square(s) == variance && Square(a) <= k * variance
    ensures Square(a / s) <= k
  {
    var z := a / s;
    assert z * s == a;
    assert Square(z) * variance == Square(a);
    SquarePositive(s);
    if Square(z) > k {
      MulStrict(variance, k, Square(z), variance * k, variance * Square(z));
    }
  }

  /** `xs.reduce((a, b) => a + (b - m), 0)`: the deviations from m, summed. */
  function SumDeviations(xs: seq<real>, m: real): real
    decreases |xs|
  {
    if xs == [] then 0.0 else SumDeviations(xs[..|xs| - 1], m) + (xs[|xs| - 1] - m)
  }

  lemma {:induction false} SumDeviationsIs(xs: seq<real>, m: real)
    ensures SumDeviations(xs, m) == Sum(xs) - (|xs| as real) * m
    decreases |xs|
  {
    if xs != [] {
      SumDeviationsIs(xs[..|xs| - 1], m);
    }
  }

  /** Cauchy-Schwarz against the all-ones vector, for deviations from any m:
      (sum (x - m))^2 <= N * sum (x - m)^2. */
  lemma {:induction false} DeviationSumBound(xs: seq<real>, m: real)
    ensures Square(SumDeviations(xs, m)) <= (|xs| as real) * SumSquaredDeviations(xs, m)
    decreases |xs|
  {
    if xs != [] {
      var init := xs[..|xs| - 1];
      var a := xs[|xs| - 1] - m;
      var s := SumDeviations(init, m);
      var q := SumSquaredDeviations(init, m);
      assert Square(s) <= (|init| as real) * q by {
        DeviationSumBound(init, m);
      }
      assert SumDeviations(xs, m) == s + a && SumSquaredDeviations(xs, m) == q + a * a;
      assert init == [] ==> s == 0.0 && q == 0.0;
      StepBound(|init| as real, s, q, a, |xs| as real, SumDeviations(xs, m), SumSquaredDeviations(xs, m));
    }
  }

  lemma {:induction false} SumDeviationsAppend(a: seq<real>, b: seq<real>, m: real)
    ensures SumDeviations(a + b, m) == SumDeviations(a, m) + SumDeviations(b, m)
    decreases |b|
  {
    if b == [] {
      assert a + b == a;
    } else {
      assert (a + b)[..|a + b| - 1] == a + b[..|b| - 1];
      SumDeviationsAppend(a, b[..|b| - 1], m);
    }
  }

  /** The deviations from the mean sum to zero. */
  lemma DeviationsFromMean(xs: seq<real>)
    requires |xs| > 0
    ensures SumDeviations(xs, Mean(xs)) == 0.0
  {
    SumDeviationsIs(xs, Mean(xs));
    var n := |xs| as real;
    assert n * (Sum(xs) / n) == Sum(xs);
  }

  /** The arithmetic closing Samuelson's inequality: if the other n - 1
      deviations sum to -d, with squares summing to q, and (-d)^2 <= (n - 1) q,
      then d^2 <= (n - 1) (q + d^2) / n. */
  lemma SamuelsonStep(n: real, nRest: real, d: real, others: real, q: real, total: real, variance: real)
    requires n >= 1.0 && nRest == n - 1.0
    requires others == -d
    requires Square(others) <= nRest * q
    requires total == q + Square(d) && variance == total / n
    ensures Square(d) <= nRest * variance
  {
    assert Square(others) == d * d;
    assert (n - 1.0) * (q + d * d) >= n * (d * d);
    assert (n - 1.0) * variance == ((n - 1.0) * (q + d * d)) / n;
    assert (n * (d * d)) / n == d * d;
  }

  lemma SingletonFolds(x: real, m: real)
    ensures SumDeviations([x], m) == x - m
    ensures SumSquaredDeviations([x], m) == Square(x - m)
  {
    assert [x][..0] == [];
  }

  /** Taking element k out of the window: both folds split into the rest
      plus that element's own term. */
  lemma SplitOut(xs: seq<real>, k: nat, m: real)
    requires k < |xs|
    ensures var rest := xs[..k] + xs[k + 1..];
      && SumDeviations(xs, m) == SumDeviations(rest, m) + (xs[k] - m)
      && SumSquaredDeviations(xs, m) == SumSquaredDeviations(rest, m) + Square(xs[k] - m)
      && |rest| == |xs| - 1
  {
    var before, after := xs[..k], xs[k + 1..];
    assert xs == before + [xs[k]] + after;
    SingletonFolds(xs[k], m);
    SumDeviationsAppend(before + [xs[k]], after, m);
    SumDeviationsAppend(before, [xs[k]], m);
    SumDeviationsAppend(before, after, m);
    SumSquaredDeviationsAppend(before + [xs[k]], after, m);
    SumSquaredDeviationsAppend(before, [xs[k]], m);
    SumSquaredDeviationsAppend(before, after, m);
  }

  /** Samuelson's inequality: a member of the window lies no further from the
      window mean than sqrt(N - 1) population standard deviations, that is
      (x_k - mean)^2 <= (N - 1) * variance. */
  lemma SamuelsonBound(xs: seq<real>, k: nat)
    requires k < |xs|
    ensures Square(xs[k] - Mean(xs)) <= ((|xs| - 1) as real) * Variance(xs)
  {
    var m := Mean(xs);
    var rest := xs[..k] + xs[k + 1..];
    // the deviations of the whole window sum to zero, so the others sum to -(x_k - m)
    assert SumDeviations(rest, m) == -(xs[k] - m) && |rest| == |xs| - 1 by {
      SplitOut(xs, k, m);
      DeviationsFromMean(xs);
    }
    assert SumSquaredDeviations(xs, m) == SumSquaredDeviations(rest, m) + Square(xs[k] - m) by {
      SplitOut(xs, k, m);
    }
    // Cauchy-Schwarz on the other N - 1 deviations
    assert Square(SumDeviations(rest, m)) <= (|rest| as real) * SumSquaredDeviations(rest, m) by {
      DeviationSumBound(rest, m);
    }
    SamuelsonStep(|xs| as real, |rest| as real, xs[k] - m, SumDeviations(rest, m),
      SumSquaredDeviations(rest, m), SumSquaredDeviations(xs, m), Variance(xs));
  }
}

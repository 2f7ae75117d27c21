/** The arithmetic the engine builds its statistics from: sums, means,
    sample variance, order statistics and the IQR fence, the least-squares
    line, and the one irrational operation, the square root. Floats are
    exact reals here. */
module Stats {
  import opened Seqs
  import opened Sorting

  /** `sum(s)`, adding from the left. */
  function Sum(s: seq<real>): real
  {
    if s == [] then 0.0 else Sum(s[..|s| - 1]) + s[|s| - 1]
  }

  /** `sum(x * x for x in s)` */
  function SumSq(s: seq<real>): real
  {
    if s == [] then 0.0 else SumSq(s[..|s| - 1]) + s[|s| - 1] * s[|s| - 1]
  }

  /** `statistics.mean(s)` */
  function Mean(s: seq<real>): real
    requires |s| > 0
  {
    Sum(s) / |s| as real
  }

  lemma {:induction false} SumLast(s: seq<real>, a: real)
    ensures Sum(s + [a]) == Sum(s) + a
    ensures SumSq(s + [a]) == SumSq(s) + a * a
  {
    assert (s + [a])[..|s|] == s;
  }

  /** All values equal. */
  predicate Constant(s: seq<real>)
  {
    forall i, j :: 0 <= i < |s| && 0 <= j < |s| ==> s[i] == s[j]
  }

  /** The sum of squared distances of the values from `a`. */
  function SqDist(s: seq<real>, a: real): real
  {
    if s == [] then 0.0 else SqDist(s[..|s| - 1], a) + (s[|s| - 1] - a) * (s[|s| - 1] - a)
  }

  lemma {:induction false} SqDistExpand(s: seq<real>, a: real)
    ensures SqDist(s, a) == SumSq(s) - 2.0 * a * Sum(s) + |s| as real * a * a
  {
    if s != [] {
      var s', x := s[..|s| - 1], s[|s| - 1];
      SqDistExpand(s', a);
      assert |s| as real == |s'| as real + 1.0;
      ExpandStep(SqDist(s', a), SumSq(s'), Sum(s'), |s'| as real, x, a,
                 SqDist(s, a), SumSq(s), Sum(s), |s| as real);
    }
  }

  /** A sum of squares is never negative, and vanishes exactly when every
      value is `a`. */
  lemma {:induction false} SqDistZero(s: seq<real>, a: real)
    ensures SqDist(s, a) >= 0.0
    ensures SqDist(s, a) == 0.0 <==> forall i :: 0 <= i < |s| ==> s[i] == a
  {
    if s != [] {
      var s', x := s[..|s| - 1], s[|s| - 1];
      SqDistZero(s', a);
      Gap(x, a, SqDist(s, a) - SqDist(s', a));
      if SqDist(s, a) == 0.0 {
        forall i | 0 <= i < |s| ensures s[i] == a {
          if i < |s'| { assert s[i] == s'[i]; }
        }
      }
      if forall i :: 0 <= i < |s| ==> s[i] == a {
        forall i | 0 <= i < |s'| ensures s'[i] == a {
          assert s'[i] == s[i];
        }
      }
    }
  }

  /** `n * sum(x*x) - sum(x)**2`, the quantity both the correlation and the
      regression denominators are made of. */
  function Spread(s: seq<real>): real
  {
    |s| as real * SumSq(s) - Sum(s) * Sum(s)
  }

  /** Lagrange's identity, one value at a time: adding `a` adds the squared
      distances of the earlier values from `a`. */
  lemma {:induction false} SpreadStep(s: seq<real>, a: real)
    ensures Spread(s + [a]) == Spread(s) + SqDist(s, a)
  {
    SumLast(s, a);
    SqDistExpand(s, a);
    SpreadAlg(|s| as real, SumSq(s), Sum(s), a);
  }

  /** The spread is never negative, and is zero exactly when all values
      are equal. */
  lemma {:induction false} SpreadZero(s: seq<real>)
    ensures Spread(s) >= 0.0
    ensures Spread(s) == 0.0 <==> Constant(s)
  {
    if s != [] {
      var s', a := s[..|s| - 1], s[|s| - 1];
      assert s == s' + [a];
      SpreadZero(s');
      SpreadStep(s', a);
      SqDistZero(s', a);
      if Spread(s) == 0.0 {
        forall i, j | 0 <= i < |s| && 0 <= j < |s| ensures s[i] == s[j] {
          if i < |s'| { assert s[i] == s'[i] == a; }
          if j < |s'| { assert s[j] == s'[j] == a; }
        }
      }
      if Constant(s) {
        assert Constant(s') by {
          forall i, j | 0 <= i < |s'| && 0 <= j < |s'| ensures s'[i] == s'[j] {
            assert s'[i] == s[i] && s'[j] == s[j];
          }
        }
        forall i | 0 <= i < |s'| ensures s'[i] == a {
          assert s'[i] == s[i] && a == s[|s| - 1];
        }
      }
    }
  }

  /** The squared distances from the mean are the spread over `n`. */
  lemma {:induction false} SqDistMean(s: seq<real>)
    requires |s| > 0
    ensures SqDist(s, Mean(s)) * |s| as real == Spread(s)
  {
    MeanTimesCount(s);
    SqDistAt(s, Mean(s));
  }

  lemma MeanTimesCount(s: seq<real>)
    requires |s| > 0
    ensures Mean(s) * |s| as real == Sum(s)
  {
    DivMul(Sum(s), |s| as real);
  }

  lemma {:induction false} SqDistAt(s: seq<real>, m: real)
    requires m * |s| as real == Sum(s)
    ensures SqDist(s, m) * |s| as real == Spread(s)
  {
    SqDistExpand(s, m);
    MeanAlg(|s| as real, SumSq(s), Sum(s), m);
  }

  /** `statistics.variance(s)`: the sample variance, defined from two values
      on. */
  function Variance(s: seq<real>): real
    requires |s| >= 2
  {
    SqDist(s, Mean(s)) / (|s| - 1) as real
  }

  /** The sample variance is never negative and is zero exactly for a
      constant sample. */
  lemma {:induction false} VarianceZero(s: seq<real>)
    requires |s| >= 2
    ensures Variance(s) >= 0.0
    ensures Variance(s) == 0.0 <==> Constant(s)
  {
    SqDistZero(s, Mean(s));
    SqDistMean(s);
    SpreadZero(s);
  }

  /** A function that is positive on positive arguments. */
  type PositiveFn = f: real -> real | forall x :: x > 0.0 ==> f(x) > 0.0 witness (x: real) => 1.0

  /** `math.sqrt` on positive arguments. Only its sign is relied on. */
  const PositiveRoot: PositiveFn

  /** `math.sqrt`: zero at zero, positive above it. Negative arguments do
      not arise (they are squares' sums); this model maps them to zero. */
  function Sqrt(x: real): (r: real)
    ensures r >= 0.0
    ensures r == 0.0 <==> x <= 0.0
  {
    if x <= 0.0 then 0.0 else PositiveRoot(x)
  }

  /** `statistics.stdev(s)` */
  function StdDev(s: seq<real>): real
    requires |s| >= 2
  {
    Sqrt(Variance(s))
  }

  /** The standard deviation is positive exactly when the sample is not
      constant. */
  lemma {:induction false} StdDevPositive(s: seq<real>)
    requires |s| >= 2
    ensures StdDev(s) >= 0.0
    ensures StdDev(s) > 0.0 <==> !Constant(s)
  {
    VarianceZero(s);
  }

  /** The value `min(s)` returns. */
  function Min(s: seq<real>): (m: real)
    requires |s| > 0
    ensures m in s
    ensures forall i :: 0 <= i < |s| ==> m <= s[i]
  {
    if |s| == 1 then s[0]
    else
      var m' := Min(s[..|s| - 1]);
      assert forall i :: 0 <= i < |s| - 1 ==> s[i] == s[..|s| - 1][i];
      if s[|s| - 1] < m' then s[|s| - 1] else m'
  }

  /** The value `max(s)` returns. */
  function Max(s: seq<real>): (m: real)
    requires |s| > 0
    ensures m in s
    ensures forall i :: 0 <= i < |s| ==> s[i] <= m
  {
    if |s| == 1 then s[0]
    else
      var m' := Max(s[..|s| - 1]);
      assert forall i :: 0 <= i < |s| - 1 ==> s[i] == s[..|s| - 1][i];
      if s[|s| - 1] > m' then s[|s| - 1] else m'
  }

  /** The mean lies between the least and the greatest value. */
  lemma {:induction false} MeanBetween(s: seq<real>)
    requires |s| > 0
    ensures Min(s) <= Mean(s) <= Max(s)
  {
    var lo, hi := Min(s), Max(s);
    SumBetween(s, lo, hi);
    DivBetween(Sum(s), |s| as real, lo, hi);
  }

  lemma {:induction false} SumBetween(s: seq<real>, lo: real, hi: real)
    requires forall i :: 0 <= i < |s| ==> lo <= s[i] <= hi
    ensures |s| as real * lo <= Sum(s) <= |s| as real * hi
  {
    if s != [] {
      SumBetween(s[..|s| - 1], lo, hi);
    }
  }

  /** The sort key of a number. */
  function NumKey(x: real): SortKey
  {
    Number(x)
  }

  /** `sorted(s)` for numbers. */
  function Sorted(s: seq<real>): (r: seq<real>)
    ensures |r| == |s| && multiset(r) == multiset(s)
    ensures forall i, j :: 0 <= i <= j < |r| ==> r[i] <= r[j]
  {
    var r := SortBy(s, NumKey, false);
    assert forall i, j :: 0 <= i < j < |r| ==> KeyLe(NumKey(r[i]), NumKey(r[j]));
    r
  }

  /** Sorting values that are already in order changes nothing. */
  lemma {:induction false} SortedIdentity(s: seq<real>)
    requires forall i, j :: 0 <= i <= j < |s| ==> s[i] <= s[j]
    ensures Sorted(s) == s
  {
    assert SortedBy(s, NumKey, false) by {
      forall i, j | 0 <= i < j < |s| ensures InOrder(NumKey(s[i]), NumKey(s[j]), false) {
        assert s[i] <= s[j];
      }
    }
    SortedUnique(SortBy(s, NumKey, false), s, NumKey, false);
  }

  /** The sorted values start with the minimum and end with the maximum. */
  lemma {:induction false} SortedEnds(s: seq<real>)
    requires |s| > 0
    ensures Sorted(s)[0] == Min(s)
    ensures Sorted(s)[|s| - 1] == Max(s)
  {
    var t := Sorted(s);
    assert Min(s) in multiset(t) && Max(s) in multiset(t);
    assert t[0] in multiset(s) && t[|s| - 1] in multiset(s);
  }

  /** `statistics.median(s)`: the middle of the sorted values, or the mean
      of the two middle ones. */
  function Median(s: seq<real>): real
    requires |s| > 0
  {
    var t := Sorted(s);
    var n := |t|;
    if n % 2 == 1 then t[n / 2] else (t[n / 2 - 1] + t[n / 2]) / 2.0
  }

  /** The lower quartile `sorted(s)[int(n * 0.25)]`. */
  function LowerQuartile(s: seq<real>): real
    requires |s| > 0
  {
    Sorted(s)[|s| / 4]
  }

  /** The upper quartile `sorted(s)[int(n * 0.75)]`; the index is always in
      range. */
  function UpperQuartile(s: seq<real>): real
    requires |s| > 0
  {
    Sorted(s)[(3 * |s|) / 4]
  }

  /** The five summary points `min, q1, median, q3, max` are in
      non-decreasing order. */
  lemma {:induction false} FivePointsOrdered(s: seq<real>)
    requires |s| > 0
    ensures Min(s) <= LowerQuartile(s) <= Median(s) <= UpperQuartile(s) <= Max(s)
  {
    SortedEnds(s);
    var t, n := Sorted(s), |s|;
    var lo, mid, hi := n / 4, n / 2, (3 * n) / 4;
    assert 0 <= lo <= mid <= hi < n;
    assert t[0] <= t[lo] <= t[mid] <= t[hi] <= t[n - 1];
    if n % 2 == 0 {
      assert lo <= mid - 1;
      assert t[lo] <= t[mid - 1] <= t[mid];
    }
  }

  /** The IQR fence `(q1 - 1.5*iqr, q3 + 1.5*iqr)`. */
  function IqrBounds(s: seq<real>): (b: (real, real))
    requires |s| > 0
    ensures b.0 <= LowerQuartile(s) <= UpperQuartile(s) <= b.1
  {
    var q1, q3 := LowerQuartile(s), UpperQuartile(s);
    var iqr := q3 - q1;
    (q1 - 1.5 * iqr, q3 + 1.5 * iqr)
  }

  /** The first coordinate of a pair. */
  function Fst(p: (real, real)): real { p.0 }

  /** The second coordinate of a pair. */
  function Snd(p: (real, real)): real { p.1 }

  /** The product of a pair's coordinates. */
  function Prod(p: (real, real)): real { p.0 * p.1 }

  /** `zip(x, y)` */
  function Zip(x: seq<real>, y: seq<real>): (r: seq<(real, real)>)
    requires |x| == |y|
    ensures |r| == |x|
    ensures Map(r, Fst) == x && Map(r, Snd) == y
  {
    seq(|x|, i requires 0 <= i < |x| => (x[i], y[i]))
  }

  /** `n * sum(x*y) - sum(x) * sum(y)` */
  function CoSpread(ps: seq<(real, real)>): real
  {
    |ps| as real * Sum(Map(ps, Prod)) - Sum(Map(ps, Fst)) * Sum(Map(ps, Snd))
  }

  /** How far the line `a*x + b` misses the pair's `y`. */
  function Residual(p: (real, real), a: real, b: real): real
  {
    p.1 - (a * p.0 + b)
  }

  /** `sum((y - (a*x + b))**2 for x, y in ps)` */
  function Residuals(ps: seq<(real, real)>, a: real, b: real): real
  {
    if ps == [] then 0.0
    else
      var e := Residual(ps[|ps| - 1], a, b);
      Residuals(ps[..|ps| - 1], a, b) + e * e
  }

  /** `sum(y - (a*x + b) for x, y in ps)` */
  function ResidualSum(ps: seq<(real, real)>, a: real, b: real): real
  {
    if ps == [] then 0.0
    else ResidualSum(ps[..|ps| - 1], a, b) + Residual(ps[|ps| - 1], a, b)
  }

  /** The sums of the coordinates, split off at the last pair. */
  lemma PairSumsLast(ps: seq<(real, real)>)
    requires ps != []
    ensures var ps', p := ps[..|ps| - 1], ps[|ps| - 1];
      && Sum(Map(ps, Fst)) == Sum(Map(ps', Fst)) + p.0
      && Sum(Map(ps, Snd)) == Sum(Map(ps', Snd)) + p.1
  {
    var ps' := ps[..|ps| - 1];
    assert Map(ps, Fst)[..|ps'|] == Map(ps', Fst);
    assert Map(ps, Snd)[..|ps'|] == Map(ps', Snd);
  }

  /** The residuals of any line add up to `sum(y) - a*sum(x) - n*b`. */
  lemma {:induction false} ResidualSumExpand(ps: seq<(real, real)>, a: real, b: real)
    ensures ResidualSum(ps, a, b) == Sum(Map(ps, Snd)) - a * Sum(Map(ps, Fst)) - |ps| as real * b
  {
    if ps == [] {
      assert Map(ps, Fst) == [] && Map(ps, Snd) == [];
      assert Sum(Map(ps, Snd)) == 0.0 && Sum(Map(ps, Fst)) == 0.0;
      assert a * Sum(Map(ps, Fst)) == 0.0 && |ps| as real * b == 0.0;
    } else {
      var ps', p := ps[..|ps| - 1], ps[|ps| - 1];
      assert ResidualSum(ps, a, b) == ResidualSum(ps', a, b) + Residual(p, a, b);
      ResidualSumExpand(ps', a, b);
      PairSumsLast(ps);
      LineStep(ResidualSum(ps', a, b), Sum(Map(ps', Snd)), Sum(Map(ps', Fst)), |ps'| as real,
               ResidualSum(ps, a, b), Sum(Map(ps, Snd)), Sum(Map(ps, Fst)), |ps| as real,
               p.0, p.1, Residual(p, a, b), a, b);
    }
  }

  /** A sum of squared residuals is never negative. */
  lemma {:induction false} ResidualsNonNegative(ps: seq<(real, real)>, a: real, b: real)
    ensures Residuals(ps, a, b) >= 0.0
  {
    if ps != [] {
      var ps' := ps[..|ps| - 1];
      ResidualsNonNegative(ps', a, b);
      Positive(Residual(ps[|ps| - 1], a, b), Residuals(ps, a, b) - Residuals(ps', a, b));
    }
  }

  // Identities of real arithmetic the lemmas above rest on.

  /** A square is never negative, and is zero only at zero. The square is
      passed in as `t`, named, because the solver handles a named product
      more reliably than a comparison on `d * d` itself. */
  lemma Positive(d: real, t: real)
    requires t == d * d
    ensures t >= 0.0
    ensures d != 0.0 ==> t > 0.0
  {
    if d != 0.0 {
      SameSign(d, d, t);
    }
  }

  lemma SameSign(a: real, b: real, p: real)
    requires (a > 0.0 && b > 0.0) || (a < 0.0 && b < 0.0)
    requires p == a * b
    ensures p > 0.0
  {
  }

  /** The squared distance of `x` from `a` is zero only when they agree. */
  lemma Gap(x: real, a: real, t: real)
    requires t == (x - a) * (x - a)
    ensures t >= 0.0
    ensures t == 0.0 ==> x == a
  {
    Positive(x - a, t);
  }

  lemma ExpandStep(d': real, q': real, t': real, n': real, x: real, a: real, d: real, q: real, t: real, n: real)
    requires d' == q' - 2.0 * a * t' + n' * a * a
    requires d == d' + (x - a) * (x - a) && q == q' + x * x && t == t' + x && n == n' + 1.0
    ensures d == q - 2.0 * a * t + n * a * a
  {
  }

  lemma SpreadAlg(n: real, q: real, t: real, a: real)
    ensures (n + 1.0) * (q + a * a) - (t + a) * (t + a) == (n * q - t * t) + (q - 2.0 * a * t + n * a * a)
  {
  }

  lemma DivMul(t: real, n: real)
    requires n > 0.0
    ensures (t / n) * n == t
  {
  }

  lemma MeanAlg(n: real, q: real, t: real, m: real)
    requires m * n == t
    ensures (q - 2.0 * m * t + n * m * m) * n == n * q - t * t
  {
    calc {
      (q - 2.0 * m * t + n * m * m) * n;
      q * n - 2.0 * (m * n) * t + (m * n) * (m * n);
      q * n - 2.0 * t * t + t * t;
    }
  }

  lemma DivBetween(t: real, n: real, lo: real, hi: real)
    requires n > 0.0 && n * lo <= t <= n * hi
    ensures lo <= t / n <= hi
  {
    var m := t / n;
    assert m * n == t;
  }

  /** Adding one pair's residual `e` to a residual sum `r` kept in summed
      form over the old sums (`sy`, `sx`, `n`) keeps it in summed form over
      the new ones. */
  lemma LineStep(r: real, sy: real, sx: real, n: real, r': real, sy': real, sx': real, n': real,
                 x: real, y: real, e: real, a: real, b: real)
    requires r == sy - a * sx - n * b && r' == r + e
    requires sy' == sy + y && sx' == sx + x && n' == n + 1.0 && e == y - (a * x + b)
    ensures r' == sy' - a * sx' - n' * b
  {
  }
}

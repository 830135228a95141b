/** One-pass statistics and what they are one pass of. */
module Statistics {
  import opened Common
  import opened Analysis
  import opened Totals

  /** Count, running mean and running sum of squared deviations. */
  datatype Accumulator = Accumulator(count: nat, mean: real, m2: real)

  const START := Accumulator(0, 0.0, 0.0)

  function Observe(a: Accumulator, x: real): Accumulator {
    var count := a.count + 1;
    var delta := x - a.mean;
    var mean := a.mean + delta / count as real;
    Accumulator(count, mean, a.m2 + delta * (x - mean))
  }

  function Mean(values: seq<real>): real {
    if values == [] then 0.0 else SumBy(Number, values) / |values| as real
  }

  function DeviationFrom(center: real): real -> real {
    x => Square(x - center)
  }

  /** Two-pass sum of squared deviations from the mean. */
  function SquaredDeviations(values: seq<real>): real {
    SumBy(DeviationFrom(Mean(values)), values)
  }

  function Summary(values: seq<real>): Accumulator {
    Accumulator(|values|, Mean(values), SquaredDeviations(values))
  }

  lemma MeanTimesCount(values: seq<real>)
    ensures Mean(values) * |values| as real == SumBy(Number, values)
  {
  }

  lemma SquareOfDifference(x: real, m: real, c: real)
    ensures Square(x - c) == Square(x - m) + 2.0 * ((m - c) * (x - m)) + Square(m - c)
  {
    var u, d := x - m, m - c;
    assert x - c == u + d;
    assert (u + d) * (u + d) == u * u + 2.0 * (d * u) + d * d;
  }

  lemma ShiftStep(a: real, b: real, n: real, s: real, d: real, q: real, x: real, y: real, u: real)
    requires a == b + 2.0 * (d * s) + n * q && x == y + 2.0 * (d * u) + q
    ensures a + x == b + y + 2.0 * (d * (s + u)) + (n + 1.0) * q
  {
    assert d * (s + u) == d * s + d * u;
    assert (n + 1.0) * q == n * q + q;
  }

  /** Moving the center of the squared deviations. */
  lemma {:induction false} ShiftCenter(values: seq<real>, m: real, c: real)
    ensures SumBy(DeviationFrom(c), values)
      == SumBy(DeviationFrom(m), values)
       + 2.0 * ((m - c) * (SumBy(Number, values) - |values| as real * m)) + |values| as real * Square(m - c)
  {
    hide Square, SumBy;
    if values == [] {
      EmptySums(m);
      EmptySums(c);
      assert (m - c) * (0.0 - 0.0 * m) == 0.0;
    } else {
      var front, x := values[..|values| - 1], values[|values| - 1];
      var n := |front| as real;
      assert values == front + [x];
      ShiftCenter(front, m, c);
      SquareOfDifference(x, m, c);
      SumOne(Number, front, x);
      SumOne(DeviationFrom(m), front, x);
      SumOne(DeviationFrom(c), front, x);
      var s := SumBy(Number, front) - n * m;
      ShiftStep(SumBy(DeviationFrom(c), front), SumBy(DeviationFrom(m), front), n, s, m - c, Square(m - c),
                Square(x - c), Square(x - m), x - m);
      Distribute(n, 1.0, m);
      assert SumBy(Number, values) - (n + 1.0) * m == s + (x - m);
    }
  }

  /** Observing one more value keeps the accumulator equal to the two-pass summary. */
  lemma ObserveIsSummary(values: seq<real>, x: real)
    ensures Observe(Summary(values), x) == Summary(values + [x])
  {
    hide SumBy, Square;
    var n := |values| as real;
    var m := Mean(values);
    var e := (x - m) / (n + 1.0);
    MeanTimesCount(values);
    SumOne(Number, values, x);
    NewMean(SumBy(Number, values), n, m, x, e);
    var mean := m + e;
    assert Mean(values + [x]) == mean;
    ShiftCenter(values, m, mean);
    assert SumBy(Number, values) - n * m == 0.0;
    SumOne(DeviationFrom(mean), values, x);
    assert SquaredDeviations(values + [x]) == SumBy(DeviationFrom(mean), values) + Square(x - mean);
    NewDeviations(n, m, x, e);
    assert (m - mean) * 0.0 == 0.0;
  }

  lemma NewMean(sum: real, n: real, m: real, x: real, e: real)
    requires n >= 0.0 && m * n == sum && e == (x - m) / (n + 1.0)
    ensures (sum + x) / (n + 1.0) == m + e
  {
    var d := n + 1.0;
    assert e * d == x - m;
    assert (m + e) * d == m * n + m + e * d;
  }

  lemma NewDeviations(n: real, m: real, x: real, e: real)
    requires n >= 0.0 && e == (x - m) / (n + 1.0)
    ensures n * Square(m - (m + e)) + Square(x - (m + e)) == (x - m) * (x - (m + e))
  {
    var d := n + 1.0;
    assert x - m == e * d;
    assert e * d == e * n + e;
    var u := e * n;
    assert x - (m + e) == u;
    assert Square(m - (m + e)) == e * e;
    assert Square(u) == u * u;
    assert n * (e * e) == u * e;
    assert (u + e) * u == u * u + u * e;
  }

  lemma NothingObserved()
    ensures Summary([]) == START
  {
  }

  /** The order of the values is irrelevant. */
  lemma SummaryPermutes(a: seq<real>, b: seq<real>)
    requires multiset(a) == multiset(b)
    ensures Summary(a) == Summary(b)
  {
    assert |multiset(a)| == |multiset(b)|;
    SumPermutes(Number, a, b);
    SumPermutes(DeviationFrom(Mean(a)), a, b);
  }

  // ---------------------------------------------------------------------
  // Standardizing
  // ---------------------------------------------------------------------

  lemma {:induction false} DeviationsNonNegative(values: seq<real>, c: real)
    ensures SumBy(DeviationFrom(c), values) >= 0.0
    ensures SumBy(DeviationFrom(c), values) == 0.0 ==> forall x :: x in values ==> x == c
  {
    hide Square;
    if values != [] {
      var front, last := values[..|values| - 1], values[|values| - 1];
      DeviationsNonNegative(front, c);
      assert values == front + [last];
      assert Square(last - c) == 0.0 ==> last == c by { ZeroSquare(last - c); }
    }
  }

  lemma ZeroSquare(x: real)
    ensures Square(x) == 0.0 ==> x == 0.0
  {
    assert Square(x) == Square(-x);
  }

  function ScaleOf(deviation: real): real {
    if deviation == 0.0 then 1.0 else deviation
  }

  function Standardize(mean: real, deviation: real, x: real): real
    requires deviation >= 0.0
  {
    (x - mean) / ScaleOf(deviation)
  }

  function Standardized(mean: real, deviation: real, values: seq<real>): seq<real>
    requires deviation >= 0.0
  {
    seq(|values|, i requires 0 <= i < |values| => Standardize(mean, deviation, values[i]))
  }

  lemma {:induction false} StandardizedSums(mean: real, deviation: real, values: seq<real>)
    requires deviation >= 0.0
    ensures SumBy(Number, Standardized(mean, deviation, values)) * ScaleOf(deviation)
      == SumBy(Number, values) - |values| as real * mean
    ensures SumBy(DeviationFrom(0.0), Standardized(mean, deviation, values)) * Square(ScaleOf(deviation))
      == SumBy(DeviationFrom(mean), values)
  {
    hide Square, Standardize, SumBy, Product;
    if values == [] {
      EmptySums(mean);
    } else {
      var front, x := values[..|values| - 1], values[|values| - 1];
      StandardizedSums(mean, deviation, front);
      var zs, z := Standardized(mean, deviation, front), Standardize(mean, deviation, x);
      assert values == front + [x];
      assert Standardized(mean, deviation, values) == zs + [z];
      SumOne(Number, front, x);
      SumOne(Number, zs, z);
      SumOne(DeviationFrom(mean), front, x);
      SumOne(DeviationFrom(0.0), zs, z);
      OneStandardized(mean, deviation, x);
      Distribute(SumBy(Number, zs), z, ScaleOf(deviation));
      Distribute(SumBy(DeviationFrom(0.0), zs), Square(z - 0.0), Square(ScaleOf(deviation)));
      Distribute(|front| as real, 1.0, mean);
    }
  }

  lemma EmptySums(mean: real)
    ensures SumBy(Number, []) == 0.0 && SumBy(DeviationFrom(0.0), []) == 0.0 && SumBy(DeviationFrom(mean), []) == 0.0
  {
  }

  lemma Distribute(a: real, b: real, c: real)
    ensures (a + b) * c == a * c + b * c
  {
  }

  lemma OneStandardized(mean: real, deviation: real, x: real)
    requires deviation >= 0.0
    ensures Standardize(mean, deviation, x) * ScaleOf(deviation) == x - mean
    ensures Square(Standardize(mean, deviation, x) - 0.0) * Square(ScaleOf(deviation)) == Square(x - mean)
  {
    var s, z := ScaleOf(deviation), Standardize(mean, deviation, x);
    assert z * s == x - mean;
    assert (z * z) * (s * s) == (z * s) * (z * s);
  }

  /** Population deviation of an accumulator. */
  function DeviationOf(math: Functions, a: Accumulator): real
    requires a.count > 0
  {
    math.sqrt(MaxReal(a.m2 / a.count as real, 0.0))
  }

  /** Standardized by their own summary, values sum to zero, and their squares sum
      to the count or, when they are all equal, they are all zero. */
  lemma OwnStandardization(math: Functions, values: seq<real>)
    requires math.Lawful() && values != []
    ensures DeviationOf(math, Summary(values)) >= 0.0
    ensures var z := Standardized(Mean(values), DeviationOf(math, Summary(values)), values);
      && |z| == |values|
      && SumBy(Number, z) == 0.0
      && if (forall i, j :: 0 <= i < |values| && 0 <= j < |values| ==> values[i] == values[j])
        then forall i :: 0 <= i < |z| ==> z[i] == 0.0
        else SumBy(DeviationFrom(0.0), z) == |values| as real
  {
    hide SumBy, Square;
    var m, n, m2 := Mean(values), |values| as real, SquaredDeviations(values);
    DeviationsNonNegative(values, m);
    var variance := m2 / n;
    QuotientNonNegative(m2, n);
    RootLaws(math, variance);
    var d := DeviationOf(math, Summary(values));
    assert d * d == variance;
    StandardizedSums(m, d, values);
    MeanTimesCount(values);
    var s, z := ScaleOf(d), Standardized(m, d, values);
    CancelZero(SumBy(Number, z), s);
    if d == 0.0 {
      ZeroVariance(m2, n, d);
      forall i | 0 <= i < |z| ensures values[i] == m && z[i] == 0.0 {
        assert values[i] in values;
      }
    } else {
      PositiveVariance(m2, n, d);
      AllEqual(values, values[0]);
      SquareIs(d);
      CancelVariance(SumBy(DeviationFrom(0.0), z), Square(d), m2, n);
    }
  }

  lemma SquareIs(d: real)
    ensures Square(d) == d * d
  {
  }

  lemma QuotientNonNegative(x: real, n: real)
    requires x >= 0.0 && n > 0.0
    ensures x / n >= 0.0
  {
  }

  lemma CancelZero(x: real, s: real)
    requires x * s == 0.0 && s > 0.0
    ensures x == 0.0
  {
    CancelFactor(x, 0.0, s);
    CancelFactor(0.0, x, s);
  }

  lemma ZeroVariance(m2: real, n: real, d: real)
    requires n > 0.0 && d == 0.0 && d * d == m2 / n
    ensures m2 == 0.0
  {
    assert (m2 / n) * n == m2;
  }

  lemma CancelVariance(x: real, v: real, m2: real, n: real)
    requires n > 0.0 && v > 0.0 && v == m2 / n && x * v == m2
    ensures x == n
  {
    assert n * v == m2;
    CancelFactor(x, n, v);
    CancelFactor(n, x, v);
  }

  lemma PositiveVariance(m2: real, n: real, d: real)
    requires n > 0.0 && d > 0.0 && d * d == m2 / n
    ensures m2 > 0.0
  {
    SquareIs(d);
    PositiveProduct(Square(d), n);
    assert (m2 / n) * n == m2;
  }

  lemma {:induction false} SumOfEqual(values: seq<real>, v: real)
    requires forall i :: 0 <= i < |values| ==> values[i] == v
    ensures SumBy(Number, values) == v * |values| as real
    ensures SumBy(DeviationFrom(v), values) == 0.0
  {
    if values != [] {
      SumOfEqual(values[..|values| - 1], v);
      assert v * |values| as real == v * (|values| - 1) as real + v;
      assert Square(v - v) == 0.0;
    }
  }

  lemma AllEqual(values: seq<real>, v: real)
    requires values != []
    ensures (forall i :: 0 <= i < |values| ==> values[i] == v) ==> SquaredDeviations(values) == 0.0
  {
    if forall i :: 0 <= i < |values| ==> values[i] == v {
      SumOfEqual(values, v);
      var n := |values| as real;
      assert Mean(values) == v by {
        assert v * n / n == v;
      }
    }
  }
}

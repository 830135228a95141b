/** The exponential and the square root, known only by the laws the rating code
    relies on. */
module Analysis {

  datatype Functions = Functions(exp: real -> real, sqrt: real -> real) {

    ghost predicate Lawful() {
      && exp(0.0) == 1.0
      && (forall x :: exp(x) > 0.0)
      && (forall x, y :: x <= y ==> exp(x) <= exp(y))
      && (forall x :: Reciprocal(exp, x))
      && (forall x :: x >= 0.0 ==> sqrt(x) >= 0.0 && sqrt(x) * sqrt(x) == x)
    }

    function Hypot(a: real, b: real): real {
      sqrt(a * a + b * b)
    }

    /** Two-branch form that never raises the exponential of a positive number. */
    function Logistic(value: real): real
      requires 1.0 + exp(-value) != 0.0 && 1.0 + exp(value) != 0.0
    {
      if value >= 0.0 then 1.0 / (1.0 + exp(-value))
      else exp(value) / (1.0 + exp(value))
    }
  }

  predicate Reciprocal(exp: real -> real, x: real) {
    exp(x) * exp(-x) == 1.0
  }

  lemma ExpPositive(f: Functions, x: real)
    requires f.Lawful()
    ensures f.exp(x) > 0.0
  {
  }

  lemma RootLaws(f: Functions, x: real)
    requires f.Lawful() && x >= 0.0
    ensures f.sqrt(x) >= 0.0 && f.sqrt(x) * f.sqrt(x) == x
    ensures x > 0.0 ==> f.sqrt(x) > 0.0
  {
    var r := f.sqrt(x);
    assert r >= 0.0 && r * r == x;
    if r == 0.0 {
      assert r * r == 0.0;
    }
  }

  lemma SquaresOrder(a: real, b: real)
    requires a >= 0.0 && b >= 0.0 && a * a <= b * b
    ensures a <= b
  {
    if a > b {
      SquaresGrow(b, a);
      assert false;
    }
  }

  lemma SquaresGrow(a: real, b: real)
    requires 0.0 <= a < b
    ensures a * a < b * b
  {
    var d := b - a;
    var ad, dd := a * d, d * d;
    assert ad >= 0.0;
    PositiveProduct(d, d);
    assert b * b == a * a + ad + ad + dd;
  }

  lemma PositiveProduct(a: real, b: real)
    requires a > 0.0 && b > 0.0
    ensures a * b > 0.0
  {
  }

  lemma NonNegativeProduct(a: real, b: real)
    requires a >= 0.0 && b >= 0.0
    ensures a * b >= 0.0
  {
  }

  /** A positive factor cancels from an inequality. */
  lemma CancelFactor(a: real, b: real, d: real)
    requires d > 0.0 && a * d <= b * d
    ensures a <= b
  {
    assert (a - b) * d == a * d - b * d;
    if a > b {
      PositiveProduct(a - b, d);
    }
  }

  function Product(a: real, b: real): (p: real)
    ensures a > 0.0 && b > 0.0 ==> p > 0.0
    ensures a == b ==> p >= 0.0
  {
    a * b
  }

  function Square(x: real): (s: real)
    ensures s >= 0.0 && (x > 0.0 ==> s > 0.0)
  {
    Product(x, x)
  }

  lemma SquareNonNegative(a: real)
    ensures a * a >= 0.0
  {
  }

  /** The hypotenuse is symmetric and positive as soon as one side is. */
  lemma HypotLaws(f: Functions, a: real, b: real)
    requires f.Lawful()
    ensures f.Hypot(a, b) >= 0.0 && f.Hypot(a, b) == f.Hypot(b, a)
    ensures f.Hypot(a, b) * f.Hypot(a, b) == a * a + b * b
    ensures a > 0.0 || b > 0.0 ==> f.Hypot(a, b) > 0.0
  {
    var x, y := a * a, b * b;
    assert x >= 0.0 && y >= 0.0 by {
      SquareNonNegative(a);
      SquareNonNegative(b);
    }
    if a > 0.0 {
      SquaresGrow(0.0, a);
    }
    if b > 0.0 {
      SquaresGrow(0.0, b);
    }
    assert a > 0.0 || b > 0.0 ==> x > 0.0 || y > 0.0;
    assert x + y == y + x;
    assert f.Hypot(a, b) == f.sqrt(x + y);
    RootLaws(f, x + y);
  }

  /** Opposite arguments have complementary values, each a proper probability. */
  lemma LogisticComplement(f: Functions, value: real)
    requires f.Lawful()
    ensures 1.0 + f.exp(-value) > 1.0 && 1.0 + f.exp(value) > 1.0
    ensures 0.0 < f.Logistic(value) < 1.0
    ensures f.Logistic(value) + f.Logistic(-value) == 1.0
  {
    ExpPositive(f, value);
    ExpPositive(f, -value);
    var x := if value >= 0.0 then f.exp(-value) else f.exp(value);
    assert -(-value) == value;
    Complement(x);
    if value == 0.0 {
      assert f.exp(0.0) == 1.0;
    }
  }

  lemma Complement(x: real)
    requires x > 0.0
    ensures 1.0 / (1.0 + x) + x / (1.0 + x) == 1.0
    ensures 0.0 < 1.0 / (1.0 + x) < 1.0 && 0.0 < x / (1.0 + x) < 1.0
  {
  }
}

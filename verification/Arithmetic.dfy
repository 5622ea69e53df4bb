// Real products and quotients: the few facts that the solver does not find by itself.

module Arithmetic {

  lemma ProductIsNonNegative(a: real, b: real)
    requires a >= 0.0 && b >= 0.0
    ensures a * b >= 0.0
  {
  }

  /** The product, by name, so that squares can be passed around. */
  function Product(x: real, y: real): real {
    x * y
  }

  lemma ProductIsPositive(a: real, b: real)
    requires a > 0.0 && b > 0.0
    ensures Product(a, b) > 0.0
  {
  }

  lemma FactorIsNonNegative(n: real, x: real)
    requires n > 0.0 && Product(n, x) >= 0.0
    ensures x >= 0.0
  {
    if x < 0.0 {
      ProductIsPositive(n, -x);
    }
  }

  lemma SignOfFactor(f: real, width: real)
    requires width > 0.0
    ensures f * width >= 0.0 ==> f >= 0.0
    ensures f * width > 0.0 ==> f > 0.0
  {
    if f < 0.0 {
      ProductIsPositive(width, -f);
    }
  }

  lemma ScaleKeepsOrder(k: real, a: real, b: real)
    requires k >= 0.0 && a <= b
    ensures k * a <= k * b
  {
    ProductIsNonNegative(k, b - a);
  }

  lemma ScaleKeepsStrictOrder(k: real, a: real, b: real)
    requires k > 0.0 && a < b
    ensures k * a < k * b
  {
    ProductIsPositive(k, b - a);
  }

  lemma DivideKeepsOrder(a: real, b: real, n: real)
    requires a <= b && n > 0.0
    ensures a / n <= b / n
  {
    var x, y := a / n, b / n;
    assert x * n == a && y * n == b;
    assert (y - x) * n == b - a;
    SignOfFactor(y - x, n);
  }

  /** A part of a whole is a share between 0 and 1, and it is 1 exactly for all of it. */
  lemma ShareOfWhole(a: real, b: real)
    requires 0.0 <= a <= b && b > 0.0
    ensures 0.0 <= a / b <= 1.0
    ensures a / b == 1.0 <==> a == b
  {
    var q := a / b;
    assert q * b == a;
    assert (1.0 - q) * b == b - a && (q - 1.0) * b == a - b;
    SignOfFactor(q, b);
    SignOfFactor(1.0 - q, b);
    SignOfFactor(q - 1.0, b);
  }

  lemma QuotientBound(a: real, b: real, limit: real)
    requires b > 0.0 && a / b <= limit
    ensures a <= limit * b
  {
    var q := a / b;
    assert q * b == a;
    ScaleKeepsOrder(b, q, limit);
  }
}

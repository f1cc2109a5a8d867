/** Facts about products and quotients the solver needs spelled out. */
module Arithmetic {
  lemma Division(a: nat, n: nat)
    requires n > 0
    ensures a == n * (a / n) + a % n && a % n < n
  {
  }

  lemma Product(a: nat, b: nat, c: nat)
    requires a >= b
    ensures a * c >= b * c
  {
  }

  lemma Distribute(d: nat, a: nat, b: nat)
    ensures d * (a + b) == d * a + d * b
  {
  }

  lemma Associate(a: nat, b: nat, c: nat)
    ensures a * (b * c) == a * b * c
  {
  }

  lemma Commute(a: nat, b: nat)
    ensures a * b == b * a
  {
  }

  lemma ScaleGrows(a: nat, b: nat, c: nat)
    requires b <= c
    ensures a * b <= a * c
  {
  }

  lemma DistributeRight(a: int, b: int, c: int)
    ensures (a + b) * c == a * c + b * c
  {
  }

  lemma Quotient(a: nat, n: nat, q: nat)
    requires n > 0 && a >= n * q
    ensures a / n >= q
  {
    Division(a, n);
    assert n * (a / n + 1) == n * (a / n) + n;
    if a / n < q { MoreThan(a, n, q, a / n + 1); }
  }

  lemma MoreThan(a: nat, n: nat, q: nat, k: nat)
    requires a < n * k && k <= q
    ensures a < n * q
  {
    Product(q, k, n);
  }

  // ---- real numbers ------------------------------------------------------------

  lemma StrictProduct(x: real, p: real)
    requires x > 0.0 && p > 0.0
    ensures x * p > 0.0
  {
  }

  lemma RealProduct(x: real, y: real, p: real)
    requires x >= y && p >= 0.0
    ensures x * p >= y * p
  {
  }

  lemma NotNegative(x: real, y: real)
    requires x >= 0.0 && y >= 0.0
    ensures x * y >= 0.0
  {
  }

  lemma AtLeastOne(x: real, p: real, a: real)
    requires x * p == a && a >= p >= 1.0
    ensures x >= 1.0
  {
    if x < 1.0 {
      RealProduct(p, 0.0, 1.0 - x);
      assert (1.0 - x) * p == p - a;
      StrictProduct(1.0 - x, p);
    }
  }

  lemma SmallQuotient(x: real, y: real, p: real)
    requires x * p < y * p && p > 0.0
    ensures x < y
  {
    if x >= y { RealProduct(x, y, p); }
  }

  lemma Shrinks(a: real, p: real)
    requires a >= 0.0 && p >= 1.0
    ensures a / p <= a
  {
    if a / p > a {
      RealProduct(a / p, a, p);
      assert (a / p) * p == a;
      RealProduct(p, 1.0, a);
    }
  }

  lemma SmallerShare(x: real, y: real, n: real)
    requires x <= y && n > 0.0
    ensures x / n <= y / n
  {
    var a, b := x / n, y / n;
    assert a * n == x && b * n == y;
    if b < a { SmallQuotient(b, a, n); }
  }

  lemma StrictlySmallerShare(x: real, y: real, n: real)
    requires x < y && n > 0.0
    ensures x / n < y / n
  {
    var a, b := x / n, y / n;
    assert a * n == x && b * n == y;
    if b <= a { RealProduct(a, b, n); }
  }
}

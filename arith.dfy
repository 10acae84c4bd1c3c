/**
 * Small facts of arithmetic over `int` and `real`, each proved on its own so that the
 * non-linear steps (products of two variables, division by a variable) never meet the larger
 * contexts of the model's lemmas.
 */
module Arith {

  lemma Succ(n: nat, x: nat)
    ensures (n + 1) * x == n * x + x
  {
  }

  lemma CastProduct(a: nat, b: nat)
    ensures (a * b) as real == a as real * b as real
  {
  }

  lemma MulMono(a: real, b: real, c: real)
    requires c > 0.0 && a < b
    ensures a * c < b * c
  {
  }

  lemma MulLe(x: real, a: real, b: real)
    requires 0.0 <= x && a <= b
    ensures x * a <= x * b
  {
  }

  lemma MulCancel(x: real, y: real, c: real)
    requires c > 0.0 && x * c == y * c
    ensures x == y
  {
    if x < y { MulMono(x, y, c); }
    if y < x { MulMono(y, x, c); }
  }

  /** Division by a positive number: it undoes multiplication and keeps signs and the order
      relative to 1. */
  lemma DivFacts(m: real, c: real)
    requires 0.0 < c
    ensures (m / c) * c == m
    ensures 0.0 <= m ==> 0.0 <= m / c
    ensures 0.0 < m ==> 0.0 < m / c
    ensures m <= c ==> m / c <= 1.0
    ensures c <= m ==> m / c >= 1.0
    ensures m / c == 1.0 <==> m == c
  {
    var q := m / c;
    assert q * c == m;
    if 0.0 <= m && q < 0.0 {
      MulMono(q, 0.0, c);
    }
    if 0.0 < m && q <= 0.0 {
      MulLe(c, q, 0.0);
    }
    if c <= m && q < 1.0 {
      MulMono(q, 1.0, c);
    }
    if m <= c && 1.0 < q {
      MulMono(1.0, q, c);
    }
  }

  lemma DivAdd(a: real, b: real, c: real)
    requires 0.0 < c
    ensures a / c + b / c == (a + b) / c
  {
    DivFacts(a, c);
    DivFacts(b, c);
    DivFacts(a + b, c);
    assert (a / c + b / c) * c == a / c * c + b / c * c;
    MulCancel(a / c + b / c, (a + b) / c, c);
  }

  /** Bounds `lo * n <= s <= hi * n` on a total bound its quotient by `n`. */
  lemma QuotientBounds(s: real, n: real, lo: real, hi: real)
    requires n > 0.0 && n * lo <= s <= n * hi
    ensures lo <= s / n <= hi
  {
    var q := s / n;
    assert q * n == s;
    if q < lo {
      MulMono(q, lo, n);
    }
    if hi < q {
      MulMono(hi, q, n);
    }
  }

  /** A larger divisor gives a smaller quotient of a non-negative number. */
  lemma DivAntitone(m: real, c: real, d: real)
    requires 0.0 <= m && 0.0 < d <= c
    ensures m / c <= m / d
  {
    var q := m / d;
    DivFacts(m, d);
    MulLe(q, d, c);
    assert c * q == q * c;
    QuotientBounds(m, c, 0.0, q);
  }

  /** A total of `n` numbers each within `[lo, hi]` has its average within `[lo, hi]`. */
  lemma AverageWithin(s: nat, n: nat, lo: nat, hi: nat)
    requires n > 0 && n * lo <= s <= n * hi
    ensures lo as real <= s as real / n as real <= hi as real
  {
    CastProduct(n, lo);
    CastProduct(n, hi);
    QuotientBounds(s as real, n as real, lo as real, hi as real);
  }
}

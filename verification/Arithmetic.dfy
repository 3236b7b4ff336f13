/** Facts of arithmetic that the solver is not left to find: division by a variable, and products of reals. */
module Arithmetic {

  lemma NonNeg(x: nat, y: nat)
    ensures 0 <= x * y
  {
  }

  lemma Wider(p: int, q: int, m: nat)
    requires p < q
    ensures p * m + m <= q * m
  {
    assert q * m == p * m + (q - p) * m;
    assert (q - p) * m == m + (q - p - 1) * m;
    NonNeg(q - p - 1, m);
  }

  /** Quotient and remainder are unique. */
  lemma Quotient(x: int, m: nat, q: int, r: int)
    requires 0 < m && x == q * m + r && 0 <= r < m
    ensures x / m == q && x % m == r
  {
    var p, s := x / m, x % m;
    assert x == p * m + s;
    if p < q {
      Wider(p, q, m);
    } else if q < p {
      Wider(q, p, m);
    }
  }

  lemma AddDivisor(x: int, m: nat)
    requires 0 < m
    ensures (x + m) / m == x / m + 1 && (x + m) % m == x % m
  {
    var q, r := x / m, x % m;
    assert x == q * m + r;
    assert x + m == (q + 1) * m + r;
    Quotient(x + m, m, q + 1, r);
  }

  lemma DivMonotone(x: int, y: int, m: nat)
    requires 0 < m && x <= y
    ensures x / m <= y / m
  {
    var p, q := x / m, y / m;
    assert x == p * m + x % m && y == q * m + y % m;
    if q < p {
      Wider(q, p, m);
    }
  }

  lemma RealNonNeg(x: real, y: real)
    requires 0.0 <= x && 0.0 <= y
    ensures 0.0 <= x * y
  {
  }

  lemma RealMonotone(c: real, x: real, y: real)
    requires 0.0 <= c && x <= y
    ensures c * x <= c * y
  {
    RealNonNeg(c, y - x);
    assert c * (y - x) == c * y - c * x;
  }

  lemma RealCancel(c: real, x: real, y: real)
    requires 0.0 < c && c * x <= c * y
    ensures x <= y
  {
  }
}

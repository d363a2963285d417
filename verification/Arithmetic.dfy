/** Division facts the solver needs spelled out. */
module Arithmetic {

  lemma {:induction false} MulMonotone(m: int, a: int, b: int)
    requires m > 0 && a < b
    ensures m * a + m <= m * b
    decreases b - a
  {
    assert m * (a + 1) == m * a + m;
    if a + 1 < b {
      MulMonotone(m, a + 1, b);
    }
  }

  /** Quotient and remainder are unique. */
  lemma DivModUnique(x: int, m: int, q: int, r: int)
    requires m > 0 && 0 <= r < m && x == m * q + r
    ensures x / m == q && x % m == r
  {
    var q', r' := x / m, x % m;
    assert x == m * q' + r';
    if q' < q {
      MulMonotone(m, q', q);
    } else if q < q' {
      MulMonotone(m, q, q');
    }
  }

  /** Adding a multiple of the modulus shifts the quotient and keeps the remainder. */
  lemma DivModShift(a: int, m: int, k: int)
    requires m > 0
    ensures (a + m * k) / m == a / m + k && (a + m * k) % m == a % m
  {
    assert a + m * k == m * (a / m + k) + a % m;
    DivModUnique(a + m * k, m, a / m + k, a % m);
  }

  lemma DivAtLeast(x: int, m: int)
    requires m > 0 && x + m >= 0
    ensures x / m >= -1
  {
    var q := x / m;
    assert x == m * q + x % m;
    if q < -1 {
      MulMonotone(m, q, -1);
    }
  }
}

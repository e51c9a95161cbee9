/** Divisibility facts the solver does not find by itself. */
module Arithmetic {
  lemma MulAtLeast(k: int, d: int)
    requires 0 < k && 0 < d
    ensures k * d >= d
  {
  }
  lemma Distribute(a: int, b: int, d: int)
    ensures (a - b) * d == a * d - b * d
  {
  }
  /** Quotient and remainder are unique. */
  lemma QuotientUnique(q: int, r: int, q': int, r': int, d: int)
    requires 0 <= r < d && 0 <= r' < d && q * d + r == q' * d + r'
    ensures q == q' && r == r'
  {
    if q < q' {
      MulAtLeast(q' - q, d);
      Distribute(q', q, d);
      assert false;
    } else if q' < q {
      MulAtLeast(q - q', d);
      Distribute(q, q', d);
      assert false;
    }
  }

  lemma ModOf(q: int, r: int, d: int)
    requires 0 <= r < d
    ensures (q * d + r) % d == r && (q * d + r) / d == q
  {
    var n := q * d + r;
    assert n == (n / d) * d + n % d;
    QuotientUnique(n / d, n % d, q, r, d);
  }

  lemma SumAligned(a: int, b: int, d: int)
    requires 0 < d && a % d == 0
    ensures (a + b) % d == b % d
  {
    var n := a / d + b / d;
    assert n * d + b % d == a + b;
    ModOf(n, b % d, d);
  }
}

/** Integer division by its defining bounds. */
module Quotients {

  lemma MulMonotone(a: int, c: int, b: nat)
    requires a <= c
    ensures a * b <= c * b
  {
    assert (c - a) * b >= 0;
  }

  /** The quotient is the only number within the bounds. */
  lemma QuotientIs(x: nat, b: nat, q: nat)
    requires b > 0 && q * b <= x < q * b + b
    ensures x / b == q && x % b == x - q * b
  {
    var d := x / b;
    if d < q {
      MulMonotone(d + 1, q, b);
    } else if d > q {
      MulMonotone(q + 1, d, b);
    }
  }

  lemma DivMonotone(a: nat, c: nat, b: nat)
    requires a <= c && b > 0
    ensures a / b <= c / b
  {
    if c / b < a / b {
      MulMonotone(c / b + 1, a / b, b);
    }
  }

  /** Adding `k * b + m` adds `k` to the quotient, or `k + 1`. */
  lemma DivShift(a: nat, k: nat, m: nat, b: nat)
    requires b > 0 && m < b
    ensures var d := (a + (k * b + m)) / b - a / b; d == k || (d == k + 1 && m > 0)
  {
    var q := a / b;
    Distribute(q, k, b);
    Distribute(q + k, 1, b);
    if a + m < q * b + b {
      QuotientIs(a + (k * b + m), b, q + k);
    } else {
      QuotientIs(a + (k * b + m), b, q + k + 1);
    }
  }

  lemma Distribute(a: int, c: int, b: int)
    ensures (a + c) * b == a * b + c * b
  {
  }
}

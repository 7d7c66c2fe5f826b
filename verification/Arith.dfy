/** Multiplication, division and remainder by a variable. */
module Arith {

  lemma MulMono(a: nat, b: nat, c: nat)
    requires a <= b
    ensures a * c <= b * c
  {
  }

  lemma MulLess(a: nat, b: nat, c: nat)
    requires a < b && 0 < c
    ensures a * c < b * c
  {
  }

  lemma Distribute(a: nat, b: nat, c: nat)
    ensures (a + b) * c == a * c + b * c
  {
  }

  function Quotient(x: nat, d: nat): nat
    requires 0 < d
  {
    x / d
  }

  function Remainder(x: nat, d: nat): nat
    requires 0 < d
  {
    x % d
  }

  /** The quotient is the largest multiple that fits. */
  lemma DivAtLeast(a: nat, d: nat, x: nat)
    requires 0 < d
    ensures a * d <= x <==> a <= x / d
  {
    var q := x / d;
    assert q * d <= x < (q + 1) * d;
    if a <= q {
      MulMono(a, q, d);
    } else {
      MulMono(q + 1, a, d);
    }
  }

  /** Quotient and remainder are the only ones. */
  lemma DivUnique(x: nat, d: nat, q: nat, r: nat)
    requires x == q * d + r && r < d
    ensures x / d == q && x % d == r
  {
    DivAtLeast(q, d, x);
    assert (q + 1) * d == q * d + d;
    DivAtLeast(q + 1, d, x);
  }

  /** One subtraction is enough below twice the divisor. */
  lemma ModStep(a: nat, d: nat)
    requires a < 2 * d
    ensures a % d == if a < d then a else a - d
  {
    if a < d {
      DivUnique(a, d, 0, a);
    } else {
      DivUnique(a, d, 1, a - d);
    }
  }
}

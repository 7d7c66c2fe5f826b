/**
 The values of binary16 and binary32 numbers (section 3.6 of IEEE 754-2008), and rounding to nearest,
 ties to even (section 4.3.1). Magnitudes only: the sign is carried along unchanged.
 */
module HalfFormat {
  import opened Arith
  import opened Powers

  /** The bits of infinity. As a magnitude it stands for 2^16, where the next finite number would be. */
  const HALF_INF: nat := 0x7C00

  const FLOAT_INF: nat := 0x7F80_0000

  /** A binary16 magnitude in units of 2^-24. */
  function HalfVal(h: nat): nat
  {
    var e, m := h / 0x400, h % 0x400;
    if e == 0 then m else (0x400 + m) * Pow2(e - 1)
  }

  /** A binary32 magnitude in units of 2^-149. */
  function FloatVal(f: nat): nat
  {
    var e, m := f / 0x80_0000, f % 0x80_0000;
    if e == 0 then m else (0x80_0000 + m) * Pow2(e - 1)
  }

  /** The unit of binary16 is 2^125 units of binary32. */
  const UNIT: nat := 125

  /** A binary16 magnitude in units of 2^-149. */
  function Scaled(h: nat): nat
  {
    HalfVal(h) * Pow2(UNIT)
  }

  /** The distance from `h` to the next number, in units of 2^-149. */
  function Step(h: nat): nat
  {
    Pow2(UNIT - 1 + if h / 0x400 == 0 then 1 else h / 0x400)
  }

  function Between(x: nat, y: nat): nat
  {
    if x <= y then y - x else x - y
  }

  function Distance(x: nat, h: nat): nat
  {
    Between(x, Scaled(h))
  }

  /** `h` is the binary16 number closest to `x`, and of two equally close ones the even one. */
  ghost predicate NearestEven(x: nat, h: nat)
  {
    && h <= HALF_INF
    && forall k: nat :: k <= HALF_INF && k != h ==>
         Distance(x, h) < Distance(x, k) || (Distance(x, h) == Distance(x, k) && h % 2 == 0)
  }

  /** Within an exponent the significand grows by one; after the last one the exponent does. */
  lemma HalfValStep(h: nat)
    ensures HalfVal(h + 1) == HalfVal(h) + if h / 0x400 == 0 then 1 else Pow2(h / 0x400 - 1)
  {
    var e, m := h / 0x400, h % 0x400;
    if m == 0x3FF {
      assert (h + 1) / 0x400 == e + 1 && (h + 1) % 0x400 == 0;
    } else {
      assert (h + 1) / 0x400 == e && (h + 1) % 0x400 == m + 1;
    }
  }

  lemma HalfStep(h: nat)
    ensures Scaled(h + 1) == Scaled(h) + Step(h)
  {
    HalfValStep(h);
    var e := h / 0x400;
    var gap := if e == 0 then 1 else Pow2(e - 1);
    Distribute(HalfVal(h), gap, Pow2(UNIT));
    if e > 0 {
      Pow2Add(e - 1, UNIT);
    }
  }

  lemma {:induction false} Monotone(a: nat, b: nat)
    requires a < b
    ensures Scaled(a) + Step(a) <= Scaled(b)
    decreases b
  {
    HalfStep(b - 1);
    if a < b - 1 {
      Monotone(a, b - 1);
    }
  }

  /** Rounding by the remainder above the number below: down before the middle, up after it, to even at it. */
  lemma RoundsDown(x: nat, h: nat)
    requires h < HALF_INF && Scaled(h) <= x
    requires 2 * (x - Scaled(h)) < Step(h) || (2 * (x - Scaled(h)) == Step(h) && h % 2 == 0)
    ensures NearestEven(x, h)
  {
    forall k: nat | k <= HALF_INF && k != h
      ensures Distance(x, h) < Distance(x, k) || (Distance(x, h) == Distance(x, k) && h % 2 == 0)
    {
      if k < h { Monotone(k, h); } else { Monotone(h, k); }
    }
  }

  lemma UpperIsCloser(x: nat, low: nat, high: nat, other: nat, odd: bool)
    requires low < high && x <= high && (other <= low || high < other)
    requires 2 * (high - x) < high - low || (2 * (high - x) == high - low && odd)
    ensures Between(x, high) < Between(x, other) || (Between(x, high) == Between(x, other) && odd)
  {
  }

  lemma RoundsUp(x: nat, h: nat)
    requires h < HALF_INF && x <= Scaled(h) + Step(h)
    requires 2 * (Scaled(h) + Step(h) - x) < Step(h) || (2 * (Scaled(h) + Step(h) - x) == Step(h) && (h + 1) % 2 == 0)
    ensures NearestEven(x, h + 1)
  {
    HalfStep(h);
    forall k: nat | k <= HALF_INF && k != h + 1
      ensures Distance(x, h + 1) < Distance(x, k) || (Distance(x, h + 1) == Distance(x, k) && (h + 1) % 2 == 0)
    {
      if k < h { Monotone(k, h); } else if h + 1 < k { Monotone(h + 1, k); }
      UpperIsCloser(x, Scaled(h), Scaled(h + 1), Scaled(k), (h + 1) % 2 == 0);
    }
  }

  lemma RoundsToInfinity(x: nat)
    requires Scaled(HALF_INF) <= x
    ensures NearestEven(x, HALF_INF)
  {
    forall k: nat | k < HALF_INF ensures Distance(x, HALF_INF) < Distance(x, k) {
      Monotone(k, HALF_INF);
    }
  }

  lemma BetweenIsCloser(x: nat, a: nat, b: nat)
    requires a + 1 < b && Distance(x, a) == Distance(x, b)
    ensures Distance(x, a + 1) < Distance(x, a)
  {
    HalfStep(a);
    Monotone(a + 1, b);
  }

  lemma NotBothNearest(x: nat, a: nat, b: nat)
    requires NearestEven(x, a) && a < b
    ensures !NearestEven(x, b)
  {
    if Distance(x, a) == Distance(x, b) && a % 2 == 0 && b % 2 == 0 && b <= HALF_INF {
      BetweenIsCloser(x, a, b);
    }
  }

  /** Rounding has one answer: two closest numbers are neighbours, and only one neighbour is even. */
  lemma NearestUnique(x: nat, a: nat, b: nat)
    requires NearestEven(x, a) && NearestEven(x, b)
    ensures a == b
  {
    if a < b {
      NotBothNearest(x, a, b);
    } else if b < a {
      NotBothNearest(x, b, a);
    }
  }

  /** A number that is representable is its own rounding. */
  lemma ExactRounds(h: nat)
    requires h <= HALF_INF
    ensures NearestEven(Scaled(h), h)
  {
    forall k: nat | k <= HALF_INF && k != h ensures Distance(Scaled(h), h) < Distance(Scaled(h), k) {
      if k < h { Monotone(k, h); } else { Monotone(h, k); }
    }
  }
}

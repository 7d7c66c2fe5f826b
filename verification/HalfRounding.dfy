/** From the bits of a binary32 number to the binary16 number below it and the remainder that decides the rounding. */
module HalfRounding {
  import opened Arith
  import opened Powers
  import opened HalfFormat

  /** `x` lies `rest` of `gap` parts above `u`, in parts of `weight`. */
  ghost predicate Above(x: nat, u: nat, rest: nat, gap: nat, weight: nat)
  {
    u < HALF_INF && rest < gap && x == Scaled(u) + rest * weight && Step(u) == gap * weight
  }

  function Rounded(u: nat, rest: nat, gap: nat): nat
  {
    if 2 * rest > gap || (2 * rest == gap && u % 2 == 1) then u + 1 else u
  }

  /** Comparing the rest with half the gap does not depend on the weight. */
  lemma RestHalf(rest: nat, gap: nat, w: nat)
    requires rest < gap && 0 < w
    ensures rest * w < gap * w
    ensures 2 * rest < gap ==> 2 * (rest * w) < gap * w
    ensures 2 * rest == gap ==> 2 * (rest * w) == gap * w
    ensures 2 * rest > gap ==> 2 * (rest * w) > gap * w
  {
    assert 2 * (rest * w) == (2 * rest) * w;
    MulLess(rest, gap, w);
    if 2 * rest < gap {
      MulLess(2 * rest, gap, w);
    } else if 2 * rest > gap {
      MulLess(gap, 2 * rest, w);
    }
  }

  lemma Parity(u: nat)
    ensures u % 2 == 1 ==> (u + 1) % 2 == 0
    ensures u % 2 != 1 ==> u % 2 == 0
  {
  }

  lemma RoundByRest(x: nat, u: nat, rest: nat, gap: nat, weight: nat)
    requires Above(x, u, rest, gap, weight) && 0 < weight
    ensures NearestEven(x, Rounded(u, rest, gap))
  {
    RestHalf(rest, gap, weight);
    Parity(u);
    if Rounded(u, rest, gap) == u {
      RoundsDown(x, u);
    } else {
      RoundsUp(x, u);
    }
  }

  function Exponent(f: nat): nat
  {
    f / 0x80_0000
  }

  function Fraction(f: nat): nat
  {
    f % 0x80_0000
  }

  function Significand(f: nat): nat
  {
    0x80_0000 + Fraction(f)
  }

  /** A number in the range of the normal binary16 numbers: the top ten bits of the fraction stay. */
  lemma NormalAbove(f: nat)
    requires 113 <= Exponent(f) <= 142
    ensures Above(FloatVal(f), (Exponent(f) - 112) * 0x400 + Fraction(f) / 0x2000, Fraction(f) % 0x2000, 0x2000,
                  Pow2(Exponent(f) - 1))
  {
    var e, m := Exponent(f), Fraction(f);
    var top := m / 0x2000;
    var u := (e - 112) * 0x400 + top;
    assert u / 0x400 == e - 112 && u % 0x400 == top;
    Pow2Add(e - 113, UNIT);
    Pow2Add(13, e - 1);
    Pow2Small();
    NormalValue(top, m % 0x2000, Pow2(e - 113), Pow2(UNIT), Pow2(e - 1));
    assert m == top * 0x2000 + m % 0x2000;
  }

  lemma NormalValue(top: nat, low: nat, p: nat, unit: nat, weight: nat)
    requires p * unit == 0x2000 * weight
    ensures (0x80_0000 + top * 0x2000 + low) * weight == (0x400 + top) * p * unit + low * weight
  {
    assert (0x400 + top) * p * unit == (0x400 + top) * (0x2000 * weight);
    assert (0x400 + top) * (0x2000 * weight) == (0x80_0000 + top * 0x2000) * weight;
  }

  /** A number in the range of the subnormal binary16 numbers: the significand loses its low bits. */
  lemma SubnormalAbove(f: nat, e: nat, gap: nat, q: nat, rest: nat)
    requires e == Exponent(f) && 82 <= e <= 112 && gap == Pow2(126 - e)
    requires Significand(f) == q * gap + rest && rest < gap
    ensures Above(FloatVal(f), q, rest, gap, Pow2(e - 1))
  {
    assert Pow2(UNIT) == gap * Pow2(e - 1) by { Pow2Add(126 - e, e - 1); }
    SubnormalGap(e);
    SubnormalShape(Significand(f), q, rest, gap, Pow2(e - 1));
  }

  lemma SubnormalGap(e: nat)
    requires e <= 112
    ensures 0x4000 <= Pow2(126 - e)
  {
    Pow2Small();
    Pow2Monotone(14, 126 - e);
  }

  lemma SubnormalShape(s: nat, q: nat, rest: nat, gap: nat, weight: nat)
    requires s == q * gap + rest && rest < gap
    requires s < 0x100_0000 && 0x4000 <= gap && Pow2(UNIT) == gap * weight
    ensures Above(s * weight, q, rest, gap, weight)
  {
    QuotientSmall(s, q, rest, gap);
    assert q / 0x400 == 0 && q % 0x400 == q;
    SubnormalValue(q, rest, gap, weight);
  }

  lemma QuotientSmall(s: nat, q: nat, rest: nat, gap: nat)
    requires s == q * gap + rest && s < 0x100_0000 && 0x4000 <= gap
    ensures q < 0x400
  {
    assert q * 0x4000 <= q * gap;
  }

  lemma SubnormalValue(q: nat, rest: nat, gap: nat, weight: nat)
    ensures (q * gap + rest) * weight == q * (gap * weight) + rest * weight
  {
  }

  lemma RoundsToZero(x: nat)
    requires 2 * x <= Pow2(UNIT)
    ensures NearestEven(x, 0)
  {
    RoundsDown(x, 0);
  }

  lemma FieldsOf(f: nat)
    ensures f == Exponent(f) * 0x80_0000 + Fraction(f) && Fraction(f) < 0x80_0000
  {
  }

  /** Up to half of the smallest number everything is rounded to zero. */
  lemma TinyRounds(f: nat)
    requires f <= 0x3300_0000
    ensures NearestEven(FloatVal(f), 0)
  {
    FieldsOf(f);
    var e := Exponent(f);
    if e == 102 {
      assert FloatVal(f) == 0x80_0000 * Pow2(101);
      HalfOfLeast();
    } else if e == 0 {
      TinyValue(Fraction(f), 0);
    } else {
      TinyValue(Significand(f), e - 1);
    }
    RoundsToZero(FloatVal(f));
  }

  lemma HalfOfLeast()
    ensures 2 * (0x80_0000 * Pow2(101)) == Pow2(UNIT)
  {
    Pow2Small();
    Pow2Add(24, UNIT - 24);
  }

  lemma TinyValue(s: nat, k: nat)
    requires s < 0x100_0000 && k <= 100
    ensures 2 * (s * Pow2(k)) < Pow2(UNIT)
  {
    Pow2Small();
    MulLess(s, 0x100_0000, Pow2(k));
    Pow2Add(24, k);
    Pow2Monotone(24 + k, 124);
  }

  /** From 2^16 on everything is rounded to infinity. */
  lemma HugeRounds(f: nat)
    requires 143 <= Exponent(f)
    ensures NearestEven(FloatVal(f), HALF_INF)
  {
    var e := Exponent(f);
    HugeValue(e);
    MulMono(0x80_0000, Significand(f), Pow2(e - 1));
    RoundsToInfinity(FloatVal(f));
  }

  lemma HugeValue(e: nat)
    requires 143 <= e
    ensures Scaled(HALF_INF) <= 0x80_0000 * Pow2(e - 1)
  {
    InfinityScaled(HALF_INF, UNIT);
    assert Pow2(23) == 0x80_0000 by { Pow2Small(); }
    Pow2Add(23, e - 1);
    Pow2Monotone(40 + UNIT, 23 + (e - 1));
  }

  lemma InfinityScaled(h: nat, unit: nat)
    requires h == HALF_INF
    ensures HalfVal(h) * Pow2(unit) == Pow2(40 + unit)
  {
    var e := h / 0x400;
    assert Pow2(10) == 0x400 by { Pow2Small(); }
    Pow2Add(10, e - 1);
    Pow2Add(10 + (e - 1), unit);
  }
}

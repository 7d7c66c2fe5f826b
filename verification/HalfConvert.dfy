/**
 The two software conversions from binary32 to binary16 and the conversion back, on the bit patterns.
 A shift is a division or product by a power of two, a mask is a remainder, and an `or` of disjoint
 fields is a sum.
 */
module HalfConvert {
  import opened Arith
  import opened Powers
  import opened HalfFormat
  import opened HalfRounding

  predicate IsFloat(s: nat)
  {
    s < 0x1_0000_0000
  }

  function Magnitude(s: nat): nat
  {
    s % 0x8000_0000
  }

  predicate FloatNaN(s: nat)
  {
    FLOAT_INF < Magnitude(s)
  }

  predicate HalfNaN(h: nat)
  {
    HALF_INF < h % 0x8000
  }

  /** `d` has the sign of `s` and is the binary16 number nearest to it, ties to even. */
  ghost predicate Converts(s: nat, d: nat)
  {
    d < 0x1_0000 && d / 0x8000 == s / 0x8000_0000 && NearestEven(FloatVal(Magnitude(s)), d % 0x8000)
  }

  lemma Fields(s: nat)
    requires IsFloat(s)
    ensures s / 0x80_0000 % 0x100 == Exponent(Magnitude(s)) && s % 0x80_0000 == Fraction(Magnitude(s))
    ensures s / 0x8000_0000 <= 1
    ensures FloatNaN(s) <==> Exponent(Magnitude(s)) == 255 && Fraction(Magnitude(s)) != 0
  {
  }

  lemma WithSign(s: nat, h: nat)
    requires IsFloat(s) && NearestEven(FloatVal(Magnitude(s)), h)
    ensures Converts(s, s / 0x8000_0000 * 0x8000 + h)
  {
    Fields(s);
  }

  /** Rounding by the bit below the last one kept and the bits after it. */
  function RoundBits(u: nat, v: nat, sticky: bool): nat
  {
    if v / 0x1000 % 2 == 1 && (sticky || v % 0x1000 != 0 || u % 2 == 1) then u + 1 else u
  }

  /** The round bit and the sticky bit tell on which side of the middle the rest lies. */
  lemma RoundAndSticky(u: nat, v: nat, p: nat, low: nat)
    requires low < p
    ensures v % 0x2000 * p + low < 0x2000 * p
    ensures Rounded(u, v % 0x2000 * p + low, 0x2000 * p) == RoundBits(u, v, low != 0)
  {
    var b := v % 0x2000;
    assert v / 0x1000 % 2 == b / 0x1000 && v % 0x1000 == b % 0x1000;
    if b < 0x1000 {
      RestLess(b, p, low, 0x1000);
    } else {
      RestLess(b, p, low, 0x2000);
      RestMore(b, p, low, 0x1000);
    }
  }

  lemma RestLess(b: nat, p: nat, low: nat, bound: nat)
    requires b < bound && low < p
    ensures b * p + low < bound * p
  {
    assert (b + 1) * p <= bound * p;
  }

  lemma RestMore(b: nat, p: nat, low: nat, bound: nat)
    requires bound <= b && low < p
    ensures bound * p <= b * p + low
    ensures bound * p == b * p + low <==> b == bound && low == 0
  {
    if bound < b {
      assert (bound + 1) * p <= b * p;
    }
  }

  /** A shift to the right. */
  function Shr(v: nat, k: nat): nat
  {
    Quotient(v, Pow2(k))
  }

  /** The bits that a shift to the right drops. */
  function Low(v: nat, k: nat): nat
  {
    Remainder(v, Pow2(k))
  }

  /** What is kept of a significand and what is dropped make it up. */
  lemma Shifted(s: nat, k: nat)
    ensures Low(s, k) < Pow2(k)
    ensures s == Shr(s, k) / 0x2000 * (0x2000 * Pow2(k)) + (Shr(s, k) % 0x2000 * Pow2(k) + Low(s, k))
  {
    Regroup(Shr(s, k), Pow2(k));
  }

  lemma Regroup(v: nat, p: nat)
    ensures v * p == v / 0x2000 * (0x2000 * p) + v % 0x2000 * p
  {
    assert v == v / 0x2000 * 0x2000 + v % 0x2000;
    Distribute(v / 0x2000 * 0x2000, v % 0x2000, p);
  }

  /** Rounds to nearest even with a round bit and a sticky bit. */
  method Float2HalfBits(s: nat) returns (d: nat)
    requires IsFloat(s)
    ensures FloatNaN(s) ==> d == 0x7FFF
    ensures !FloatNaN(s) ==> Converts(s, d)
  {
    var sign := s / 0x8000_0000 * 0x8000;
    var exp := s / 0x80_0000 % 0x100 - 127;
    var mantissa := s % 0x80_0000;
    Fields(s);
    if s % 0x8000_0000 == 0 {
      TinyRounds(0);
      WithSign(s, 0);
      return sign;
    }
    if exp > 15 {
      if exp == 128 && mantissa != 0 {
        return 0x7FFF;
      } else {
        HugeRounds(Magnitude(s));
        WithSign(s, HALF_INF);
        return sign + 0x7C00;
      }
    }
    var u := ToHalfMagnitude(Magnitude(s), exp, mantissa);
    WithSign(s, u);
    d := u + sign;
  }

  method ToHalfMagnitude(ghost f: nat, exp: int, fraction: nat) returns (h: nat)
    requires exp == Exponent(f) - 127 && fraction == Fraction(f) && Exponent(f) <= 142
    ensures NearestEven(FloatVal(f), h)
  {
    var mantissa, sticky, u := fraction, false, 0;
    if exp >= -14 {
      u := (exp + 15) % 0x20 * 0x400 + mantissa / 0x2000;
      assert (exp + 15) % 0x20 == exp + 15;
      NormalRounds(f, u);
    } else {
      var rshift := -14 - exp;
      if rshift < 32 {
        mantissa := mantissa + 0x80_0000;
        sticky := Low(mantissa, rshift) != 0;
        mantissa := Shr(mantissa, rshift);
        u := mantissa / 0x2000 % 0x400;
        SubnormalRounds(f, rshift, u);
      } else {
        mantissa := 0;
        u := 0;
        TinyRounds(f);
      }
    }
    assert NearestEven(FloatVal(f), RoundBits(u, mantissa, sticky));
    var round := mantissa / 0x1000 % 2;
    sticky := sticky || mantissa % 0x1000 != 0;
    h := u;
    if (round == 1 && sticky) || (round == 1 && u % 2 == 1) {
      h := u + 1;
    }
  }

  lemma NoStickyBelow(u: nat, m: nat)
    ensures Rounded(u, m % 0x2000, 0x2000) == RoundBits(u, m, false)
  {
    RoundAndSticky(u, m, 1, 0);
  }

  lemma NormalRounds(f: nat, u: nat)
    requires 113 <= Exponent(f) <= 142
    requires u == (Exponent(f) - 112) * 0x400 + Fraction(f) / 0x2000
    ensures NearestEven(FloatVal(f), RoundBits(u, Fraction(f), false))
  {
    NormalAbove(f);
    NoStickyBelow(u, Fraction(f));
    RoundByRest(FloatVal(f), u, Fraction(f) % 0x2000, 0x2000, Pow2(Exponent(f) - 1));
  }

  lemma SubnormalRounds(f: nat, k: nat, u: nat)
    requires 82 <= Exponent(f) <= 112 && k == 113 - Exponent(f)
    requires u == Shr(Significand(f), k) / 0x2000 % 0x400
    ensures NearestEven(FloatVal(f), RoundBits(u, Shr(Significand(f), k), Low(Significand(f), k) != 0))
  {
    var v, p := Shr(Significand(f), k), Pow2(k);
    var rest := v % 0x2000 * p + Low(Significand(f), k);
    Shifted(Significand(f), k);
    RoundAndSticky(u, v, p, Low(Significand(f), k));
    SubnormalAt(f, v / 0x2000, rest);
    RoundByRest(FloatVal(f), u, rest, 0x2000 * p, Pow2(Exponent(f) - 1));
  }

  lemma SubnormalAt(f: nat, q: nat, rest: nat)
    requires 82 <= Exponent(f) <= 112 && rest < 0x2000 * Pow2(113 - Exponent(f))
    requires Significand(f) == q * (0x2000 * Pow2(113 - Exponent(f))) + rest
    ensures q < 0x400
    ensures Above(FloatVal(f), q, rest, 0x2000 * Pow2(113 - Exponent(f)), Pow2(Exponent(f) - 1))
  {
    var e := Exponent(f);
    var gap := 0x2000 * Pow2(113 - e);
    assert gap == Pow2(126 - e) by { Pow2Small(); Pow2Add(13, 113 - e); }
    SubnormalAbove(f, e, gap, q, rest);
    SubnormalGap(e);
    QuotientSmall(Significand(f), q, rest, gap);
  }

  // ---------------------------------------------------------------------------
  // The other implementation

  /** Adding half a unit and cutting off rounds to nearest, except at a middle above an even number. */
  function AddHalf(v: nat, lost: bool): nat
  {
    if v % 0x4000 != 0x1000 || lost then v + 0x1000 else v
  }

  /** The last bit kept, the round bit and the bits after it. */
  lemma LowBits(v: nat, c: nat, last: nat, round: nat, rest: nat)
    requires v == c * 0x4000 + last * 0x2000 + round * 0x1000 + rest && last < 2 && round < 2 && rest < 0x1000
    ensures v / 0x2000 == 2 * c + last && v / 0x2000 % 2 == last
    ensures v % 0x4000 == last * 0x2000 + round * 0x1000 + rest
    ensures v / 0x1000 % 2 == round && v % 0x1000 == rest
    ensures (v + 0x1000) / 0x2000 == 2 * c + last + round
  {
    DivUnique(v, 0x2000, 2 * c + last, round * 0x1000 + rest);
    DivUnique(2 * c + last, 2, c, last);
    DivUnique(v, 0x4000, c, last * 0x2000 + round * 0x1000 + rest);
    DivUnique(v, 0x1000, 2 * (2 * c + last) + round, rest);
    DivUnique(2 * (2 * c + last) + round, 2, 2 * c + last, round);
    if round == 0 {
      DivUnique(v + 0x1000, 0x2000, 2 * c + last, 0x1000 + rest);
    } else {
      DivUnique(v + 0x1000, 0x2000, 2 * c + last + 1, rest);
    }
  }

  lemma SplitBits(v: nat) returns (c: nat, last: nat, round: nat, rest: nat)
    ensures v == c * 0x4000 + last * 0x2000 + round * 0x1000 + rest && last < 2 && round < 2 && rest < 0x1000
  {
    var a := v / 0x1000;
    var b := a / 2;
    c, last, round, rest := b / 2, b % 2, a % 2, v % 0x1000;
    assert v == a * 0x1000 + rest && a == 2 * b + round && b == 2 * c + last;
  }

  /** Both ways of rounding keep the same bits. */
  lemma AddHalfRounds(v: nat, lost: bool)
    ensures AddHalf(v, lost) / 0x2000 == RoundBits(v / 0x2000, v, lost)
  {
    var c, last, round, rest := SplitBits(v);
    LowBits(v, c, last, round, rest);
  }

  /** For shifts of at most eleven bits the low eleven bits of the significand tell what a middle has lost. */
  lemma LostBits(s: nat, k: nat)
    requires k <= 11 && Shr(s, k) % 0x4000 == 0x1000
    ensures s % 0x800 == Low(s, k)
  {
    var v, p := Shr(s, k), Pow2(k);
    assert Pow2(11) == 0x800 by { Pow2Small(); }
    Pow2Add(k, 11 - k);
    Pow2Monotone(k, 11);
    assert v == 0x1000 * (v / 0x1000);
    Multiple(s, v / 0x1000, p, Low(s, k));
  }

  lemma Multiple(s: nat, c: nat, p: nat, low: nat)
    requires s == 0x1000 * c * p + low && low < 0x800
    ensures s % 0x800 == low
  {
    assert s == 0x800 * (2 * (c * p)) + low;
  }

  /** Rounds to nearest even by adding half a unit before cutting off. */
  method FloatToHalf(s: nat) returns (d: nat)
    requires IsFloat(s)
    ensures FloatNaN(s) ==> HalfNaN(d)
    ensures !FloatNaN(s) ==> Converts(s, d)
  {
    var sign := s / 0x8000_0000 * 0x8000;
    var v := s % 0x8000_0000;
    v := RoundMagnitude(v);
    v := v / 0x2000;
    d := sign + v % 0x8000;
    if !FloatNaN(s) {
      WithSign(s, v % 0x8000);
    }
  }

  /** The conversion without the sign, up to the final shift. */
  method RoundMagnitude(f: nat) returns (v: nat)
    requires f < 0x8000_0000
    ensures f <= FLOAT_INF ==> NearestEven(FloatVal(f), v / 0x2000 % 0x8000)
    ensures FLOAT_INF < f ==> HALF_INF < v / 0x2000 % 0x8000
  {
    v := f;
    if f <= 0x3300_0000 {
      v := 0;
      TinyRounds(f);
    } else if f < 0x3880_0000 {
      v := Denormal(f);
    } else if f <= 0x477F_FFFF {
      v := Normal(f);
    } else if f <= 0x7F80_0000 {
      v := 0x7F80_0000;
      BeyondRange(f);
    } else {
      if f < 0x7F80_2000 {
        v := 0x7F80_2000;
      }
      StaysNaN(v);
    }
  }

  lemma BeyondRange(f: nat)
    requires 0x4780_0000 <= f
    ensures NearestEven(FloatVal(f), 0x7F80_0000 / 0x2000 % 0x8000)
  {
    DivAtLeast(143, 0x80_0000, f);
    HugeRounds(f);
  }

  lemma StaysNaN(v: nat)
    requires 0x7F80_2000 <= v < 0x8000_0000
    ensures HALF_INF < v / 0x2000 % 0x8000
  {
    var q := v / 0x2000;
    DivUnique(q, 0x8000, 7, q - 7 * 0x8000);
  }

  /** The subnormal range: the significand is shifted into place before it is rounded. */
  method Denormal(f: nat) returns (v: nat)
    requires 0x3300_0000 < f < 0x3880_0000
    ensures NearestEven(FloatVal(f), v / 0x2000 % 0x8000)
  {
    var exp32 := f / 0x80_0000;
    var exp16: int := exp32 - 112;
    var vshift := 1 - exp16;
    var significand := 0x80_0000 + f % 0x80_0000;
    v := Shr(significand, vshift);
    DenormalRounds(f, vshift);
    if v % 0x4000 != 0x1000 || significand % 0x800 != 0 {
      v := v + 0x1000;
    }
  }

  lemma DenormalRounds(f: nat, k: nat)
    requires 102 <= Exponent(f) <= 112 && k == 113 - Exponent(f)
    ensures var v := AddHalf(Shr(Significand(f), k), Significand(f) % 0x800 != 0);
            NearestEven(FloatVal(f), v / 0x2000 % 0x8000)
  {
    var s := Significand(f);
    var v := Shr(s, k);
    var q := v / 0x2000;
    assert q < 0x400 by {
      Shifted(s, k);
      RoundAndSticky(q, v, Pow2(k), Low(s, k));
      SubnormalAt(f, q, v % 0x2000 * Pow2(k) + Low(s, k));
    }
    DivUnique(q, 0x400, 0, q);
    SubnormalRounds(f, k, q);
    assert AddHalf(v, s % 0x800 != 0) == AddHalf(v, Low(s, k) != 0) by {
      if v % 0x4000 == 0x1000 { LostBits(s, k); }
    }
    AddHalfRounds(v, Low(s, k) != 0);
    InRange(RoundBits(q, v, Low(s, k) != 0));
  }

  /** The normal range: exponent and fraction are rounded as one number, so a carry moves into the exponent. */
  method Normal(f: nat) returns (v: nat)
    requires 0x3880_0000 <= f <= 0x477F_FFFF
    ensures NearestEven(FloatVal(f), v / 0x2000 % 0x8000)
  {
    v := f;
    if v % 0x4000 != 0x1000 {
      v := v + 0x1000;
    }
    v := v - 112 * 0x80_0000;
    NormalAddHalf(f);
  }

  lemma NormalAddHalf(f: nat)
    requires 0x3880_0000 <= f <= 0x477F_FFFF
    ensures 112 * 0x80_0000 <= AddHalf(f, false)
    ensures NearestEven(FloatVal(f), (AddHalf(f, false) - 112 * 0x80_0000) / 0x2000 % 0x8000)
  {
    var e, m := Exponent(f), Fraction(f);
    var u := (e - 112) * 0x400 + m / 0x2000;
    NormalParts(f, e, m);
    NormalRounds(f, u);
    AddHalfNormal(f, u, m);
    InRange(RoundBits(u, m, false));
  }

  lemma NormalParts(f: nat, e: nat, m: nat)
    requires 0x3880_0000 <= f <= 0x477F_FFFF && e == Exponent(f) && m == Fraction(f)
    ensures 113 <= e <= 142
    ensures f == ((e - 112) * 0x400 + m / 0x2000 + 112 * 0x400) * 0x2000 + m % 0x2000
    ensures (e - 112) * 0x400 + m / 0x2000 < HALF_INF
  {
    FieldsOf(f);
    assert m == m / 0x2000 * 0x2000 + m % 0x2000;
  }

  lemma InRange(h: nat)
    requires h < 0x8000
    ensures h % 0x8000 == h
  {
  }

  lemma AddHalfNormal(f: nat, u: nat, m: nat)
    requires f == (u + 112 * 0x400) * 0x2000 + m % 0x2000 && u < HALF_INF
    ensures (AddHalf(f, false) - 112 * 0x80_0000) / 0x2000 == RoundBits(u, m, false) < 0x8000
  {
    var c, last, round, rest := SplitBits(f);
    LowBits(f, c, last, round, rest);
    var c', last', round', rest' := SplitBits(m);
    LowBits(m, c', last', round', rest');
    assert round' == round && rest' == rest && 2 * c + last == u + 112 * 0x400;
  }

  // ---------------------------------------------------------------------------
  // The way back

  /** The binary32 number with the same value; infinity stays infinity. */
  predicate Widens(h: nat, f: nat)
  {
    && f / 0x8000_0000 == h / 0x8000 && IsFloat(f)
    && (h % 0x8000 < HALF_INF ==> Magnitude(f) < FLOAT_INF && FloatVal(Magnitude(f)) == Scaled(h % 0x8000))
    && (h % 0x8000 == HALF_INF ==> Magnitude(f) == FLOAT_INF)
  }

  method HalfBits2Float(h: nat) returns (f: nat)
    requires h < 0x1_0000
    ensures HalfNaN(h) ==> f == 0x7FFF_FFFF
    ensures !HalfNaN(h) ==> Widens(h, f)
  {
    var sign, exp, mantissa := h / 0x8000, h / 0x400 % 0x20, h % 0x400;
    HalfFields(h);
    var magnitude: nat := 0;
    if 0 < exp < 31 {
      magnitude := (exp + 112) * 0x80_0000 + mantissa * 0x2000;
      WidensNormal(h % 0x8000, magnitude);
    } else if exp == 0 {
      if mantissa != 0 {
        magnitude := Normalise(mantissa);
      }
      ScaledSubnormal(mantissa);
    } else if mantissa != 0 {
      return 0x7FFF_FFFF;
    } else {
      magnitude := 0xFF * 0x80_0000;
    }
    f := sign * 0x8000_0000 + magnitude;
    WidensWithSign(h, magnitude);
  }

  lemma WidensWithSign(h: nat, magnitude: nat)
    requires h < 0x1_0000
    requires h % 0x8000 < HALF_INF ==> magnitude < FLOAT_INF && FloatVal(magnitude) == Scaled(h % 0x8000)
    requires h % 0x8000 == HALF_INF ==> magnitude == FLOAT_INF
    ensures !HalfNaN(h) ==> Widens(h, h / 0x8000 * 0x8000_0000 + magnitude)
  {
    if !HalfNaN(h) {
      SignApart(h / 0x8000, magnitude);
    }
  }

  lemma SignApart(sign: nat, magnitude: nat)
    requires sign <= 1 && magnitude < 0x8000_0000
    ensures var f := sign * 0x8000_0000 + magnitude;
            f / 0x8000_0000 == sign && f % 0x8000_0000 == magnitude && f < 0x1_0000_0000
  {
  }

  lemma ScaledSubnormal(m: nat)
    requires m < 0x400
    ensures Scaled(m) == m * Pow2(UNIT) && FloatVal(0) == 0
  {
  }

  lemma HalfFields(h: nat)
    requires h < 0x1_0000
    ensures h / 0x8000 <= 1 && h % 0x8000 == h / 0x400 % 0x20 * 0x400 + h % 0x400
    ensures h % 0x8000 / 0x400 == h / 0x400 % 0x20 && h % 0x8000 % 0x400 == h % 0x400
  {
  }

  lemma WidensNormal(h: nat, f: nat)
    requires 1 <= h / 0x400 <= 30 && f == (h / 0x400 + 112) * 0x80_0000 + h % 0x400 * 0x2000
    ensures f < FLOAT_INF && FloatVal(f) == Scaled(h)
  {
    var e, m := h / 0x400, h % 0x400;
    DivUnique(f, 0x80_0000, e + 112, m * 0x2000);
    assert Pow2(e - 1) * Pow2(UNIT) == 0x2000 * Pow2(e + 111) by {
      Pow2Add(e - 1, UNIT);
      Pow2Small();
      Pow2Add(13, e + 111);
    }
    NormalValue(m, 0, Pow2(e - 1), Pow2(UNIT), Pow2(e + 111));
  }

  /** Shifts a subnormal fraction up until its leading bit is the hidden one, and lowers the exponent by as much. */
  method Normalise(fraction: nat) returns (f: nat)
    requires 0 < fraction < 0x400
    ensures f < FLOAT_INF && FloatVal(f) == fraction * Pow2(UNIT)
  {
    var mantissa, exp := fraction, 113;
    assert Pow2(113 - exp) == 1;
    while mantissa / 0x400 % 2 == 0
      invariant 0 < mantissa < 0x800 && 103 <= exp <= 113
      invariant mantissa * Pow2(exp + 12) == fraction * Pow2(UNIT)
      invariant Pow2(113 - exp) <= mantissa
      decreases exp
    {
      LeadingBit(mantissa);
      DoubleStep(mantissa, exp);
      mantissa := mantissa * 2;
      exp := exp - 1;
    }
    LeadingBit(mantissa);
    mantissa := mantissa % 0x400;
    f := exp * 0x80_0000 + mantissa * 0x2000;
    NormalisedValue(f, exp, mantissa);
  }

  lemma LeadingBit(m: nat)
    requires m < 0x800
    ensures m / 0x400 % 2 == 0 <==> m < 0x400
    ensures 0x400 <= m ==> m == 0x400 + m % 0x400
  {
  }

  lemma DoubleStep(mantissa: nat, exp: nat)
    requires 0 < mantissa < 0x400 && 103 <= exp <= 113 && Pow2(113 - exp) <= mantissa
    ensures 104 <= exp && mantissa * 2 * Pow2(exp - 1 + 12) == mantissa * Pow2(exp + 12)
    ensures Pow2(113 - (exp - 1)) <= mantissa * 2
  {
    if exp == 103 {
      Pow2Small();
    }
    assert Pow2(exp + 12) == 2 * Pow2(exp + 11);
  }

  lemma NormalisedValue(f: nat, exp: nat, low: nat)
    requires 1 <= exp <= 113 && low < 0x400 && f == exp * 0x80_0000 + low * 0x2000
    ensures f < FLOAT_INF && FloatVal(f) == (0x400 + low) * Pow2(exp + 12)
  {
    DivUnique(f, 0x80_0000, exp, low * 0x2000);
    assert Pow2(exp + 12) == 0x2000 * Pow2(exp - 1) by { Pow2Small(); Pow2Add(13, exp - 1); }
    NormalValue(low, 0, 1, 0x2000 * Pow2(exp - 1), Pow2(exp - 1));
  }

  // ---------------------------------------------------------------------------
  // Agreement and round trip

  /** The two implementations agree on everything but NaN. */
  method ConversionsAgree(s: nat) returns (a: nat, b: nat)
    requires IsFloat(s) && !FloatNaN(s)
    ensures Converts(s, a) && a == b
  {
    a := Float2HalfBits(s);
    b := FloatToHalf(s);
    ConvertsUnique(s, a, b);
  }

  /** There is one conversion: any two results are the same bits. */
  lemma ConvertsUnique(s: nat, a: nat, b: nat)
    requires Converts(s, a) && Converts(s, b)
    ensures a == b
  {
    NearestUnique(FloatVal(Magnitude(s)), a % 0x8000, b % 0x8000);
    assert a == a / 0x8000 * 0x8000 + a % 0x8000;
    assert b == b / 0x8000 * 0x8000 + b % 0x8000;
  }

  /** Converting to binary32 and back gives the same bits. */
  method RoundTrip(h: nat) returns (d: nat)
    requires h < 0x1_0000 && !HalfNaN(h)
    ensures d == h
  {
    var f := HalfBits2Float(h);
    d := Float2HalfBits(f);
    WidenedConverts(h, f);
    ConvertsUnique(f, d, h);
  }

  lemma WidenedConverts(h: nat, f: nat)
    requires h < 0x1_0000 && !HalfNaN(h) && Widens(h, f)
    ensures Converts(f, h)
  {
    if h % 0x8000 < HALF_INF {
      ExactRounds(h % 0x8000);
    } else {
      HugeRounds(FLOAT_INF);
    }
  }
}

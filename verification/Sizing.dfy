/**
 The sizing rule: from one reading of the size provider to the number of executors
 the manager wants.  The quotient is the binary64 quotient the program computes, so
 the rounding is written out, on integers, and then shown not to matter in range.
 */
module Sizing {

  /** The limits the constructor has checked by the time the manager exists. */
  datatype Config = Config(
    maxPools: nat,
    minPools: nat,
    unitsPerPool: nat,
    checkInterval: real,
    graceSeconds: real)
  {
    predicate Valid() {
      && 1 <= minPools <= maxPools
      && 1 <= unitsPerPool
      && checkInterval > 0.0
      && graceSeconds >= 0.0
    }

    /** How many executors one reading of the size provider asks for. */
    function Desired(reading: Reading): (d: nat)
      requires Valid()
      ensures minPools <= d <= maxPools
    {
      Min(maxPools, Max(minPools, CeilFloat(RoundQuotient(BINARY64, UnitCount(reading), unitsPerPool))))
    }
  }

  /** What asking the size provider can give: nothing to ask, an exception, or a number. */
  datatype Reading = NoProvider | Raised | Units(count: int)

  function UnitCount(reading: Reading): nat {
    match reading
    case NoProvider => 0
    case Raised => 0
    case Units(count) => if count < 0 then 0 else count
  }

  function Min(x: nat, y: nat): nat {
    if x < y then x else y
  }

  function Max(x: nat, y: nat): nat {
    if x < y then y else x
  }

  // ------------------------------------------------------------------------------
  // Division in binary floating point, section 4.3.1 of IEEE 754-2019: round to
  // nearest, ties to even.  A value is mantissa * 2^exponent.
  // ------------------------------------------------------------------------------

  /** Mantissas have `precision` bits, exponents are at least `minExponent`. */
  datatype Format = Format(precision: nat, minExponent: int) {
    /** The subnormal range lies below one. */
    predicate Valid() {
      precision >= 2 && minExponent + precision < 0
    }
  }

  const BINARY64 := Format(53, -1074)

  datatype Float = Float(mantissa: nat, exponent: int)

  function Pow2(k: nat): (p: nat)
    ensures p > k
  {
    if k == 0 then 1 else 2 * Pow2(k - 1)
  }

  /** n / d < 2^k, without leaving the integers. */
  predicate QuotientBelow(n: nat, d: nat, k: int)
    requires d > 0
  {
    if k >= 0 then n < Scaled(d, k) else Scaled(n, -k) < d
  }

  lemma MulMonotone(a: nat, b: nat, c: nat)
    requires a <= b
    ensures a * c <= b * c
    ensures c * a <= c * b
  {
  }

  /** The least exponent from e on whose mantissas reach the quotient. */
  function Exponent(f: Format, n: nat, d: nat, e: int): (r: int)
    requires d > 0
    ensures e <= r && QuotientBelow(n, d, f.precision + r)
    ensures r == e || !QuotientBelow(n, d, f.precision + r - 1)
    decreases if f.precision + e <= n then n - (f.precision + e) + 1 else 0
  {
    if QuotientBelow(n, d, f.precision + e) then
      e
    else
      SmallExponent(n, d, f.precision + e);
      Exponent(f, n, d, e + 1)
  }

  lemma SmallExponent(n: nat, d: nat, k: int)
    requires d > 0 && !QuotientBelow(n, d, k)
    ensures k < n || (k < 0 && n > 0)
  {
    if k >= 0 {
      MulMonotone(1, d, Pow2(k));
    }
  }

  function RoundHalfEven(n: nat, d: nat): nat
    requires d > 0
  {
    var q, r := n / d, n % d;
    if 2 * r < d || (2 * r == d && q % 2 == 0) then q else q + 1
  }

  function RoundQuotient(f: Format, n: nat, d: nat): Float
    requires d > 0
  {
    var e := Exponent(f, n, d, f.minExponent);
    Float(if e >= 0 then RoundHalfEven(n, Scaled(d, e)) else RoundHalfEven(Scaled(n, -e), d), e)
  }

  /** n * 2^k */
  function Scaled(n: nat, k: nat): (r: nat)
    ensures n <= r
  {
    MulMonotone(1, Pow2(k), n);
    n * Pow2(k)
  }

  /** The least integer that is not below n / d. */
  function CeilDiv(n: nat, d: nat): nat
    requires d > 0
  {
    if n % d == 0 then n / d else n / d + 1
  }

  function CeilFloat(x: Float): nat {
    if x.exponent >= 0 then x.mantissa * Pow2(x.exponent) else CeilDiv(x.mantissa, Pow2(-x.exponent))
  }

  /** |a - b| */
  function Distance(a: int, b: int): nat {
    if a < b then b - a else a - b
  }

  lemma DivMod(n: nat, d: nat) returns (q: nat, r: nat)
    requires d > 0
    ensures q == n / d && r == n % d && n == q * d + r && r < d
  {
    q, r := n / d, n % d;
  }

  lemma QuotientIs(n: nat, d: nat, q: nat, r: nat)
    requires d > 0 && n == q * d + r && r < d
    ensures n / d == q && n % d == r
  {
    var q', r' := DivMod(n, d);
    assert (q + 1) * d == q * d + d && (q' + 1) * d == q' * d + d;
    if q < q' {
      MulMonotone(q + 1, q', d);
    } else if q' < q {
      MulMonotone(q' + 1, q, d);
    }
  }

  /** The rounding rule itself: no multiple of the divisor is nearer, and a tie goes
      to the even one. */
  lemma RoundHalfEvenIsNearest(n: nat, d: nat, other: nat)
    requires d > 0
    ensures Distance(RoundHalfEven(n, d) * d, n) <= Distance(other * d, n)
    ensures other != RoundHalfEven(n, d) && Distance(RoundHalfEven(n, d) * d, n) == Distance(other * d, n)
            ==> RoundHalfEven(n, d) % 2 == 0
  {
    var q, r := DivMod(n, d);
    assert (q + 1) * d == q * d + d;
    if other < q {
      MulMonotone(other + 1, q, d);
      assert (other + 1) * d == other * d + d;
    } else if other > q + 1 {
      MulMonotone(q + 2, other, d);
      assert (q + 2) * d == q * d + d + d;
    }
  }

  lemma RoundHalfEvenBetween(n: nat, d: nat, lo: nat, hi: nat)
    requires d > 0 && lo * d <= n <= hi * d
    ensures lo <= RoundHalfEven(n, d) <= hi
    ensures RoundHalfEven(n, d) == lo ==> 2 * (n - lo * d) <= d
  {
    var q, r := DivMod(n, d);
    assert (q + 1) * d == q * d + d && (hi + 1) * d == hi * d + d;
    if q < lo {
      MulMonotone(q + 1, lo, d);
      assert false;
    }
    if q > hi {
      MulMonotone(hi + 1, q, d);
      assert false;
    }
  }

  lemma CeilDivIs(n: nat, d: nat, c: nat)
    requires d > 0 && n <= c * d && c * d < n + d
    ensures CeilDiv(n, d) == c
  {
    if n == c * d {
      QuotientIs(n, d, c, 0);
    } else {
      assert c > 0;
      assert c * d == (c - 1) * d + d;
      QuotientIs(n, d, c - 1, n - (c - 1) * d);
    }
  }

  lemma Pow2Adds(a: nat, b: nat)
    ensures Pow2(a + b) == Pow2(a) * Pow2(b)
  {
    if a == 0 {
    } else {
      Pow2Adds(a - 1, b);
      MulAssociates(2, Pow2(a - 1), Pow2(b));
    }
  }

  lemma Pow2Monotone(a: nat, b: nat)
    requires a <= b
    ensures Pow2(a) <= Pow2(b)
  {
    if a < b { Pow2Monotone(a, b - 1); }
  }

  // ------------------------------------------------------------------------------
  // When the ceiling of the rounded quotient is that of the exact one
  // ------------------------------------------------------------------------------

  /** Everything here is known before the division: with the quotient's unit 2^e, and r / d
      what it exceeds an integer by, the ceiling survives if r / d is nothing, or more than
      half a unit; an odd integer is also left on a tie.  From unit 2 on, the ceiling must
      be a multiple of the unit. */
  predicate CeilingSurvives(f: Format, n: nat, d: nat)
    requires d > 0
  {
    var e, r := Exponent(f, n, d, f.minExponent), n % d;
    if e > 0 then CeilDiv(n, d) % Pow2(e) == 0
    else r == 0 || 2 * Scaled(r, -e) > d || (e == 0 && 2 * r == d && (n / d) % 2 == 1)
  }

  /** What is computed when it does not survive. */
  function Misrounded(f: Format, n: nat, d: nat): nat
    requires d > 0
  {
    var e := Exponent(f, n, d, f.minExponent);
    if e > 0 then Scaled(RoundHalfEven(n, Scaled(d, e)), e) else n / d
  }

  /** For all numerators and divisors: the exact ceiling if and only if it survives. */
  lemma RoundedCeiling(f: Format, n: nat, d: nat)
    requires d > 0
    ensures CeilFloat(RoundQuotient(f, n, d)) == if CeilingSurvives(f, n, d) then CeilDiv(n, d) else Misrounded(f, n, d)
    ensures !CeilingSurvives(f, n, d) ==> Misrounded(f, n, d) != CeilDiv(n, d)
  {
    hide Exponent, Pow2, RoundHalfEven;
    var e := Exponent(f, n, d, f.minExponent);
    if e > 0 {
      CoarseCeiling(n, d, e);
    } else if e == 0 {
      UnitCeiling(n, d);
    } else {
      FineCeiling(n, d, -e);
    }
  }

  /** In units of one, rounding is up, down, or to the even neighbour. */
  lemma UnitCeiling(n: nat, d: nat)
    requires d > 0
    ensures Scaled(d, 0) == d && Pow2(0) == 1 && Scaled(n % d, 0) == n % d
    ensures var r := n % d;
            RoundHalfEven(n, d) ==
            if r == 0 || 2 * r > d || (2 * r == d && (n / d) % 2 == 1) then CeilDiv(n, d) else n / d
  {
  }

  /** In units of 2^-j the fraction of the quotient is rounded away, if it is at most half a
      unit: the integer below is an even number of units. */
  lemma FineCeiling(n: nat, d: nat, j: nat)
    requires d > 0 && j > 0
    ensures CeilDiv(RoundHalfEven(Scaled(n, j), d), Pow2(j)) ==
            if n % d == 0 || 2 * Scaled(n % d, j) > d then CeilDiv(n, d) else n / d
  {
    hide RoundHalfEven, CeilDiv, Pow2;
    var k, r := DivMod(n, d);
    var u := Pow2(j);
    EvenUnit(j);
    ScaledBetween(n, d, k, r, u);
    RoundedFraction(n * u, d, k, r, u);
    RoundHalfEvenBetween(n * u, d, k * u, (if r == 0 then k else k + 1) * u);
    CeilOfRounded(k, r, d, u, RoundHalfEven(n * u, d));
    CeilIs(n, d);
  }

  lemma CeilIs(n: nat, d: nat)
    requires d > 0
    ensures CeilDiv(n, d) == if n % d == 0 then n / d else n / d + 1
  {
  }

  lemma EvenUnit(j: nat)
    requires j > 0
    ensures Pow2(j) == 2 * Pow2(j - 1)
  {
  }

  /** A fraction of at most half a unit is rounded away. */
  lemma RoundedFraction(num: nat, d: nat, k: nat, r: nat, u: nat)
    requires d > 0 && u % 2 == 0 && num == (k * u) * d + r * u
    ensures 2 * (r * u) <= d ==> RoundHalfEven(num, d) == k * u
  {
    if 2 * (r * u) <= d {
      QuotientIs(num, d, k * u, r * u);
      MulAssociates(k, 2, u / 2);
      assert k * u == 2 * (k * (u / 2));
    }
  }

  /** In units of 2^e, two or more, the quotient lies less than half a unit below its own
      ceiling if that is a whole number of units, and else it cannot be rounded to it. */
  lemma CoarseCeiling(n: nat, d: nat, e: nat)
    requires d > 0 && e > 0
    ensures Scaled(d, e) > 0
    ensures Scaled(RoundHalfEven(n, Scaled(d, e)), e) == CeilDiv(n, d) <==> CeilDiv(n, d) % Pow2(e) == 0
  {
    hide RoundHalfEven, CeilDiv, Pow2;
    EvenUnit(e);
    CoarseUnits(n, d, Pow2(e), Scaled(d, e));
  }

  lemma CoarseUnits(n: nat, d: nat, u: nat, den: nat)
    requires d > 0 && u >= 2 && den == d * u && den > 0
    ensures RoundHalfEven(n, den) * u == CeilDiv(n, d) <==> CeilDiv(n, d) % u == 0
  {
    hide RoundHalfEven, CeilDiv;
    var c, q := CeilDiv(n, d), RoundHalfEven(n, den);
    if c % u == 0 {
      var m, zero := DivMod(c, u);
      NearCeiling(n, d, u, m);
    }
    if q * u == c {
      QuotientIs(c, u, q, 0);
    }
  }

  lemma NearCeiling(n: nat, d: nat, u: nat, m: nat)
    requires d > 0 && u >= 2 && CeilDiv(n, d) == m * u
    ensures d * u > 0 && RoundHalfEven(n, d * u) == m
  {
    var k, r := DivMod(n, d);
    MulMonotone(1, u, d);
    MulMonotone(2, u, d);
    MulAssociates(m, u, d);
    assert m * (d * u) == (m * u) * d;
    if r == 0 {
      QuotientIs(n, d * u, m, 0);
    } else {
      var gap := d - r;
      assert (k + 1) * d == k * d + d;
      assert m * (d * u) == n + gap;
      assert m > 0;
      assert m * (d * u) == (m - 1) * (d * u) + d * u;
      QuotientIs(n, d * u, m - 1, d * u - gap);
    }
  }

  /** Below 2^precision it survives, except that a quotient too small for the format may
      round to zero. */
  lemma RoundingKeepsCeiling(f: Format, n: nat, d: nat)
    requires f.Valid() && d > 0 && n < Pow2(f.precision)
    ensures CeilingSurvives(f, n, d) || (Misrounded(f, n, d) == 0 && CeilDiv(n, d) == 1)
    ensures CeilFloat(RoundQuotient(f, n, d)) == CeilDiv(n, d)
         || (CeilFloat(RoundQuotient(f, n, d)) == 0 && CeilDiv(n, d) == 1)
  {
    hide RoundQuotient, CeilFloat;
    RoundedCeiling(f, n, d);
    var e := Exponent(f, n, d, f.minExponent);
    if e > 0 {
      Pow2Monotone(f.precision, f.precision + e - 1);
      MulMonotone(1, d, Pow2(f.precision + e - 1));
      assert false;
    } else if e == 0 {
      WholeQuotient(f, n, d);
    } else if e == f.minExponent {
      SubnormalQuotientIsBelowOne(f, n, d);
      QuotientIs(n, d, 0, n);
    } else {
      NormalQuotientFillsMantissa(f, n, d, e);
      ProductGap(d, n, Pow2(-e), Pow2(f.precision - 1));
      if n % d > 0 { MulMonotone(1, n % d, Pow2(-e)); }
    }
  }

  lemma WholeQuotient(f: Format, n: nat, d: nat)
    requires f.Valid() && d > 0 && n < Pow2(f.precision) && Exponent(f, n, d, f.minExponent) == 0
    ensures n % d == 0
  {
    assert n >= d * Pow2(f.precision - 1);
    if d >= 2 {
      MulMonotone(2, d, Pow2(f.precision - 1));
      assert false;
    }
  }

  lemma ProductGap(d: nat, n: nat, scale: nat, half: nat)
    requires d * half <= n * scale && n < 2 * half && scale > 0
    ensures d < 2 * scale
  {
    assert scale * (n + 1) == n * scale + scale;
    if d >= 2 * scale {
      MulMonotone(2 * scale, d, half);
      assert (2 * scale) * half == scale * (2 * half);
      MulMonotone(n + 1, 2 * half, scale);
      assert false;
    }
  }

  lemma MulAssociates(a: nat, b: nat, c: nat)
    ensures (a * b) * c == a * (b * c)
  {
  }

  /** With a normal exponent the quotient fills the mantissa. */
  lemma NormalQuotientFillsMantissa(f: Format, n: nat, d: nat, e: int)
    requires f.Valid() && d > 0 && e < 0 && !QuotientBelow(n, d, f.precision + e - 1)
    ensures d * Pow2(f.precision - 1) <= n * Pow2(-e)
  {
    var k := f.precision - 1 + e;
    if k >= 0 {
      Pow2Adds(k, -e);
      MulMonotone(Scaled(d, k), n, Pow2(-e));
      MulAssociates(d, Pow2(k), Pow2(-e));
    } else {
      Pow2Adds(-k, f.precision - 1);
      MulMonotone(d, Scaled(n, -k), Pow2(f.precision - 1));
      MulAssociates(n, Pow2(-k), Pow2(f.precision - 1));
    }
  }

  lemma SubnormalQuotientIsBelowOne(f: Format, n: nat, d: nat)
    requires f.Valid() && d > 0 && Exponent(f, n, d, f.minExponent) == f.minExponent
    ensures n < d
  {
    MulMonotone(1, Pow2(-(f.precision + f.minExponent)), n);
  }

  lemma CeilOfRounded(k: nat, r: nat, d: nat, scale: nat, m: nat)
    requires scale > 0 && k * scale <= m <= (if r == 0 then k else k + 1) * scale
    requires m == k * scale ==> 2 * (r * scale) <= d
    ensures CeilDiv(m, scale) == if r == 0 then k else if m == k * scale then k else k + 1
    ensures r > 0 && m == k * scale ==> d >= 2 * scale
  {
    assert (k + 1) * scale == k * scale + scale;
    if m == k * scale {
      CeilDivIs(m, scale, k);
      if r > 0 { MulMonotone(1, r, scale); }
    } else {
      CeilDivIs(m, scale, k + 1);
    }
  }

  lemma ScaledBetween(n: nat, d: nat, k: nat, r: nat, scale: nat)
    requires d > 0 && n == k * d + r && r < d
    ensures n * scale == (k * scale) * d + r * scale
    ensures n * scale <= ((k + 1) * scale) * d
  {
    assert n * scale == (k * d) * scale + r * scale;
    assert (k * d) * scale == (k * scale) * d;
    MulMonotone(r, d, scale);
    assert ((k + 1) * scale) * d == (k * scale) * d + scale * d;
  }

  /** The rule the constructor documents, in exact arithmetic. */
  function DesiredExactly(cfg: Config, reading: Reading): nat
    requires cfg.Valid()
  {
    Min(cfg.maxPools, Max(cfg.minPools, CeilDiv(UnitCount(reading), cfg.unitsPerPool)))
  }

  /** The limits hide the difference of two numbers. */
  predicate LimitsHide(cfg: Config, a: nat, b: nat) {
    || cfg.minPools == cfg.maxPools
    || (a <= cfg.minPools && b <= cfg.minPools)
    || (a >= cfg.maxPools && b >= cfg.maxPools)
  }

  /** For every configuration and reading: the decision is the exact one if and only if the
      ceiling survives the rounding, or the limits hide that it does not. */
  lemma SizingIsExact(cfg: Config, reading: Reading)
    requires cfg.Valid()
    ensures var n, d := UnitCount(reading), cfg.unitsPerPool;
            cfg.Desired(reading) == DesiredExactly(cfg, reading) <==>
            CeilingSurvives(BINARY64, n, d) || LimitsHide(cfg, Misrounded(BINARY64, n, d), CeilDiv(n, d))
  {
    hide CeilingSurvives, Misrounded, CeilDiv, CeilFloat, RoundQuotient, Exponent, Pow2;
    RoundedCeiling(BINARY64, UnitCount(reading), cfg.unitsPerPool);
  }

  /** In units of two and more, both numbers are at least 2^precision. */
  lemma CoarseIsLarge(f: Format, n: nat, d: nat)
    requires f.Valid() && d > 0 && Exponent(f, n, d, f.minExponent) > 0
    ensures Pow2(f.precision) <= CeilDiv(n, d) && Pow2(f.precision) <= Misrounded(f, n, d)
  {
    hide RoundHalfEven;
    var e, top, half := Exponent(f, n, d, f.minExponent), Pow2(f.precision), Pow2(f.precision - 1);
    CoarseQuotient(n, d, f.precision - 1, e);
    LargeQuotient(n, d, top);
    var q := RoundHalfEven(n, Scaled(d, e));
    MulMonotone(1, Scaled(d, e), n);
    RoundHalfEvenBetween(n, Scaled(d, e), half, n);
    MulMonotone(half, q, Pow2(e));
    Pow2Monotone(1, e);
    MulMonotone(2, Pow2(e), half);
  }

  lemma CoarseQuotient(n: nat, d: nat, p: nat, e: nat)
    requires d > 0 && e > 0 && n >= Scaled(d, p + e)
    ensures Scaled(d, e) > 0 && Pow2(p) * Scaled(d, e) <= n
    ensures Pow2(p + 1) * d <= n
  {
    hide Pow2;
    Pow2Adds(p, e);
    Regroup(d, Pow2(p), Pow2(e));
    Pow2Monotone(p + 1, p + e);
    MulMonotone(Pow2(p + 1), Pow2(p + e), d);
  }

  lemma Regroup(a: nat, b: nat, c: nat)
    ensures a * (b * c) == b * (a * c)
  {
  }

  lemma LargeQuotient(n: nat, d: nat, top: nat)
    requires d > 0 && top * d <= n
    ensures top <= n / d && top <= CeilDiv(n, d)
  {
    var q, r := DivMod(n, d);
    assert (q + 1) * d == q * d + d;
    if q < top {
      MulMonotone(q + 1, top, d);
      assert false;
    }
  }

  /** So with a limit of up to 2^53 pools, which is any in practice, the coarse units do no
      harm: the decision is exact if and only if the unit is two or more, or the ceiling
      survives, or it lies outside the limits on either side. */
  lemma SizingIsExactInReach(cfg: Config, reading: Reading)
    requires cfg.Valid() && cfg.maxPools <= Pow2(BINARY64.precision)
    ensures var n, d := UnitCount(reading), cfg.unitsPerPool;
            cfg.Desired(reading) == DesiredExactly(cfg, reading) <==>
            || Exponent(BINARY64, n, d, BINARY64.minExponent) > 0
            || CeilingSurvives(BINARY64, n, d)
            || cfg.minPools == cfg.maxPools || n / d + 1 <= cfg.minPools || n / d >= cfg.maxPools
  {
    hide CeilFloat, RoundQuotient, Exponent, Pow2, Config.Desired, DesiredExactly;
    var n, d := UnitCount(reading), cfg.unitsPerPool;
    SizingIsExact(cfg, reading);
    if Exponent(BINARY64, n, d, BINARY64.minExponent) > 0 {
      CoarseIsLarge(BINARY64, n, d);
    }
  }

  /** In particular while the unit count is below 2^53. */
  lemma RoundingIsHarmless(cfg: Config, reading: Reading)
    requires cfg.Valid() && UnitCount(reading) < Pow2(BINARY64.precision)
    ensures cfg.Desired(reading) == DesiredExactly(cfg, reading)
  {
    hide CeilingSurvives, Misrounded, CeilDiv, CeilFloat, RoundQuotient, Exponent, Pow2;
    RoundingKeepsCeiling(BINARY64, UnitCount(reading), cfg.unitsPerPool);
    SizingIsExact(cfg, reading);
  }

  lemma SmallPowers()
    ensures Pow2(6) == 64 && Pow2(7) == 128
  {
    assert Pow2(3) == 8;
  }

  lemma TwoToThe53()
    ensures Pow2(53) == 9007199254740992
  {
    hide Pow2;
    SmallPowers();
    Pow2Adds(6, 7);
    Pow2Adds(7, 7);
    Pow2Adds(13, 13);
    Pow2Adds(13, 14);
    Pow2Adds(26, 27);
  }

  /** The ceiling is the least number of d that n fits into. */
  lemma CeilDivIsLeast(n: nat, d: nat)
    requires d > 0
    ensures n <= CeilDiv(n, d) * d
    ensures n > 0 ==> CeilDiv(n, d) > 0 && (CeilDiv(n, d) - 1) * d < n
    ensures n == 0 ==> CeilDiv(n, d) == 0
  {
    var q, r := DivMod(n, d);
    assert (q + 1) * d == q * d + d;
    if r == 0 && n > 0 { assert (q - 1) * d == q * d - d; }
    if n == 0 { QuotientIs(0, d, 0, 0); }
  }

  /** Nothing to ask, an answer that fails, and an answer of nothing or less all leave the
      least number of pools. */
  lemma NoUnitsNeedTheLeast(cfg: Config, count: int)
    requires cfg.Valid() && count <= 0
    ensures cfg.Desired(NoProvider) == cfg.minPools && cfg.Desired(Raised) == cfg.minPools
    ensures cfg.Desired(Units(count)) == cfg.minPools
  {
    hide CeilDiv, Config.Desired, Pow2;
    CeilDivIsLeast(0, cfg.unitsPerPool);
    TwoToThe53();
    RoundingIsHarmless(cfg, NoProvider);
    RoundingIsHarmless(cfg, Raised);
    RoundingIsHarmless(cfg, Units(count));
  }

  /** For every count of units below 2^53 the decision is the least number of pools within
      the limits that has room for all of them, or the most if none has. */
  lemma UnitsFit(cfg: Config, count: nat)
    requires cfg.Valid() && count < 9007199254740992
    ensures var d := cfg.Desired(Units(count));
            && d == Min(cfg.maxPools, Max(cfg.minPools, CeilDiv(count, cfg.unitsPerPool)))
            && cfg.minPools <= d <= cfg.maxPools
            && (d == cfg.maxPools || count <= d * cfg.unitsPerPool)
            && (d == cfg.minPools || (d - 1) * cfg.unitsPerPool < count)
  {
    hide CeilDiv, Config.Desired, Pow2;
    TwoToThe53();
    RoundingIsHarmless(cfg, Units(count));
    CeilDivIsLeast(count, cfg.unitsPerPool);
    var d, c := cfg.Desired(Units(count)), CeilDiv(count, cfg.unitsPerPool);
    if d >= c { MulMonotone(c, d, cfg.unitsPerPool); }
    if d > cfg.minPools { MulMonotone(d - 1, c - 1, cfg.unitsPerPool); }
  }

  /** The least quotient that is not rounded to nothing lies above half of 2^-1074. */
  lemma LeastQuotient()
    ensures CeilFloat(RoundQuotient(BINARY64, 1, Pow2(1074))) == 1
    ensures CeilFloat(RoundQuotient(BINARY64, 1, Pow2(1075))) == 0
  {
    hide Pow2, Exponent, RoundQuotient, CeilFloat, RoundHalfEven;
    EvenUnit(1075);
    TinyQuotient(Pow2(1074));
    TinyQuotient(Pow2(1075));
    RoundedCeiling(BINARY64, 1, Pow2(1074));
    RoundedCeiling(BINARY64, 1, Pow2(1075));
    assert Pow2(1074) > 1;
  }

  lemma TinyQuotient(d: nat)
    requires d >= Pow2(1074)
    ensures d > 1 && Exponent(BINARY64, 1, d, -1074) == -1074 && 1 / d == 0 && 1 % d == 1
  {
    hide Pow2;
    Pow2Monotone(1022, 1074);
    EvenUnit(1022);
    assert Scaled(1, 1021) == Pow2(1021);
    ExponentIsLeast(BINARY64, 1, d, -1074, -1074);
    QuotientIs(1, d, 0, 1);
  }

  /** The bound is sharp in the smallest pool that can grow: with 2^53 units a pool, one unit
      more needs a second pool, and one is all that is asked for. */
  lemma OnePoolTooFew(cfg: Config)
    requires cfg.Valid() && cfg.minPools == 1 && cfg.maxPools >= 2 && cfg.unitsPerPool == Pow2(BINARY64.precision)
    ensures cfg.Desired(Units(Pow2(BINARY64.precision) + 1)) == 1
    ensures DesiredExactly(cfg, Units(Pow2(BINARY64.precision) + 1)) == 2
  {
    hide RoundQuotient, CeilFloat, Exponent, CeilingSurvives, Misrounded, Pow2;
    var d := Pow2(BINARY64.precision);
    QuotientIs(d + 1, d, 1, 1);
    JustAboveOne(BINARY64);
    RoundedCeiling(BINARY64, d + 1, d);
  }

  /** The quotient just above one has the unit of the numbers from one to two, of which it
      exceeds one by half. */
  lemma JustAboveOne(f: Format)
    requires f.precision >= 2 && f.minExponent <= 1 - f.precision
    ensures Exponent(f, Pow2(f.precision) + 1, Pow2(f.precision), f.minExponent) == 1 - f.precision
    ensures (Pow2(f.precision) + 1) % Pow2(f.precision) == 1
    ensures !CeilingSurvives(f, Pow2(f.precision) + 1, Pow2(f.precision))
    ensures Misrounded(f, Pow2(f.precision) + 1, Pow2(f.precision)) == 1
  {
    var d := Pow2(f.precision);
    QuotientIs(d + 1, d, 1, 1);
    assert Scaled(d, 1) == 2 * d by { assert Pow2(1) == 2; }
    ExponentIsLeast(f, d + 1, d, f.minExponent, 1 - f.precision);
    var e := Exponent(f, d + 1, d, f.minExponent);
    assert f.precision + e > 0;
    assert Scaled(1, f.precision - 1) == Pow2(f.precision - 1);
  }

  /** At one unit a pool the loss is at 2^precision + 1 units. */
  lemma RoundingBoundIsSharp(f: Format)
    requires f.Valid()
    ensures CeilFloat(RoundQuotient(f, Pow2(f.precision) + 1, 1)) == Pow2(f.precision)
    ensures CeilDiv(Pow2(f.precision) + 1, 1) == Pow2(f.precision) + 1
  {
    var n, half := Pow2(f.precision) + 1, Pow2(f.precision - 1);
    FirstRoundedExponent(f);
    QuotientIs(n, 1, n, 0);
    assert RoundHalfEven(n, Scaled(1, 1)) == half by {
      assert Scaled(1, 1) == Pow2(1) == 2;
      QuotientIs(n, 2, half, 1);
      QuotientIs(half, 2, Pow2(f.precision - 2), 0);
    }
    assert Pow2(1) == 2;
  }

  /** In the manager's terms; here the limit must be as high to show it. */
  lemma OneUnitTooMany(cfg: Config)
    requires cfg.Valid() && cfg.unitsPerPool == 1
    requires cfg.minPools <= Pow2(BINARY64.precision) < cfg.maxPools
    ensures cfg.Desired(Units(Pow2(BINARY64.precision) + 1)) == Pow2(BINARY64.precision)
    ensures DesiredExactly(cfg, Units(Pow2(BINARY64.precision) + 1)) == Pow2(BINARY64.precision) + 1
  {
    hide Pow2, Exponent;
    RoundingBoundIsSharp(BINARY64);
  }

  lemma FirstRoundedExponent(f: Format)
    requires f.Valid()
    ensures Exponent(f, Pow2(f.precision) + 1, 1, f.minExponent) == 1
  {
    var n := Pow2(f.precision) + 1;
    ExponentIsLeast(f, n, 1, f.minExponent, 1);
    var k := f.precision + Exponent(f, n, 1, f.minExponent);
    if 0 <= k <= f.precision {
      Pow2Monotone(k, f.precision);
    }
  }

  lemma ExponentIsLeast(f: Format, n: nat, d: nat, e: int, k: int)
    requires d > 0 && e <= k && QuotientBelow(n, d, f.precision + k)
    ensures Exponent(f, n, d, e) <= k
    decreases k - e
  {
    if e < k && !QuotientBelow(n, d, f.precision + e) {
      ExponentIsLeast(f, n, d, e + 1, k);
    }
  }

  // ------------------------------------------------------------------------------
  // The rounding is correct: no value of the format is nearer to the quotient
  // ------------------------------------------------------------------------------

  ghost predicate Representable(f: Format, x: Float) {
    x.mantissa <= Pow2(f.precision) && x.exponent >= f.minExponent
  }

  /** How far x is from n / d, in units of d and of the format's least value. */
  function Gap(f: Format, x: Float, n: nat, d: nat): nat
    requires f.minExponent <= 0 && x.exponent >= f.minExponent
  {
    Distance(x.mantissa * Pow2(x.exponent - f.minExponent) * d, n * Pow2(-f.minExponent))
  }

  lemma DistanceScales(a: nat, b: nat, c: nat, u: nat)
    requires Distance(a, c) <= Distance(b, c)
    ensures Distance(a * u, c * u) <= Distance(b * u, c * u)
  {
    DistanceTimes(a, c, u);
    DistanceTimes(b, c, u);
    MulMonotone(Distance(a, c), Distance(b, c), u);
  }

  lemma DistanceTimes(a: nat, b: nat, c: nat)
    ensures Distance(a * c, b * c) == Distance(a, b) * c
  {
    if a < b {
      assert (b - a) * c == b * c - a * c;
    } else {
      assert (a - b) * c == a * c - b * c;
    }
  }

  /** Among multiples of the quotient's own unit, the rounded mantissa is nearest. */
  lemma NearestMultiple(f: Format, n: nat, d: nat, m: nat)
    requires f.Valid() && d > 0
    ensures var x := RoundQuotient(f, n, d);
            x.exponent >= f.minExponent && Gap(f, x, n, d) <= Gap(f, Float(m, x.exponent), n, d)
  {
    hide Pow2, RoundHalfEven, Distance;
    var x := RoundQuotient(f, n, d);
    if x.exponent >= 0 {
      NearestAbove(n, d, m, x.exponent, -f.minExponent, Scaled(d, x.exponent));
    } else {
      NearestBelow(n, d, m, -x.exponent, x.exponent - f.minExponent);
    }
  }

  lemma NearestAbove(n: nat, d: nat, m: nat, e: nat, k: nat, den: nat)
    requires den > 0 && den == Scaled(d, e)
    ensures Distance(RoundHalfEven(n, den) * Pow2(e + k) * d, n * Pow2(k)) <=
            Distance(m * Pow2(e + k) * d, n * Pow2(k))
  {
    hide Pow2, RoundHalfEven, Distance, Scaled;
    var q := RoundHalfEven(n, den);
    RoundHalfEvenIsNearest(n, den, m);
    GapAbove(q, n, d, e, k);
    GapAbove(m, n, d, e, k);
    DistanceScales(q * den, m * den, n, Pow2(k));
  }

  lemma NearestBelow(n: nat, d: nat, m: nat, j: nat, u: nat)
    requires d > 0
    ensures Distance(RoundHalfEven(Scaled(n, j), d) * Pow2(u) * d, n * Pow2(j + u)) <=
            Distance(m * Pow2(u) * d, n * Pow2(j + u))
  {
    hide Pow2, RoundHalfEven, Distance, Scaled;
    var num := Scaled(n, j);
    var q := RoundHalfEven(num, d);
    RoundHalfEvenIsNearest(num, d, m);
    GapBelow(q, n, d, j, u);
    GapBelow(m, n, d, j, u);
    DistanceScales(q * d, m * d, num, Pow2(u));
  }

  lemma GapAbove(m: nat, n: nat, d: nat, e: nat, k: nat)
    ensures m * Pow2(e + k) * d == (m * Scaled(d, e)) * Pow2(k)
  {
    Pow2Adds(e, k);
    var a, b := Pow2(e), Pow2(k);
    assert m * (a * b) * d == (m * (d * a)) * b by {
      MulAssociates(m, a * b, d);
      MulAssociates(a, b, d);
      MulAssociates(m, d * a, b);
      MulAssociates(d, a, b);
    }
  }

  lemma GapBelow(m: nat, n: nat, d: nat, j: nat, u: nat)
    ensures m * Pow2(u) * d == (m * d) * Pow2(u) && n * Pow2(j + u) == Scaled(n, j) * Pow2(u)
  {
    Pow2Adds(j, u);
    MulAssociates(n, Pow2(j), Pow2(u));
    MulAssociates(m, Pow2(u), d);
    MulAssociates(m, d, Pow2(u));
  }

  /** Below the unit of the quotient, every value of the format is below the quotient, and
      no nearer than the least mantissa with that unit. */
  lemma FinerIsBelow(f: Format, n: nat, d: nat, y: Float)
    requires f.Valid() && d > 0 && Representable(f, y) && y.exponent < RoundQuotient(f, n, d).exponent
    ensures var e := RoundQuotient(f, n, d).exponent;
            e > f.minExponent && Gap(f, Float(Pow2(f.precision - 1), e), n, d) <= Gap(f, y, n, d)
  {
    var e, k := RoundQuotient(f, n, d).exponent, -f.minExponent;
    var half := Pow2(f.precision - 1);
    var low, mid := y.mantissa * Pow2(y.exponent + k), half * Pow2(e + k);
    FinerProduct(y.mantissa, f.precision, y.exponent + k, e + k);
    MulMonotone(low, mid, d);
    QuotientReaches(f, n, d, e);
  }

  lemma FinerProduct(m: nat, precision: nat, fine: nat, unit: nat)
    requires precision > 0 && m <= Pow2(precision) && fine < unit
    ensures m * Pow2(fine) <= Pow2(precision - 1) * Pow2(unit)
  {
    Pow2Adds(precision, fine);
    Pow2Adds(precision - 1, unit);
    MulMonotone(m, Pow2(precision), Pow2(fine));
    Pow2Monotone(precision + fine, precision - 1 + unit);
  }

  lemma QuotientReaches(f: Format, n: nat, d: nat, e: int)
    requires f.Valid() && d > 0 && e > f.minExponent && !QuotientBelow(n, d, f.precision + e - 1)
    ensures Pow2(f.precision - 1) * Pow2(e - f.minExponent) * d <= n * Pow2(-f.minExponent)
  {
    var k, j := -f.minExponent, f.precision + e - 1;
    Pow2Adds(f.precision - 1, e + k);
    assert Pow2(f.precision - 1) * Pow2(e + k) == Pow2(j + k);
    if j >= 0 {
      Pow2Adds(j, k);
      MulMonotone(Scaled(d, j), n, Pow2(k));
      MulAssociates(d, Pow2(j), Pow2(k));
    } else {
      Pow2Adds(-j, j + k);
      MulMonotone(d, Scaled(n, -j), Pow2(j + k));
      MulAssociates(n, Pow2(-j), Pow2(j + k));
    }
  }

  /** So the quotient is correctly rounded: it is in the format, and no value of the format
      is nearer to the exact one. */
  lemma QuotientIsNearest(f: Format, n: nat, d: nat, y: Float)
    requires f.Valid() && d > 0 && Representable(f, y)
    ensures Representable(f, RoundQuotient(f, n, d))
    ensures Gap(f, RoundQuotient(f, n, d), n, d) <= Gap(f, y, n, d)
  {
    var x := RoundQuotient(f, n, d);
    var e, k := x.exponent, -f.minExponent;
    MantissaFits(f, n, d);
    if y.exponent < e {
      FinerIsBelow(f, n, d, y);
      NearestMultiple(f, n, d, Pow2(f.precision - 1));
    } else {
      var m := y.mantissa * Pow2(y.exponent - e);
      NearestMultiple(f, n, d, m);
      Pow2Adds(y.exponent - e, e + k);
      MulAssociates(y.mantissa, Pow2(y.exponent - e), Pow2(e + k));
    }
  }

  lemma MantissaFits(f: Format, n: nat, d: nat)
    requires f.Valid() && d > 0
    ensures RoundQuotient(f, n, d).mantissa <= Pow2(f.precision)
  {
    var e := RoundQuotient(f, n, d).exponent;
    var top := Pow2(f.precision);
    if e >= 0 {
      MulMonotone(1, Pow2(e), d);
      Pow2Adds(f.precision, e);
      MulAssociates(d, top, Pow2(e));
      MulAssociates(top, d, Pow2(e));
      RoundHalfEvenBetween(n, Scaled(d, e), 0, top);
    } else if f.precision + e >= 0 {
      Pow2Adds(f.precision + e, -e);
      MulMonotone(n, Scaled(d, f.precision + e), Pow2(-e));
      MulAssociates(d, Pow2(f.precision + e), Pow2(-e));
      RoundHalfEvenBetween(Scaled(n, -e), d, 0, top);
    } else {
      Pow2Adds(-(f.precision + e), f.precision);
      MulMonotone(Scaled(n, -(f.precision + e)), d, top);
      MulAssociates(n, Pow2(-(f.precision + e)), top);
      RoundHalfEvenBetween(Scaled(n, -e), d, 0, top);
    }
  }
}

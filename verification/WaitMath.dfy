/** Floating-point helpers of src/wait/math.rs. An f64 is a double or one of the
    three special values. */
module WaitMath {
  import opened Durations
  import opened Floats
  import opened Powers

  datatype F64 = Fin(v: real) | PosInf | NegInf | NaN

  /** The largest finite f64 has a mantissa of 53 ones shifted left by 971. */
  const F64_MANTISSA: real := 0x1F_FFFF_FFFF_FFFF as real
  const F64_SHIFT: nat := 971
  const F64_MAX: real := F64_MANTISSA * Pow(2.0, F64_SHIFT)

  /** A rounded non-negative result overflows beyond F64_MAX. */
  function Overflow(x: real): F64 {
    if x > F64_MAX then PosInf else Fin(x)
  }

  function Negated(a: F64): F64 {
    match a case Fin(v) => Fin(-v) case PosInf => NegInf case NegInf => PosInf case NaN => NaN
  }

  function Rounded(x: real): F64 {
    if x < 0.0 then Negated(Overflow(Nearest(-x))) else Overflow(Nearest(x))
  }

  predicate IsF64(a: F64) {
    a.Fin? ==> -F64_MAX <= a.v <= F64_MAX && IsDouble(if a.v < 0.0 then -a.v else a.v)
  }

  function Sign(a: F64): int
    requires a != NaN
  {
    match a
    case Fin(v) => if v > 0.0 then 1 else if v < 0.0 then -1 else 0
    case PosInf => 1
    case NegInf => -1
  }

  function MulFinite(x: real, y: real): F64 {
    Rounded(x * y)
  }

  function Mul(a: F64, b: F64): F64 {
    if a == NaN || b == NaN then NaN
    else if a.Fin? && b.Fin? then MulFinite(a.v, b.v)
    else if Sign(a) * Sign(b) > 0 then PosInf
    else if Sign(a) * Sign(b) < 0 then NegInf
    else NaN
  }

  /** Comparison with a finite bound; NaN compares false. */
  predicate AtMost(a: F64, bound: real) {
    a == NegInf || (a.Fin? && a.v <= bound)
  }

  predicate AtLeast(a: F64, bound: real) {
    a == PosInf || (a.Fin? && a.v >= bound)
  }

  /** The `as u128` cast: truncates, and sends NaN and negatives to zero. */
  function AsNat(a: F64): nat
    requires a != PosInf
  {
    if a.Fin? && a.v >= 0.0 then a.v.Floor else 0
  }

  function ClampExponentialBase(base: F64): F64 {
    if !base.Fin? then Fin(1.0) else if base.v < 1.0 then Fin(1.0) else base
  }

  /** A finite base from 1 on is kept; every other becomes 1. */
  lemma BaseIsClamped(base: F64)
    requires IsF64(base)
    ensures ClampExponentialBase(base).Fin? && Grown(ClampExponentialBase(base).v)
    ensures base.Fin? && base.v >= 1.0 ==> ClampExponentialBase(base) == base
    ensures !base.Fin? || base.v < 1.0 ==> ClampExponentialBase(base) == Fin(1.0)
  {
    OneIsGrown();
  }

  // ----- pow_nonnegative_f64 -----

  /** What the loop should compute: the rounded power as if no exponent were too
      large for an f64, then infinite exactly beyond the f64 range. */
  function PowSaturated(base: F64, exponent: U32): F64 {
    if exponent == 0 || AtMost(base, 1.0) then Fin(1.0)
    else if base.Fin? then Overflow(RoundedPower(base.v, exponent))
    else PosInf
  }

  /** Overflow commutes with multiplication: an operand beyond the range means
      that the product is beyond it too. */
  lemma MulOfOverflow(x: real, y: real)
    requires Grown(x) && Grown(y)
    ensures Mul(Overflow(x), Overflow(y)) == Overflow(Times(x, y))
  {
    TimesGrows(x, y);
    TimesCommute(x, y);
    TimesGrows(y, x);
    ProductMonotone(1.0, 1.0, x, y);
    if x <= F64_MAX && y <= F64_MAX {
      TimesIs(x, y, x * y);
      MulOfFinite(x, y, x * y);
    }
  }

  lemma TimesCommute(x: real, y: real)
    requires x >= 0.0 && y >= 0.0
    ensures Times(x, y) == Times(y, x)
  {
    assert x * y == y * x;
  }

  lemma MulOfFinite(x: real, y: real, product: real)
    requires product == x * y >= 0.0
    ensures Mul(Fin(x), Fin(y)) == Overflow(Nearest(product))
  {
    assert Rounded(product) == Overflow(Nearest(product));
  }

  ghost predicate Represents(a: F64, x: real) {
    Grown(x) && a == Overflow(x)
  }

  lemma ProductRepresents(a: F64, x: real, b: F64, y: real)
    requires Represents(a, x) && Represents(b, y)
    ensures Represents(Mul(a, b), Times(x, y))
  {
    MulOfOverflow(x, y);
    TimesStaysGrown(x, y);
  }

  /** The infinite factor of a loop whose base is infinite or NaN. */
  ghost predicate Hopeless(base: F64, result: F64, factor: F64) {
    !base.Fin? && result == Fin(1.0) && (factor == PosInf || factor == NaN)
  }

  /** What the loop still has to do, in unbounded range. */
  ghost predicate Ahead(base: F64, exponent: U32, result: F64, factor: F64, remaining: nat, done: real, square: real) {
    && base.Fin? && base.v >= 0.0 && Represents(result, done) && Represents(factor, square)
    && Power(done, square, remaining) == RoundedPower(base.v, exponent)
  }

  lemma NextBit(base: F64, exponent: U32, result: F64, factor: F64, remaining: nat, done: real, square: real)
    requires remaining > 0 && Ahead(base, exponent, result, factor, remaining, done, square)
    ensures base.v >= 0.0
    ensures var result' := if remaining % 2 == 1 then Mul(result, factor) else result;
            var done' := if remaining % 2 == 1 then Times(done, square) else done;
            && Ahead(base, exponent, result', Mul(factor, factor), remaining / 2, done', Times(square, square))
            && (result' == PosInf ==> Overflow(RoundedPower(base.v, exponent)) == PosInf)
  {
    ProductRepresents(result, done, factor, square);
    ProductRepresents(factor, square, factor, square);
    PowerGrows(if remaining % 2 == 1 then Times(done, square) else done, Times(square, square), remaining / 2);
  }

  /** `factor` may overflow while bits remain; the answer is then already PosInf. */
  method PowNonnegative(base: F64, exponent: U32) returns (result: F64)
    requires IsF64(base)
    ensures result == PowSaturated(base, exponent)
    ensures exponent == 0 || AtMost(base, 1.0) ==> result == Fin(1.0)
    ensures exponent > 0 && (base == PosInf || base == NaN) ==> result == PosInf
  {
    if exponent == 0 {
      return Fin(1.0);
    }
    if AtMost(base, 1.0) {
      return Fin(1.0);
    }
    F64MaxIsLarge();
    OneIsGrown();
    result := Fin(1.0);
    var factor := base;
    var remaining: nat := exponent;
    ghost var done: real, square: real := 1.0, if base.Fin? then base.v else 0.0;
    while true
      invariant remaining > 0 && result.Fin?
      invariant Hopeless(base, result, factor) || Ahead(base, exponent, result, factor, remaining, done, square)
      decreases remaining
    {
      if base.Fin? {
        NextBit(base, exponent, result, factor, remaining, done, square);
      }
      if remaining % 2 == 1 {
        result := Mul(result, factor);
        done := if base.Fin? then Times(done, square) else done;
        if !result.Fin? {
          return PosInf;
        }
      }
      remaining := remaining / 2;
      if remaining == 0 {
        return;
      }
      factor := Mul(factor, factor);
      square := if base.Fin? then Times(square, square) else square;
      if !factor.Fin? {
        factor := PosInf;
      }
    }
  }

  // ----- saturating_duration_mul_f64 -----

  /** The `as u64` and `as u32` casts keep the low bits only. */
  function AsU64(n: nat): U64 {
    n % (U64_MAX + 1)
  }

  function AsU32(n: nat): U32 {
    n % (U32_MAX + 1)
  }

  function FromParts(secs: U64, nanos: U32): Duration
    requires nanos < NANOS_PER_SEC
  {
    secs * NANOS_PER_SEC + nanos
  }

  function FromNanosF64(nanos: F64): Duration {
    if AtLeast(nanos, Nearest(MAX as real)) then MAX
    else
      ThresholdIsAboveMax();
      var total := AsNat(nanos);
      FromParts(AsU64(total / NANOS_PER_SEC), AsU32(total % NANOS_PER_SEC))
  }

  function SatMulF64(dur: Duration, mul: F64): Duration {
    if dur == 0 then 0 else FromNanosF64(Mul(Fin(Nearest(dur as real)), mul))
  }

  lemma F64MaxIsLarge()
    ensures F64_MAX > (2 * (MAX + 1)) as real && F64_MAX > TOP
  {
    PowAtLeast(F64_SHIFT);
    MulMonotone(F64_MANTISSA, TOP, Pow(2.0, F64_SHIFT));
  }

  lemma {:induction false} ShiftedIsProduct(x: real, j: nat)
    ensures Shifted(x, j) == x * Pow(2.0, j)
  {
    if j > 0 {
      ShiftedIsProduct(x, j - 1);
      TwiceProduct(x, Pow(2.0, j - 1), Shifted(x, j - 1));
    }
  }

  /** F64_MAX is the largest double below 2^1024: in its binade it is a double and no
      double lies above it. */
  lemma LargestF64(x: real)
    requires HALF_TOP <= x < TOP
    ensures IsDouble(F64_MAX)
    ensures Shifted(x, F64_SHIFT) > F64_MAX ==> !IsDouble(Shifted(x, F64_SHIFT))
  {
    ShiftedIsProduct(F64_MANTISSA, F64_SHIFT);
    LastInteger(x);
    DoublesOfBinade(F64_MANTISSA, F64_SHIFT);
    DoublesOfBinade(x, F64_SHIFT);
    ShiftedInOrder(F64_MANTISSA, x, F64_SHIFT);
  }

  lemma LastInteger(x: real)
    requires x < TOP
    ensures HALF_TOP <= F64_MANTISSA < TOP && F64_MANTISSA.Floor as real == F64_MANTISSA
    ensures x.Floor as real == x ==> x <= F64_MANTISSA
  {
    assert F64_MANTISSA.Floor == 0x1F_FFFF_FFFF_FFFF;
    if x.Floor as real == x {
      assert x.Floor <= 0x1F_FFFF_FFFF_FFFF;
    }
  }

  /** The default base overflows at 2^1024 and not before. */
  lemma DefaultBaseOverflows(exponent: U32)
    ensures PowSaturated(Fin(2.0), exponent) == PosInf <==> exponent >= 1024
  {
    PowersOfTwoAreExact(exponent);
    var top := Pow(2.0, F64_SHIFT);
    PowMonotone(2.0, 0, F64_SHIFT);
    TopPower();
    PowAdd(2.0, 52, F64_SHIFT);
    PowAdd(2.0, 53, F64_SHIFT);
    MulMonotoneLeft(HALF_TOP, F64_MANTISSA, top);
    assert TOP * top == F64_MANTISSA * top + top;
    if exponent >= 1024 {
      PowMonotone(2.0, 1024, exponent);
    } else {
      PowMonotone(2.0, exponent, 1023);
    }
  }

  lemma TopPower()
    ensures Pow(2.0, 52) == HALF_TOP && Pow(2.0, 53) == TOP
  {
    PowEight(45); PowEight(37); PowEight(29); PowEight(21); PowEight(13); PowEight(5);
    PowEight(44); PowEight(36); PowEight(28); PowEight(20); PowEight(12); PowEight(4);
    assert Pow(2.0, 5) == 32.0 && Pow(2.0, 4) == 16.0;
  }

  /** MAX lies just below 2^64 * 10^9, which is a double, and rounds up to it. */
  lemma ThresholdIsAboveMax()
    ensures Nearest(MAX as real) == (MAX + 1) as real
  {
    var floor := (MAX + 1) / 0x200_0000_0000 - 1;
    var x := floor as real + (0x200_0000_0000 - 1) as real / 0x200_0000_0000 as real;
    ShiftedBy41(x);
    assert Shifted(x, 41) == MAX as real;
    assert x.Floor == floor;
    assert Round(x, SUBNORMAL) == (floor + 1) as real;
    RoundShifts(x, 41, SUBNORMAL);
    ShiftedBy41((floor + 1) as real);
  }

  /** Below the threshold neither cast truncates: a non-negative float becomes
      its floor, saturated. */
  lemma FromNanosIsFloor(x: real)
    requires x >= 0.0
    ensures FromNanosF64(Overflow(x)) == Saturate(x.Floor)
  {
    F64MaxIsLarge();
    ThresholdIsAboveMax();
    if x < (MAX + 1) as real {
      WholeParts(x.Floor);
    }
  }

  lemma WholeParts(total: nat)
    requires total <= MAX
    ensures FromParts(AsU64(total / NANOS_PER_SEC), AsU32(total % NANOS_PER_SEC)) == total
  {
    assert total / NANOS_PER_SEC <= U64_MAX;
  }

  /** The rounded duration times the multiplier, rounded, in unbounded range. */
  function Scaled(dur: Duration, m: real): real
    requires m >= 0.0
  {
    NearestMonotone(dur as real, dur as real);
    Times(Nearest(dur as real), m)
  }

  /** A duration as an f64. */
  lemma DurationIsF64(dur: Duration)
    ensures IsDouble(Nearest(dur as real)) && Nearest(dur as real) <= (MAX + 1) as real < F64_MAX
    ensures dur > 0 ==> Grown(Nearest(dur as real))
  {
    NearestIsDouble(dur as real);
    NearestMonotone(dur as real, MAX as real);
    ThresholdIsAboveMax();
    F64MaxIsLarge();
    if dur > 0 {
      OneIsGrown();
      NearestMonotone(1.0, dur as real);
    }
  }

  lemma ScaledZero(m: real)
    requires m >= 0.0
    ensures Scaled(0, m) == 0.0
  {
    IntegerIsDouble(0);
    TimesIs(0.0, m, 0.0);
  }

  lemma ScaledNonNegative(dur: Duration, m: real)
    requires m >= 0.0
    ensures Scaled(dur, m) >= 0.0
  {
    NearestMonotone(dur as real, dur as real);
    TimesMonotone(0.0, 0.0, Nearest(dur as real), m);
  }

  /** A finite multiplier, however small: the product rounded down, saturated. */
  lemma SatMulF64IsFloor(dur: Duration, m: real)
    requires m >= 0.0
    ensures Scaled(dur, m) >= 0.0 && SatMulF64(dur, Fin(m)) == Saturate(Scaled(dur, m).Floor)
  {
    ScaledNonNegative(dur, m);
    if dur == 0 {
      ScaledZero(m);
    } else {
      DurationIsF64(dur);
      MulMonotone(Nearest(dur as real), 0.0, m);
      MulOfFinite(Nearest(dur as real), m, Nearest(dur as real) * m);
      FromNanosIsFloor(Scaled(dur, m));
    }
  }

  /** A multiplier from 1 on, overflowed or not: the same formula, and a zero
      duration stays zero either way. */
  lemma SatMulF64OfOverflow(dur: Duration, m: real)
    requires Grown(m)
    ensures Scaled(dur, m) >= 0.0 && SatMulF64(dur, Overflow(m)) == Saturate(Scaled(dur, m).Floor)
  {
    ScaledNonNegative(dur, m);
    if dur == 0 {
      ScaledZero(m);
    } else {
      DurationIsF64(dur);
      MulOfOverflow(Nearest(dur as real), m);
      FromNanosIsFloor(Scaled(dur, m));
    }
  }

  lemma SatMulF64OfSpecial(dur: Duration, mul: F64)
    requires !mul.Fin?
    ensures SatMulF64(dur, mul) == if mul == PosInf && dur > 0 then MAX else 0
  {
    if dur > 0 {
      DurationIsF64(dur);
      assert Sign(Fin(Nearest(dur as real))) == 1;
    }
  }

  lemma SatMulF64OfNegative(dur: Duration, m: real)
    requires m < 0.0
    ensures SatMulF64(dur, Fin(m)) == 0
  {
    if dur > 0 {
      DurationIsF64(dur);
      var product := Nearest(dur as real) * m;
      NegativeProduct(Nearest(dur as real), m);
      assert Mul(Fin(Nearest(dur as real)), Fin(m)) == Rounded(product);
      NegativeNanosAreZero(product);
    }
  }

  lemma NegativeNanosAreZero(x: real)
    requires x < 0.0
    ensures FromNanosF64(Rounded(x)) == 0
  {
    NearestMonotone(0.0, -x);
    ThresholdIsAboveMax();
    assert !AtLeast(Rounded(x), Nearest(MAX as real));
    assert AsNat(Rounded(x)) == 0;
    WholeParts(0);
  }

  lemma NegativeProduct(c: real, x: real)
    requires c > 0.0 && x < 0.0
    ensures c * x < 0.0
  {
  }

  /** Where duration and product need no more than 53 bits, the product is exact. */
  lemma ScaledIsExact(dur: Duration, m: real, product: real)
    requires dur as real <= TOP && m >= 0.0 && product == dur as real * m && IsDouble(product)
    ensures Scaled(dur, m) == product
  {
    IntegerIsDouble(dur);
    TimesIs(dur as real, m, product);
  }

  /** In general it is off by at most two roundings. */
  lemma ScaledIsNear(dur: Duration, m: real, low: real, high: real)
    requires dur > 0 && m >= 1.0 && Margins(low, high)
    ensures Product3(dur as real * low, m, low) <= Scaled(dur, m) <= Product3(dur as real * high, m, high)
  {
    var x, d := dur as real, Nearest(dur as real);
    DurationIsF64(dur);
    NearestIsNear(x, low, high);
    TimesIsNear(d, m, low, high);
    UnitIsSmall();
    ProductMonotone(0.0, 0.0, x, low);
    NearProducts(x * low, d, x * high, m, Scaled(dur, m), low, high);
  }

  lemma NearProducts(a: real, d: real, b: real, m: real, scaled: real, low: real, high: real)
    requires 0.0 <= a <= d <= b && m >= 0.0 && low >= 0.0 && high >= 0.0
    requires d * m * low <= scaled <= d * m * high
    ensures Product3(a, m, low) <= scaled <= Product3(b, m, high)
  {
    Product3Monotone(a, m, d, m, low);
    Product3Monotone(d, m, b, m, high);
  }

  lemma ScaledMonotone(dur: Duration, m: real, n: real)
    requires 0.0 <= m <= n
    ensures 0.0 <= Scaled(dur, m) <= Scaled(dur, n)
  {
    NearestMonotone(dur as real, dur as real);
    TimesMonotone(Nearest(dur as real), m, Nearest(dur as real), n);
    ScaledNonNegative(dur, m);
  }
}

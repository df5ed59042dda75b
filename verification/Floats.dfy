/** IEEE 754 binary64 arithmetic on non-negative numbers: rounding to nearest,
    ties to even, at 53 significant bits. Exponents are unbounded above here;
    overflow is decided on the rounded value (see WaitMath). */
module Floats {
  /** 2^53 and 2^52: doubles in [HALF_TOP, TOP) are the integers there. */
  const TOP: real := 0x20_0000_0000_0000 as real
  const HALF_TOP: real := 0x10_0000_0000_0000 as real

  const PRECISION: nat := 53

  /** 2^-n */
  function Half(n: nat): real {
    if n == 0 then 1.0 else Half(n - 1) / 2.0
  }

  /** The relative error of one rounding is at most 2^-53. */
  const UNIT: real := Half(PRECISION)

  /** Factors that cover the error of one rounding; 1 - 2^-53 and 1 + 2^-53 are
      the tightest. */
  ghost predicate Margins(low: real, high: real) {
    0.0 < low <= 1.0 - UNIT && 1.0 + UNIT <= high
  }

  /** The least positive double is 2^-1074. */
  const SUBNORMAL: nat := 1074

  /** Mathematical base^n. */
  function Pow(base: real, n: nat): real {
    if n == 0 then 1.0 else base * Pow(base, n - 1)
  }

  /** floor + rest to the nearest integer, ties to even. */
  function NearestInteger(floor: int, rest: real): int {
    if rest < 0.5 || (rest == 0.5 && floor % 2 == 0) then floor else floor + 1
  }

  function Integral(x: real): real
    requires x >= 0.0
  {
    NearestInteger(x.Floor, x - x.Floor as real) as real
  }

  /** Scales x into [HALF_TOP, TOP), rounds to an integer and scales back; at most
      `halvings` binary places are kept. */
  function Round(x: real, halvings: nat): real
    requires x >= 0.0
    decreases if x >= TOP then x.Floor else 0, halvings
  {
    if x >= TOP then 2.0 * Round(x / 2.0, halvings)
    else if x >= HALF_TOP || halvings == 0 then Integral(x)
    else Round(2.0 * x, halvings - 1) / 2.0
  }

  /** The double nearest to x. */
  function Nearest(x: real): real
    requires x >= 0.0
  {
    Round(x, SUBNORMAL)
  }

  predicate IsDouble(x: real) {
    x >= 0.0 && Nearest(x) == x
  }

  // ----- rounding to integers -----

  lemma IntegralIsNear(x: real)
    requires x >= 0.0
    ensures x.Floor as real <= Integral(x) <= x.Floor as real + 1.0
    ensures x - 0.5 <= Integral(x) <= x + 0.5
  {
    var floor := x.Floor;
    var rest := x - floor as real;
    assert 0.0 <= rest < 1.0;
    NearestIntegerIsNear(floor, rest);
  }

  lemma NearestIntegerIsNear(floor: int, rest: real)
    requires 0.0 <= rest < 1.0
    ensures floor <= NearestInteger(floor, rest) <= floor + 1
    ensures floor as real + rest - 0.5 <= NearestInteger(floor, rest) as real <= floor as real + rest + 0.5
  {
  }

  lemma IntegralMonotone(x: real, y: real)
    requires 0.0 <= x <= y
    ensures Integral(x) <= Integral(y)
  {
    IntegralIsNear(x);
    IntegralIsNear(y);
    FloorMonotone(x, y);
    if x.Floor == y.Floor {
      NearestIntegerMonotone(x.Floor, x - x.Floor as real, y - y.Floor as real);
    }
  }

  lemma FloorMonotone(x: real, y: real)
    requires x <= y
    ensures x.Floor <= y.Floor
    ensures x.Floor < y.Floor ==> x.Floor as real + 1.0 <= y.Floor as real
  {
  }

  lemma NearestIntegerMonotone(floor: int, low: real, high: real)
    requires low <= high
    ensures NearestInteger(floor, low) as real <= NearestInteger(floor, high) as real
  {
  }

  lemma IntegralBetween(x: real, low: nat, high: nat)
    requires low as real <= x <= high as real
    ensures low as real <= Integral(x) <= high as real
  {
    IntegralOfInteger(low);
    IntegralOfInteger(high);
    IntegralMonotone(low as real, x);
    IntegralMonotone(x, high as real);
  }

  lemma IntegralOfInteger(n: nat)
    ensures Integral(n as real) == n as real
  {
    assert (n as real).Floor == n;
  }

  // ----- rounding to doubles -----

  /** Rounding crosses neither 2^52 nor 2^53. */
  lemma {:induction false} RoundStaysInBinade(x: real, k: nat)
    requires x >= 0.0
    ensures Round(x, k) >= 0.0
    ensures x >= TOP ==> Round(x, k) >= TOP
    ensures HALF_TOP <= x ==> Round(x, k) >= HALF_TOP
    ensures x <= TOP ==> Round(x, k) <= TOP
    ensures x <= HALF_TOP ==> Round(x, k) <= HALF_TOP
    decreases if x >= TOP then x.Floor else 0, k
  {
    if x >= TOP {
      RoundStaysInBinade(x / 2.0, k);
    } else if x < HALF_TOP && k > 0 {
      RoundStaysInBinade(2.0 * x, k - 1);
    } else {
      IntegralBetween(x, 0, 0x20_0000_0000_0000);
      if x >= HALF_TOP { IntegralBetween(x, 0x10_0000_0000_0000, 0x20_0000_0000_0000); }
      if x <= HALF_TOP { IntegralBetween(x, 0, 0x10_0000_0000_0000); }
    }
  }

  lemma {:induction false} RoundMonotone(x: real, y: real, k: nat)
    requires 0.0 <= x <= y
    ensures Round(x, k) <= Round(y, k)
    decreases if y >= TOP then y.Floor else 0, k
  {
    RoundStaysInBinade(x, k);
    RoundStaysInBinade(y, k);
    if x >= TOP {
      RoundMonotone(x / 2.0, y / 2.0, k);
    } else if y < HALF_TOP && k > 0 {
      RoundMonotone(2.0 * x, 2.0 * y, k - 1);
    } else if y < TOP && (x >= HALF_TOP || k == 0) {
      IntegralMonotone(x, y);
    }
  }

  lemma NearestMonotone(x: real, y: real)
    requires 0.0 <= x <= y
    ensures 0.0 <= Nearest(x) <= Nearest(y)
  {
    RoundMonotone(x, y, SUBNORMAL);
    RoundStaysInBinade(x, SUBNORMAL);
  }

  lemma {:induction false} RoundIdempotent(x: real, k: nat)
    requires x >= 0.0
    ensures Round(x, k) >= 0.0 && Round(Round(x, k), k) == Round(x, k)
    decreases if x >= TOP then x.Floor else 0, k
  {
    RoundStaysInBinade(x, k);
    if x >= TOP {
      RoundStaysInBinade(x / 2.0, k);
      RoundIdempotent(x / 2.0, k);
    } else if x < HALF_TOP && k > 0 {
      RoundIdempotent(2.0 * x, k - 1);
      HalfOfRounded(Round(2.0 * x, k - 1), k);
    } else {
      IntegerIsRounded(Integral(x).Floor, k);
    }
  }

  lemma HalfOfRounded(y: real, k: nat)
    requires k > 0 && 0.0 <= y <= TOP && Round(y, k - 1) == y
    ensures Round(y / 2.0, k) == y / 2.0
  {
  }

  /** Integers up to 2^53 are doubles. */
  lemma {:induction false} IntegerIsRounded(n: int, k: nat)
    requires 0 <= n <= 0x20_0000_0000_0000
    ensures Round(n as real, k) == n as real
    decreases k
  {
    var x := n as real;
    if n == 0x20_0000_0000_0000 {
      assert Round(HALF_TOP, k) == HALF_TOP;
    } else if x < HALF_TOP && k > 0 {
      assert 2.0 * x == (2 * n) as real;
      IntegerIsRounded(2 * n, k - 1);
    }
  }

  lemma IntegerIsDouble(n: nat)
    requires n <= 0x20_0000_0000_0000
    ensures IsDouble(n as real)
  {
    IntegerIsRounded(n, SUBNORMAL);
  }

  lemma {:induction false} LargeRoundsToInteger(x: real, k: nat)
    requires x >= HALF_TOP
    ensures Round(x, k) >= 0.0 && Round(x, k).Floor as real == Round(x, k)
    decreases x.Floor
  {
    RoundStaysInBinade(x, k);
    if x >= TOP {
      LargeRoundsToInteger(x / 2.0, k);
      TwiceIsInteger(Round(x / 2.0, k));
    } else {
      IntegralIsInteger(x);
    }
  }

  lemma TwiceIsInteger(x: real)
    requires x.Floor as real == x
    ensures (2.0 * x).Floor as real == 2.0 * x
  {
    var n := x.Floor;
    assert 2.0 * x == (2 * n) as real;
  }

  lemma IntegralIsInteger(x: real)
    requires x >= 0.0
    ensures Integral(x) >= 0.0 && Integral(x).Floor as real == Integral(x)
  {
    IntegralIsNear(x);
    IntegerFloor(NearestInteger(x.Floor, x - x.Floor as real));
  }

  lemma IntegerFloor(n: int)
    ensures (n as real).Floor == n
  {
  }

  /** Integers round to integers. */
  lemma NearestOfInteger(n: nat)
    ensures Nearest(n as real) >= 0.0 && Nearest(n as real).Floor as real == Nearest(n as real)
  {
    if n as real >= HALF_TOP {
      LargeRoundsToInteger(n as real, SUBNORMAL);
    } else {
      IntegerIsDouble(n);
    }
  }

  /** The tie between 2^53 and 2^53 + 2 goes to the former. */
  lemma TopPlusOneRoundsDown()
    ensures Nearest(0x20_0000_0000_0001 as real) == TOP
  {
    var half := 0x20_0000_0000_0001 as real / 2.0;
    assert half.Floor == 0x10_0000_0000_0000 && half - half.Floor as real == 0.5;
    assert Round(half, SUBNORMAL) == HALF_TOP;
  }

  lemma NearestIsDouble(x: real)
    requires x >= 0.0
    ensures IsDouble(Nearest(x))
  {
    RoundIdempotent(x, SUBNORMAL);
  }

  /** Doubling a double of at least 2^52 is exact. */
  lemma TwiceIsDouble(x: real)
    requires x >= HALF_TOP && IsDouble(x)
    ensures IsDouble(2.0 * x)
  {
    assert 2.0 * x / 2.0 == x;
  }

  /** m * 2^n */
  function Doubled(m: nat, n: nat): nat {
    if n == 0 then m else 2 * Doubled(m, n - 1)
  }

  lemma TwiceInteger(n: nat)
    requires IsDouble(n as real)
    ensures IsDouble((2 * n) as real)
  {
    if n as real >= HALF_TOP {
      TwiceIsDouble(n as real);
      assert (2 * n) as real == 2.0 * n as real;
    } else {
      IntegerIsDouble(2 * n);
    }
  }

  lemma {:induction false} DoubledIsAtLeast(m: nat, n: nat)
    ensures Doubled(m, n) >= m
  {
    if n > 0 { DoubledIsAtLeast(m, n - 1); }
  }

  /** An integer that is a double, times a power of two, is a double. */
  lemma {:induction false} DoubledIsDouble(m: nat, n: nat)
    requires IsDouble(m as real)
    ensures IsDouble(Doubled(m, n) as real)
  {
    if n > 0 {
      DoubledIsDouble(m, n - 1);
      TwiceInteger(Doubled(m, n - 1));
    }
  }

  lemma {:induction false} PowOfTwo(n: nat)
    ensures Pow(2.0, n) == Doubled(1, n) as real
  {
    if n > 0 { PowOfTwo(n - 1); }
  }

  lemma TwiceProduct(x: real, p: real, product: real)
    requires x * p == product
    ensures x * (2.0 * p) == 2.0 * product
  {
  }

  lemma {:induction false} DoubledIsProduct(m: nat, n: nat)
    ensures m as real * Pow(2.0, n) == Doubled(m, n) as real
  {
    if n > 0 {
      DoubledIsProduct(m, n - 1);
      TwiceProduct(m as real, Pow(2.0, n - 1), Doubled(m, n - 1) as real);
    }
  }

  lemma RoundDoubles(x: real, k: nat)
    requires x >= HALF_TOP
    ensures Round(2.0 * x, k) == 2.0 * Round(x, k)
  {
    assert 2.0 * x / 2.0 == x;
  }

  /** x shifted left by j binary places. */
  function Shifted(x: real, j: nat): real {
    if j == 0 then x else 2.0 * Shifted(x, j - 1)
  }

  /** Above 2^52 rounding commutes with shifting left. */
  lemma {:induction false} RoundShifts(x: real, j: nat, k: nat)
    requires x >= HALF_TOP
    ensures Shifted(x, j) >= HALF_TOP && Round(Shifted(x, j), k) == Shifted(Round(x, k), j)
  {
    if j > 0 {
      RoundShifts(x, j - 1, k);
      RoundDoubles(Shifted(x, j - 1), k);
    }
  }

  lemma ShiftedByByte(x: real, j: nat)
    ensures Shifted(x, j + 8) == 256.0 * Shifted(x, j)
  {
    assert Shifted(x, j + 2) == 4.0 * Shifted(x, j);
    assert Shifted(x, j + 4) == 4.0 * Shifted(x, j + 2);
    assert Shifted(x, j + 6) == 4.0 * Shifted(x, j + 4);
    assert Shifted(x, j + 8) == 4.0 * Shifted(x, j + 6);
  }

  lemma ShiftedBy41(x: real)
    ensures Shifted(x, 41) == 0x200_0000_0000 as real * x
  {
    ShiftedByByte(x, 33); ShiftedByByte(x, 25); ShiftedByByte(x, 17); ShiftedByByte(x, 9); ShiftedByByte(x, 1);
    assert Shifted(x, 1) == 2.0 * x;
  }

  lemma HalfByByte(n: nat)
    ensures Half(n + 8) == Half(n) / 256.0
  {
    assert Half(n + 2) == Half(n) / 4.0;
    assert Half(n + 4) == Half(n + 2) / 4.0;
    assert Half(n + 6) == Half(n + 4) / 4.0;
    assert Half(n + 8) == Half(n + 6) / 4.0;
  }

  lemma UnitIsSmall()
    ensures 0.0 < UNIT < 0.5 && UNIT * HALF_TOP == 0.5
  {
    HalfByByte(45); HalfByByte(37); HalfByByte(29); HalfByByte(21); HalfByByte(13); HalfByByte(5);
    assert Half(5) == 1.0 / 32.0;
    assert UNIT == 1.0 / TOP;
  }

  ghost predicate Near(x: real, rounded: real) {
    x - x * UNIT <= rounded <= x + x * UNIT
  }

  lemma NearDoubles(x: real, rounded: real)
    requires Near(x, rounded)
    ensures Near(2.0 * x, 2.0 * rounded)
  {
    assert 2.0 * x * UNIT == 2.0 * (x * UNIT);
  }

  lemma NearHalves(x: real, rounded: real)
    requires Near(2.0 * x, rounded)
    ensures Near(x, rounded / 2.0)
  {
    assert 2.0 * x * UNIT == 2.0 * (x * UNIT);
  }

  lemma IntegralIsNearLarge(x: real)
    requires x >= HALF_TOP
    ensures Near(x, Integral(x))
  {
    IntegralIsNear(x);
    UnitIsSmall();
    MulMonotone(UNIT, HALF_TOP, x);
    assert UNIT * x == x * UNIT;
  }

  lemma {:induction false} ShiftedFirst(x: real, j: nat)
    ensures Shifted(2.0 * x, j) == Shifted(x, j + 1)
  {
    if j > 0 { ShiftedFirst(x, j - 1); }
  }

  lemma {:induction false} ShiftedAtLeast(x: real, j: nat)
    requires x >= 0.0
    ensures Shifted(x, j) >= x
  {
    if j > 0 { ShiftedAtLeast(x, j - 1); }
  }

  /** One rounding is off by at most half a unit in the last place, unless too few
      places are kept. */
  lemma {:induction false} RoundIsNear(x: real, k: nat)
    requires x >= 0.0 && Shifted(x, k) >= HALF_TOP
    ensures Near(x, Round(x, k))
    decreases if x >= TOP then x.Floor else 0, k
  {
    if x >= TOP {
      ShiftedAtLeast(x / 2.0, k);
      RoundIsNear(x / 2.0, k);
      NearDoubles(x / 2.0, Round(x / 2.0, k));
    } else if x < HALF_TOP && k > 0 {
      ShiftedFirst(x, k - 1);
      RoundIsNear(2.0 * x, k - 1);
      NearHalves(x, Round(2.0 * x, k - 1));
    } else {
      IntegralIsNearLarge(x);
    }
  }

  lemma {:induction false} ShiftedFar(x: real, j: nat)
    requires x >= 1.0 && j >= 56
    ensures Shifted(x, j) >= HALF_TOP
  {
    if j == 56 {
      ShiftedByByte(x, 48); ShiftedByByte(x, 40); ShiftedByByte(x, 32); ShiftedByByte(x, 24);
      ShiftedByByte(x, 16); ShiftedByByte(x, 8); ShiftedByByte(x, 0);
    } else {
      ShiftedFar(x, j - 1);
    }
  }

  lemma NearestIsNear(x: real, low: real, high: real)
    requires x >= 1.0 && Margins(low, high)
    ensures x * low <= Nearest(x) <= x * high
  {
    ShiftedFar(x, SUBNORMAL);
    RoundIsNear(x, SUBNORMAL);
    MulMonotone(x, low, 1.0 - UNIT);
    MulMonotone(x, 1.0 + UNIT, high);
  }

  lemma {:induction false} ShiftedInOrder(x: real, y: real, j: nat)
    ensures Shifted(x, j) < Shifted(y, j) <==> x < y
  {
    if j > 0 { ShiftedInOrder(x, y, j - 1); }
  }

  /** From 2^52 to 2^53, and in that range shifted left, the doubles are the integers. */
  lemma DoublesOfBinade(x: real, j: nat)
    requires HALF_TOP <= x < TOP
    ensures Shifted(x, j) >= 0.0
    ensures IsDouble(Shifted(x, j)) <==> x.Floor as real == x
  {
    RoundShifts(x, j, SUBNORMAL);
    ShiftedInOrder(Integral(x), x, j);
    ShiftedInOrder(x, Integral(x), j);
    IntegralKeepsIntegers(x);
  }

  lemma IntegralKeepsIntegers(x: real)
    requires x >= 0.0
    ensures Integral(x) == x <==> x.Floor as real == x
  {
    IntegralIsInteger(x);
    if x.Floor as real == x { IntegralOfInteger(x.Floor); }
  }

  /** The powers of two down to 2^-1074 are doubles; 2^-1075 rounds to zero. */
  lemma {:induction false} SmallPowersOfTwo(n: nat, k: nat)
    requires n <= k + 1
    ensures Half(n) > 0.0 && Round(Half(n), k) == if n <= k then Half(n) else 0.0
  {
    if n == 0 {
      IntegerIsRounded(1, k);
    } else if k > 0 {
      SmallPowersOfTwo(n - 1, k - 1);
      HalfIsSmall(n);
      assert 2.0 * Half(n) == Half(n - 1);
    } else {
      assert Half(1) == 0.5;
    }
  }

  lemma {:induction false} HalfIsSmall(n: nat)
    ensures 0.0 < Half(n) <= 1.0
  {
    if n > 0 { HalfIsSmall(n - 1); }
  }

  lemma LeastDouble(n: nat)
    requires n == 1074
    ensures IsDouble(Half(n)) && Half(n + 1) > 0.0 && Nearest(Half(n + 1)) == 0.0
  {
    SmallPowersOfTwo(n, SUBNORMAL);
    SmallPowersOfTwo(n + 1, SUBNORMAL);
  }

  // ----- products and powers -----

  lemma MulMonotone(c: real, x: real, y: real)
    requires c >= 0.0 && x <= y
    ensures c * x <= c * y
  {
  }

  lemma MulMonotoneLeft(x: real, y: real, c: real)
    requires c >= 0.0 && x <= y
    ensures x * c <= y * c
  {
  }

  /** x * m with two roundings of relative size c around it. */
  function Product3(x: real, m: real, c: real): real {
    x * m * c
  }

  lemma Product3Monotone(x: real, m: real, y: real, n: real, c: real)
    requires 0.0 <= x <= y && 0.0 <= m <= n && c >= 0.0
    ensures Product3(x, m, c) <= Product3(y, n, c)
  {
    ProductMonotone(x, m, y, n);
    MulMonotoneLeft(x * m, y * n, c);
  }

  lemma ProductMonotone(a: real, b: real, x: real, y: real)
    requires 0.0 <= a <= x && 0.0 <= b <= y
    ensures 0.0 <= a * b <= x * y
  {
    MulMonotone(a, b, y);
    MulMonotone(y, a, x);
    MulMonotone(a, 0.0, b);
  }

  lemma {:induction false} PowAdd(b: real, i: nat, j: nat)
    ensures Pow(b, i) * Pow(b, j) == Pow(b, i + j)
  {
    if i > 0 {
      PowAdd(b, i - 1, j);
      assert b * Pow(b, i - 1) * Pow(b, j) == b * (Pow(b, i - 1) * Pow(b, j));
    }
  }

  lemma {:induction false} PowMonotone(b: real, i: nat, j: nat)
    requires b >= 1.0 && i <= j
    ensures 1.0 <= Pow(b, i) <= Pow(b, j)
    decreases j
  {
    if i < j {
      PowMonotone(b, i, j - 1);
      MulMonotone(Pow(b, j - 1), 1.0, b);
    } else if i > 0 {
      PowMonotone(b, i - 1, i - 1);
      MulMonotone(Pow(b, i - 1), 1.0, b);
    }
  }

  lemma PowEight(n: nat)
    ensures Pow(2.0, n + 8) == 256.0 * Pow(2.0, n)
  {
    assert Pow(2.0, n + 2) == 4.0 * Pow(2.0, n);
    assert Pow(2.0, n + 4) == 4.0 * Pow(2.0, n + 2);
    assert Pow(2.0, n + 6) == 4.0 * Pow(2.0, n + 4);
    assert Pow(2.0, n + 8) == 4.0 * Pow(2.0, n + 6);
  }

  lemma {:induction false} PowAtLeast(n: nat)
    requires n >= 56
    ensures Pow(2.0, n) >= TOP
  {
    if n == 56 {
      PowEight(48); PowEight(40); PowEight(32); PowEight(24); PowEight(16); PowEight(8); PowEight(0);
    } else {
      PowAtLeast(n - 1);
    }
  }

  function Times(x: real, y: real): real
    requires x >= 0.0 && y >= 0.0
  {
    MulMonotone(x, 0.0, y);
    Nearest(x * y)
  }

  lemma TimesIs(x: real, y: real, z: real)
    requires x >= 0.0 && y >= 0.0 && x * y == z
    ensures z >= 0.0 && Times(x, y) == Nearest(z)
  {
    MulMonotone(x, 0.0, y);
  }

  lemma TimesPowerOfTwo(m: nat, n: nat)
    ensures Pow(2.0, n) >= 0.0 && Times(m as real, Pow(2.0, n)) == Nearest(Doubled(m, n) as real)
  {
    PowMonotone(2.0, 0, n);
    DoubledIsProduct(m, n);
    TimesIs(m as real, Pow(2.0, n), Doubled(m, n) as real);
  }

  lemma TimesIsNear(x: real, y: real, low: real, high: real)
    requires x >= 1.0 && y >= 1.0 && Margins(low, high)
    ensures x * y * low <= Times(x, y) <= x * y * high
  {
    ProductMonotone(1.0, 1.0, x, y);
    TimesIs(x, y, x * y);
    NearestIsNear(x * y, low, high);
  }

  lemma TimesMonotone(a: real, b: real, x: real, y: real)
    requires 0.0 <= a <= x && 0.0 <= b <= y
    ensures 0.0 <= Times(a, b) <= Times(x, y)
  {
    ProductMonotone(a, b, x, y);
    NearestMonotone(a * b, x * y);
  }

  lemma TimesIsDouble(x: real, y: real)
    requires x >= 0.0 && y >= 0.0
    ensures IsDouble(Times(x, y))
  {
    MulMonotone(x, 0.0, y);
    NearestIsDouble(x * y);
  }

  /** A factor of at least one never shrinks a double. */
  lemma TimesGrows(x: real, y: real)
    requires IsDouble(x) && y >= 1.0
    ensures Times(x, y) >= x
  {
    MulMonotone(x, 1.0, y);
    NearestMonotone(x, x * y);
  }

  lemma OneTimes(x: real)
    requires IsDouble(x)
    ensures Times(1.0, x) == x
  {
    assert 1.0 * x == x;
  }
}

/** Exponentiation by squaring when every product is rounded: monotone, exact
    where the true powers are doubles, and accurate elsewhere. */
module Powers {
  import opened Floats

  /** A power being computed: bits of n still to go, `factor` for the lowest. */
  function Power(result: real, factor: real, n: nat): real
    requires result >= 0.0 && factor >= 0.0
    decreases n
  {
    if n == 0 then result
    else
      TimesMonotone(0.0, 0.0, result, factor);
      TimesMonotone(0.0, 0.0, factor, factor);
      Power(if n % 2 == 1 then Times(result, factor) else result, Times(factor, factor), n / 2)
  }

  predicate Grown(x: real) {
    IsDouble(x) && x >= 1.0
  }

  lemma TimesStaysGrown(x: real, y: real)
    requires Grown(x) && Grown(y)
    ensures Grown(Times(x, y)) && Times(x, y) >= x
  {
    TimesGrows(x, y);
    TimesIsDouble(x, y);
  }

  lemma {:induction false} PowerGrows(result: real, factor: real, n: nat)
    requires Grown(result) && Grown(factor)
    ensures Grown(Power(result, factor, n)) && Power(result, factor, n) >= result
    decreases n
  {
    if n > 0 {
      TimesStaysGrown(result, factor);
      TimesStaysGrown(factor, factor);
      PowerGrows(if n % 2 == 1 then Times(result, factor) else result, Times(factor, factor), n / 2);
    }
  }

  lemma {:induction false} PowerMonotone(a: real, b: real, factor: real, n: nat)
    requires 0.0 <= a <= b && factor >= 0.0
    ensures Power(a, factor, n) <= Power(b, factor, n)
    decreases n
  {
    if n > 0 {
      TimesMonotone(a, factor, b, factor);
      TimesMonotone(0.0, 0.0, factor, factor);
      PowerMonotone(if n % 2 == 1 then Times(a, factor) else a, if n % 2 == 1 then Times(b, factor) else b,
                    Times(factor, factor), n / 2);
    }
  }

  /** One more in the exponent turns trailing ones into a carry: what those ones
      have multiplied up to never exceeds the factor that replaces them. */
  lemma {:induction false} PowerOfNext(low: real, factor: real, n: nat)
    requires Grown(low) && Grown(factor) && low <= factor
    ensures Power(low, factor, n) <= Power(1.0, factor, n + 1)
    decreases n
  {
    var square := Times(factor, factor);
    TimesStaysGrown(factor, factor);
    OneTimes(factor);
    if n % 2 == 0 {
      assert Power(1.0, factor, n + 1) == Power(factor, square, n / 2);
      PowerMonotone(low, factor, square, n / 2);
      assert n > 0 ==> Power(low, factor, n) == Power(low, square, n / 2);
    } else {
      var low' := Times(low, factor);
      TimesStaysGrown(low, factor);
      TimesMonotone(low, factor, factor, factor);
      PowerOfNext(low', square, n / 2);
      assert Power(1.0, factor, n + 1) == Power(1.0, square, n / 2 + 1);
    }
  }

  /** base^n as square-and-multiply rounds it. */
  function RoundedPower(base: real, n: nat): real
    requires base >= 0.0
  {
    Power(1.0, base, n)
  }

  lemma RoundedPowerGrows(base: real, n: nat)
    requires Grown(base)
    ensures Grown(RoundedPower(base, n)) && RoundedPower(base, n) <= RoundedPower(base, n + 1)
  {
    OneIsGrown();
    PowerGrows(1.0, base, n);
    PowerOfNext(1.0, base, n);
  }

  /** Rounded powers never shrink as the exponent grows, for every base. */
  lemma {:induction false} RoundedPowerMonotone(base: real, i: nat, j: nat)
    requires Grown(base) && i <= j
    ensures 1.0 <= RoundedPower(base, i) <= RoundedPower(base, j)
    decreases j
  {
    RoundedPowerGrows(base, i);
    if i < j {
      RoundedPowerMonotone(base, i, j - 1);
      RoundedPowerGrows(base, j - 1);
    }
  }

  lemma OneIsGrown()
    ensures Grown(1.0)
  {
    IntegerIsDouble(1);
  }

  ghost predicate PowersAreDoubles(base: real, n: nat) {
    forall k: nat :: k <= n ==> IsDouble(Pow(base, k))
  }

  /** Where the true powers are doubles, nothing is lost. */
  lemma {:induction false} PowerIsExact(result: real, factor: real, n: nat, base: real, done: nat, weight: nat)
    requires base >= 1.0 && result == Pow(base, done) >= 1.0 && factor == Pow(base, weight) >= 1.0
    requires PowersAreDoubles(base, done + weight * n)
    ensures Power(result, factor, n) == Pow(base, done + weight * n)
    decreases n
  {
    if n > 0 {
      Halve(weight, n);
      if n % 2 == 1 {
        ExactProduct(base, done, weight, done + weight * n);
      }
      var result' := if n % 2 == 1 then Times(result, factor) else result;
      var done' := if n % 2 == 1 then done + weight else done;
      if n / 2 > 0 {
        MulAtLeast(weight + weight, n / 2);
        ExactProduct(base, weight, weight, done + weight * n);
        PowerIsExact(result', Times(factor, factor), n / 2, base, done', weight + weight);
      } else {
        TimesMonotone(0.0, 0.0, factor, factor);
        assert Power(result', Times(factor, factor), 0) == result';
      }
    }
  }

  lemma ExactProduct(base: real, i: nat, j: nat, n: nat)
    requires base >= 1.0 && i + j <= n && PowersAreDoubles(base, n)
    ensures Pow(base, i) >= 1.0 && Pow(base, j) >= 1.0 && Pow(base, i + j) >= 1.0
    ensures Times(Pow(base, i), Pow(base, j)) == Pow(base, i + j)
  {
    PowMonotone(base, 0, i);
    PowMonotone(base, 0, j);
    PowMonotone(base, 0, i + j);
    PowAdd(base, i, j);
    TimesIs(Pow(base, i), Pow(base, j), Pow(base, i + j));
  }

  lemma MulAtLeast(w: nat, n: nat)
    requires n > 0
    ensures w <= w * n
  {
  }

  lemma Halve(w: nat, n: nat)
    ensures w * n == (w + w) * (n / 2) + if n % 2 == 1 then w else 0
    ensures n % 2 == 1 ==> w <= w * n
  {
    var h := n / 2;
    assert n == h + h + n % 2;
    assert w * n == w * (h + h) + w * (n % 2);
  }

  ghost predicate AtMostPower(x: real, base: real, stretch: real, e: nat) {
    x * stretch <= Pow(base * stretch, e)
  }

  ghost predicate AtLeastPower(x: real, base: real, shrink: real, e: nat) {
    x * shrink >= Pow(base * shrink, e)
  }

  /** x is base^e, give or take e - 1 roundings. */
  ghost predicate Within(x: real, base: real, low: real, high: real, e: nat) {
    AtMostPower(x, base, high, e) && AtLeastPower(x, base, low, e)
  }

  lemma WithinProduct(x: real, y: real, base: real, low: real, high: real, i: nat, j: nat)
    requires x >= 1.0 && y >= 1.0 && base >= 1.0 && Margins(low, high)
    requires Within(x, base, low, high, i) && Within(y, base, low, high, j)
    ensures Within(Times(x, y), base, low, high, i + j)
  {
    UnitIsSmall();
    TimesIsNear(x, y, low, high);
    ErrorsAbove(x, y, Times(x, y), base, high, i, j);
    ErrorsBelow(x, y, Times(x, y), base, low, i, j);
  }

  lemma RoundedAbove(x: real, y: real, rounded: real, c: real)
    requires c >= 0.0 && rounded <= x * y * c
    ensures rounded * c <= (x * c) * (y * c)
  {
    MulMonotoneLeft(rounded, x * y * c, c);
    Interleaved(x, y, c);
  }

  lemma RoundedBelow(x: real, y: real, rounded: real, c: real)
    requires c >= 0.0 && rounded >= x * y * c
    ensures rounded * c >= (x * c) * (y * c)
  {
    MulMonotoneLeft(x * y * c, rounded, c);
    Interleaved(x, y, c);
  }

  lemma Interleaved(x: real, y: real, c: real)
    ensures (x * c) * (y * c) == (x * y * c) * c
  {
    assert (x * c) * (y * c) == x * (c * (y * c));
    assert c * (y * c) == (y * c) * c;
  }

  lemma ProductAtMost(x: real, y: real, z: real, p: real, q: real, pq: real)
    requires 0.0 <= x <= p && 0.0 <= y <= q && z <= x * y && p * q == pq
    ensures z <= pq
  {
    ProductMonotone(x, y, p, q);
  }

  lemma ProductAtLeast(x: real, y: real, z: real, p: real, q: real, pq: real)
    requires 0.0 <= p <= x && 0.0 <= q <= y && z >= x * y && p * q == pq
    ensures z >= pq
  {
    ProductMonotone(p, q, x, y);
  }

  lemma ErrorsAbove(x: real, y: real, rounded: real, base: real, c: real, i: nat, j: nat)
    requires x >= 0.0 && y >= 0.0 && c >= 0.0 && rounded <= x * y * c
    requires AtMostPower(x, base, c, i) && AtMostPower(y, base, c, j)
    ensures AtMostPower(rounded, base, c, i + j)
  {
    var b := base * c;
    ProductMonotone(0.0, 0.0, x, c);
    ProductMonotone(0.0, 0.0, y, c);
    RoundedAbove(x, y, rounded, c);
    PowAdd(b, i, j);
    ProductAtMost(x * c, y * c, rounded * c, Pow(b, i), Pow(b, j), Pow(b, i + j));
  }

  lemma ErrorsBelow(x: real, y: real, rounded: real, base: real, c: real, i: nat, j: nat)
    requires x >= 0.0 && y >= 0.0 && base >= 0.0 && c >= 0.0 && rounded >= x * y * c
    requires AtLeastPower(x, base, c, i) && AtLeastPower(y, base, c, j)
    ensures AtLeastPower(rounded, base, c, i + j)
  {
    var b := base * c;
    ProductMonotone(0.0, 0.0, base, c);
    LowPowersArePositive(b, i);
    LowPowersArePositive(b, j);
    RoundedBelow(x, y, rounded, c);
    PowAdd(b, i, j);
    ProductAtLeast(x * c, y * c, rounded * c, Pow(b, i), Pow(b, j), Pow(b, i + j));
  }

  lemma {:induction false} LowPowersArePositive(b: real, n: nat)
    requires b >= 0.0
    ensures Pow(b, n) >= 0.0
  {
    if n > 0 {
      LowPowersArePositive(b, n - 1);
      MulMonotone(b, 0.0, Pow(b, n - 1));
    }
  }

  lemma {:induction false} PowerIsNear(result: real, factor: real, n: nat, base: real, low: real, high: real,
                                       done: nat, weight: nat)
    requires Grown(result) && Grown(factor) && base >= 1.0 && weight > 0 && Margins(low, high)
    requires Within(factor, base, low, high, weight)
    requires if done == 0 then result == 1.0 else Within(result, base, low, high, done)
    ensures done + weight * n == 0 ==> Power(result, factor, n) == 1.0
    ensures done + weight * n > 0 ==> Within(Power(result, factor, n), base, low, high, done + weight * n)
    decreases n
  {
    if n > 0 {
      Halve(weight, n);
      WithinProduct(factor, factor, base, low, high, weight, weight);
      TimesStaysGrown(factor, factor);
      var square := Times(factor, factor);
      if n % 2 == 1 {
        TimesStaysGrown(result, factor);
        if done == 0 { OneTimes(factor); } else { WithinProduct(result, factor, base, low, high, done, weight); }
        PowerIsNear(Times(result, factor), square, n / 2, base, low, high, done + weight, weight + weight);
      } else {
        PowerIsNear(result, square, n / 2, base, low, high, done, weight + weight);
      }
    }
  }

  lemma ExactlyPower(base: real, c: real)
    ensures AtMostPower(base, base, c, 1) && AtLeastPower(base, base, c, 1)
  {
  }

  ghost predicate IsNearPower(x: real, base: real, low: real, high: real, n: nat) {
    Pow(base * low, n) <= x <= Pow(base * high, n)
  }

  lemma WithinIsNear(x: real, base: real, low: real, high: real, n: nat)
    requires x >= 0.0 && low <= 1.0 <= high && Within(x, base, low, high, n)
    ensures IsNearPower(x, base, low, high, n)
  {
    MulMonotone(x, 1.0, high);
    MulMonotone(x, low, 1.0);
    assert x * 1.0 == x;
  }

  /** Square-and-multiply is accurate: the rounded power lies between the powers
      of the base perturbed by half a unit in the last place. */
  lemma RoundedPowerIsNear(base: real, low: real, high: real, n: nat)
    requires Grown(base) && Margins(low, high)
    ensures RoundedPower(base, n) >= 1.0 && IsNearPower(RoundedPower(base, n), base, low, high, n)
  {
    OneIsGrown();
    UnitIsSmall();
    PowerGrows(1.0, base, n);
    if n > 0 {
      ExactlyPower(base, high);
      ExactlyPower(base, low);
      PowerIsNear(1.0, base, n, base, low, high, 0, 1);
      WithinIsNear(RoundedPower(base, n), base, low, high, n);
    }
  }

  lemma RoundedPowerIsExact(base: real, n: nat)
    requires base >= 1.0 && PowersAreDoubles(base, n)
    ensures RoundedPower(base, n) == Pow(base, n)
  {
    PowerIsExact(1.0, base, n, base, 0, 1);
  }

  lemma PowerOfTwoIsDouble(n: nat)
    ensures IsDouble(Pow(2.0, n))
  {
    PowOfTwo(n);
    IntegerIsDouble(1);
    DoubledIsDouble(1, n);
  }

  lemma PowersOfTwoAreDoubles(n: nat)
    ensures PowersAreDoubles(2.0, n)
  {
    forall k: nat | k <= n ensures IsDouble(Pow(2.0, k)) {
      PowerOfTwoIsDouble(k);
    }
  }

  /** The default base loses nothing at any exponent. */
  lemma PowersOfTwoAreExact(n: nat)
    ensures RoundedPower(2.0, n) == Pow(2.0, n)
  {
    PowersOfTwoAreDoubles(n);
    RoundedPowerIsExact(2.0, n);
  }
}

/** Unsigned machine words, and `core::time::Duration` counted in nanoseconds.
    A `Duration` holds a u64 of seconds and a u32 of nanoseconds, so it is a
    natural number up to MAX; every operation the crate uses saturates there. */
module Durations {
  const NANOS_PER_SEC: nat := 1_000_000_000
  const U32_MAX: nat := 0xFFFF_FFFF
  const U64_MAX: nat := 0xFFFF_FFFF_FFFF_FFFF
  const MAX: nat := (U64_MAX + 1) * NANOS_PER_SEC - 1

  type U32 = n: nat | n <= U32_MAX
  type U64 = n: nat | n <= U64_MAX
  type Duration = d: nat | d <= MAX

  datatype Option<+T> = None | Some(value: T)

  function Min(a: nat, b: nat): nat {
    if a <= b then a else b
  }

  function Max(a: nat, b: nat): nat {
    if a <= b then b else a
  }

  function Saturate(n: nat): Duration {
    Min(n, MAX)
  }

  function SatAdd(a: nat, b: nat): Duration {
    Saturate(a + b)
  }

  function SatSub(a: nat, b: nat): nat {
    if b <= a then a - b else 0
  }

  function SatMul(a: nat, k: nat): Duration {
    Saturate(a * k)
  }

  /** u32::saturating_add(1). */
  function SatInc(n: U32): U32 {
    if n == U32_MAX then n else n + 1
  }

  function Sum(xs: seq<nat>): nat {
    if xs == [] then 0 else xs[0] + Sum(xs[1..])
  }

  lemma {:induction false} SumAppend(xs: seq<nat>, x: nat)
    ensures Sum(xs + [x]) == Sum(xs) + x
  {
    if xs != [] {
      assert (xs + [x])[1..] == xs[1..] + [x];
      SumAppend(xs[1..], x);
    }
  }

  /** k * m, counted up. */
  function Steps(k: nat, m: nat): nat {
    if k == 0 then 0 else Steps(k - 1, m) + m
  }

  lemma {:induction false} StepsIsProduct(k: nat, m: nat)
    ensures Steps(k, m) == k * m
  {
    if k > 0 { StepsIsProduct(k - 1, m); }
  }

  function CeilDiv(n: nat, m: nat): nat
    requires m > 0
  {
    (n + m - 1) / m
  }

  lemma QuotientBounds(x: nat, m: nat, q: nat)
    requires m > 0 && q == x / m
    ensures q * m <= x < q * m + m
  {
  }

  lemma StepsMonotone(i: nat, j: nat, m: nat)
    requires i <= j
    ensures Steps(i, m) <= Steps(j, m)
    decreases j
  {
    if i < j { StepsMonotone(i, j - 1, m); }
  }

  /** CeilDiv(n, m) is the least number of steps of m that covers n. */
  lemma CeilDivLeast(n: nat, m: nat, k: nat)
    requires m > 0
    ensures n <= Steps(k, m) <==> CeilDiv(n, m) <= k
  {
    var q := CeilDiv(n, m);
    StepsIsProduct(q, m);
    QuotientBounds(n + m - 1, m, q);
    if q <= k {
      StepsMonotone(q, k, m);
    } else {
      StepsMonotone(k + 1, q, m);
    }
  }
}

/** The `SplitMix64` generator of src/wait/jitter.rs on unsigned 64-bit words,
    with wrap-around written out. */
module SplitMix {
  import opened Durations

  const WORDS: nat := U64_MAX + 1
  const GAMMA: U64 := 0x9e37_79b9_7f4a_7c15
  const MIX1: U64 := 0xbf58_476d_1ce4_e5b9
  const MIX2: U64 := 0x94d0_49bb_1331_11eb

  function WrappingAdd(a: U64, b: U64): U64 {
    (a + b) % WORDS
  }

  function WrappingMul(a: U64, b: U64): U64 {
    a * b % WORDS
  }

  function Xor(a: nat, b: nat): nat
    decreases a + b
  {
    if a == 0 && b == 0 then 0 else 2 * Xor(a / 2, b / 2) + (a + b) % 2
  }

  function Shr(a: nat, k: nat): nat {
    if k == 0 then a else Shr(a, k - 1) / 2
  }

  function XorWords(a: U64, b: U64): U64 {
    XorOfWords(a, b);
    Xor(a, b)
  }

  function ShrWord(z: U64, k: nat): U64 {
    ShrShrinks(z, k);
    Shr(z, k)
  }

  /** The output mix that `next_u64` applies to an advanced state. */
  function Finalize(z: U64): U64 {
    var z1 := WrappingMul(XorWords(z, ShrWord(z, 30)), MIX1);
    var z2 := WrappingMul(XorWords(z1, ShrWord(z1, 27)), MIX2);
    XorWords(z2, ShrWord(z2, 31))
  }

  // ----- the algebra of xor and shift -----

  lemma {:induction false} ShrShrinks(a: nat, k: nat)
    ensures Shr(a, k) <= a
  {
    if k > 0 { ShrShrinks(a, k - 1); }
  }

  lemma {:induction false} ShrTwice(a: nat, j: nat, k: nat)
    ensures Shr(Shr(a, j), k) == Shr(a, j + k)
  {
    if k > 0 { ShrTwice(a, j, k - 1); }
  }

  lemma ShrByte(a: nat, k: nat)
    ensures Shr(a, k + 8) == Shr(a, k) / 256
  {
    assert Shr(a, k + 2) == Shr(a, k) / 4;
    assert Shr(a, k + 4) == Shr(a, k + 2) / 4;
    assert Shr(a, k + 6) == Shr(a, k + 4) / 4;
    assert Shr(a, k + 8) == Shr(a, k + 6) / 4;
  }

  lemma ShrHalfWord(a: nat, k: nat)
    ensures Shr(a, k + 32) == Shr(a, k) / 0x1_0000_0000
  {
    ShrByte(a, k); ShrByte(a, k + 8); ShrByte(a, k + 16); ShrByte(a, k + 24);
  }

  lemma ShrWholeWord(a: nat)
    ensures Shr(a, 64) == a / WORDS
  {
    ShrHalfWord(a, 0);
    ShrHalfWord(a, 32);
  }

  lemma ShrPastWord(z: U64, k: nat)
    requires k >= 64
    ensures Shr(z, k) == 0
  {
    ShrWholeWord(z);
    ShrTwice(z, 64, k - 64);
    ShrShrinks(0, k - 64);
  }

  lemma HalfAndBit(half: nat, bit: nat)
    requires bit < 2
    ensures (2 * half + bit) / 2 == half && (2 * half + bit) % 2 == bit
  {
  }

  lemma XorParts(a: nat, b: nat)
    ensures Xor(a, b) / 2 == Xor(a / 2, b / 2) && Xor(a, b) % 2 == (a + b) % 2
  {
    HalfAndBit(Xor(a / 2, b / 2), (a + b) % 2);
  }

  lemma {:induction false} XorAssociative(a: nat, b: nat, c: nat)
    ensures Xor(Xor(a, b), c) == Xor(a, Xor(b, c))
    decreases a + b + c
  {
    if a + b + c > 0 {
      var ab, bc := Xor(a, b), Xor(b, c);
      XorParts(a, b);
      XorParts(b, c);
      ParityAssociative(a, b, c, ab, bc);
      XorParts(ab, c);
      XorParts(a, bc);
      XorAssociative(a / 2, b / 2, c / 2);
      SameParts(Xor(ab, c), Xor(a, bc));
    }
  }

  lemma SameParts(x: nat, y: nat)
    requires x / 2 == y / 2 && x % 2 == y % 2
    ensures x == y
  {
  }

  lemma ParityAssociative(a: nat, b: nat, c: nat, ab: nat, bc: nat)
    requires ab % 2 == (a + b) % 2 && bc % 2 == (b + c) % 2
    ensures (ab + c) % 2 == (a + bc) % 2
  {
  }

  lemma {:induction false} XorSelf(a: nat)
    ensures Xor(a, a) == 0
  {
    if a > 0 { XorSelf(a / 2); }
  }

  lemma {:induction false} XorZero(a: nat)
    ensures Xor(a, 0) == a && Xor(0, a) == a
  {
    if a > 0 { XorZero(a / 2); }
  }

  /** (a ^ b) ^ (b ^ c) = a ^ c */
  lemma XorCancel(a: nat, b: nat, c: nat)
    ensures Xor(Xor(a, b), Xor(b, c)) == Xor(a, c)
  {
    XorAssociative(a, b, Xor(b, c));
    XorAssociative(b, b, c);
    XorSelf(b);
    XorZero(c);
  }

  lemma {:induction false} XorShr(a: nat, b: nat, k: nat)
    ensures Shr(Xor(a, b), k) == Xor(Shr(a, k), Shr(b, k))
  {
    if k > 0 {
      XorShr(a, b, k - 1);
      XorParts(Shr(a, k - 1), Shr(b, k - 1));
    }
  }

  lemma XorOfWords(a: U64, b: U64)
    ensures Xor(a, b) <= U64_MAX
  {
    XorShr(a, b, 64);
    ShrPastWord(a, 64);
    ShrPastWord(b, 64);
    ShrWholeWord(Xor(a, b));
  }

  // ----- the output mix is a permutation -----

  function ShiftMix(z: U64, k: nat): U64 {
    XorWords(z, ShrWord(z, k))
  }

  /** z ^ z >> k ^ z >> 2k */
  function ShiftUnmix(z: U64, k: nat): U64 {
    XorWords(ShiftMix(z, k), ShrWord(z, 2 * k))
  }

  lemma ShiftMixInverse(z: U64, k: nat)
    requires 3 * k >= 64
    ensures ShiftUnmix(ShiftMix(z, k), k) == z
    ensures ShiftMix(ShiftUnmix(z, k), k) == z
  {
    var z1, z2, z3 := Shr(z, k), Shr(z, 2 * k), Shr(z, 3 * k);
    ShrTwice(z, k, k);
    ShrTwice(z, k, 2 * k);
    ShrTwice(z, 2 * k, k);
    ShrPastWord(z, 3 * k);
    XorZero(z); XorZero(z2);
    // unmix after mix: ((z ^ z1) ^ (z1 ^ z2)) ^ (z2 ^ 0)
    XorShr(z, z1, k);
    XorShr(z, z1, 2 * k);
    XorCancel(z, z1, z2);
    XorCancel(z, z2, 0);
    // mix after unmix: ((z ^ z1) ^ z2) ^ ((z1 ^ z2) ^ 0)
    XorShr(Xor(z, z1), z2, k);
    XorAssociative(z, z1, z2);
    XorZero(Xor(z1, z2));
    XorCancel(z, Xor(z1, z2), 0);
  }

  const GAMMA_INVERSE: U64 := 0xf1de_83e1_9937_733d
  const MIX1_INVERSE: U64 := 0x96de_1b17_3f11_9089
  const MIX2_INVERSE: U64 := 0x3196_42b2_d24d_8ec3

  lemma RemainderIs(x: nat, k: int, y: nat)
    requires y < WORDS && x == y + k * WORDS
    ensures x % WORDS == y
  {
    assert k >= 0;
  }

  lemma MulInverse(x: U64, m: U64, inverse: U64, k: nat)
    requires m * inverse == 1 + k * WORDS
    ensures WrappingMul(WrappingMul(x, m), inverse) == x
  {
    var q, r := x * m / WORDS, x * m % WORDS;
    assert x * m == q * WORDS + r;
    assert x * (m * inverse) == x + x * k * WORDS by {
      assert x * (1 + k * WORDS) == x + x * (k * WORDS);
      assert x * (k * WORDS) == x * k * WORDS;
    }
    assert x * (m * inverse) == (x * m) * inverse;
    assert (q * WORDS + r) * inverse == q * inverse * WORDS + r * inverse;
    assert r * inverse == x + (x * k - q * inverse) * WORDS;
    RemainderIs(r * inverse, x * k - q * inverse, x);
  }

  function Unfinalize(y: U64): U64 {
    var y2 := WrappingMul(ShiftUnmix(y, 31), MIX2_INVERSE);
    var y1 := WrappingMul(ShiftUnmix(y2, 27), MIX1_INVERSE);
    ShiftUnmix(y1, 30)
  }

  lemma FinalizeIsPermutation(z: U64)
    ensures Unfinalize(Finalize(z)) == z
    ensures Finalize(Unfinalize(z)) == z
  {
    var s0 := ShiftMix(z, 30);
    var z1 := WrappingMul(s0, MIX1);
    var s1 := ShiftMix(z1, 27);
    var z2 := WrappingMul(s1, MIX2);
    ShiftMixInverse(z, 30);
    ShiftMixInverse(z1, 27);
    ShiftMixInverse(z2, 31);
    MulInverse(s0, MIX1, MIX1_INVERSE, 8125545580553827436);
    MulInverse(s1, MIX2, MIX2_INVERSE, 2077064247507883091);
    var t2 := ShiftUnmix(z, 31);
    var y2 := WrappingMul(t2, MIX2_INVERSE);
    var t1 := ShiftUnmix(y2, 27);
    var y1 := WrappingMul(t1, MIX1_INVERSE);
    ShiftMixInverse(z, 31);
    ShiftMixInverse(y2, 27);
    ShiftMixInverse(y1, 30);
    MulInverse(t2, MIX2_INVERSE, MIX2, 2077064247507883091);
    MulInverse(t1, MIX1_INVERSE, MIX1, 8125545580553827436);
  }

  // ----- the state walk -----

  /** The state after n draws. */
  function Walk(seed: U64, n: nat): U64 {
    if n == 0 then seed else WrappingAdd(Walk(seed, n - 1), GAMMA)
  }

  lemma AddBeforeRemainder(x: nat, y: nat)
    ensures (x % WORDS + y) % WORDS == (x + y) % WORDS
  {
    var q := (x % WORDS + y) / WORDS + x / WORDS;
    RemainderIs(x + y, q, (x % WORDS + y) % WORDS);
  }

  lemma {:induction false} WalkClosedForm(seed: U64, n: nat)
    ensures Walk(seed, n) == (seed + n * GAMMA) % WORDS
  {
    if n > 0 {
      WalkClosedForm(seed, n - 1);
      AddBeforeRemainder(seed + (n - 1) * GAMMA, GAMMA);
    }
  }

  lemma EqualRemainders(x: nat, y: nat)
    requires x <= y
    ensures x % WORDS == y % WORDS ==> (y - x) % WORDS == 0
  {
  }

  /** No state recurs within 2^64 draws. */
  lemma WalkIsInjective(seed: U64, i: nat, j: nat)
    requires i < j < i + WORDS
    ensures Walk(seed, i) != Walk(seed, j)
  {
    WalkClosedForm(seed, i);
    WalkClosedForm(seed, j);
    EqualRemainders(seed + i * GAMMA, seed + j * GAMMA);
    assert (j - i) * GAMMA == (seed + j * GAMMA) - (seed + i * GAMMA);
    MulInverse(j - i, GAMMA, GAMMA_INVERSE, 10771413168148108919);
  }

  function StepsTo(seed: U64, target: U64): U64 {
    WrappingMul((target + WORDS - seed) % WORDS, GAMMA_INVERSE)
  }

  lemma BackToTarget(seed: U64, target: U64, x: nat, d: U64, q: nat)
    requires d == (target + WORDS - seed) % WORDS && x == q * WORDS + d
    ensures (seed + x) % WORDS == target
  {
    RemainderIs(seed + x, q + (if seed <= target then 0 else 1), target);
  }

  /** Every word is a state of every walk, within 2^64 draws. */
  lemma WalkCoversAllWords(seed: U64, target: U64)
    ensures Walk(seed, StepsTo(seed, target)) == target
  {
    var d := (target + WORDS - seed) % WORDS;
    var n := StepsTo(seed, target);
    MulInverse(d, GAMMA_INVERSE, GAMMA, 10771413168148108919);
    WalkClosedForm(seed, n);
    var q := n * GAMMA / WORDS;
    assert n * GAMMA == q * WORDS + d;
    BackToTarget(seed, target, n * GAMMA, d, q);
  }

  // ----- draws by several threads -----

  /** A draw: its place in the order of the atomic additions, and a value. */
  datatype Draw = Draw(index: nat, value: U64)

  /** `held` are the threads between their fetch_add and the end of the mix. */
  datatype System = System(state: U64, issued: nat, held: map<nat, Draw>, outputs: seq<Draw>)

  datatype Action = Fetch(thread: nat) | Emit(thread: nat)

  function Act(s: System, a: Action): System {
    match a
    case Fetch(t) =>
      if t in s.held then s
      else
        var state := WrappingAdd(s.state, GAMMA);
        System(state, s.issued + 1, s.held[t := Draw(s.issued + 1, state)], s.outputs)
    case Emit(t) =>
      if t !in s.held then s
      else
        var d := s.held[t];
        s.(held := s.held - {t}, outputs := s.outputs + [Draw(d.index, Finalize(d.value))])
  }

  function Interleave(seed: U64, schedule: seq<Action>): System {
    if schedule == [] then System(seed, 0, map[], [])
    else Act(Interleave(seed, schedule[..|schedule| - 1]), schedule[|schedule| - 1])
  }

  /** What a thread holds is the state of its place in the stream. */
  ghost predicate HeldFromStream(seed: U64, s: System) {
    && s.state == Walk(seed, s.issued)
    && (forall t <- s.held :: 1 <= s.held[t].index <= s.issued && s.held[t].value == Walk(seed, s.held[t].index))
    && (forall t <- s.held, u <- s.held :: t != u ==> s.held[t].index != s.held[u].index)
  }

  ghost predicate OutputsFromStream(seed: U64, s: System) {
    && (forall i :: 0 <= i < |s.outputs| ==>
          1 <= s.outputs[i].index <= s.issued && s.outputs[i].value == Finalize(Walk(seed, s.outputs[i].index)))
    && (forall i, j :: 0 <= i < j < |s.outputs| ==> s.outputs[i].index != s.outputs[j].index)
  }

  ghost predicate HeldAndOutputsApart(s: System) {
    forall i, t :: 0 <= i < |s.outputs| && t in s.held ==> s.outputs[i].index != s.held[t].index
  }

  ghost predicate Consistent(seed: U64, s: System) {
    HeldFromStream(seed, s) && OutputsFromStream(seed, s) && HeldAndOutputsApart(s)
  }

  /** Whatever the interleaving, the threads share out the sequential stream:
      the n-th atomic addition hands out state n to one thread only. */
  lemma {:induction false} InterleavingSharesOneStream(seed: U64, schedule: seq<Action>)
    ensures Consistent(seed, Interleave(seed, schedule))
    ensures var s := Interleave(seed, schedule); |s.held| + |s.outputs| == s.issued
  {
    if schedule != [] {
      InterleavingSharesOneStream(seed, schedule[..|schedule| - 1]);
      ActKeepsConsistent(seed, Interleave(seed, schedule[..|schedule| - 1]), schedule[|schedule| - 1]);
      ActLosesNothing(Interleave(seed, schedule[..|schedule| - 1]), schedule[|schedule| - 1]);
    }
  }

  lemma ActLosesNothing(s: System, a: Action)
    requires |s.held| + |s.outputs| == s.issued
    ensures |Act(s, a).held| + |Act(s, a).outputs| == Act(s, a).issued
  {
    if a.Emit? && a.thread in s.held {
      assert Act(s, a).held.Keys == s.held.Keys - {a.thread};
    }
  }

  lemma ActKeepsConsistent(seed: U64, s: System, a: Action)
    requires Consistent(seed, s)
    ensures Consistent(seed, Act(s, a))
  {
    match a
    case Fetch(t) => FetchKeepsConsistent(seed, s, t);
    case Emit(t) => EmitKeepsConsistent(seed, s, t);
  }

  lemma FetchKeepsConsistent(seed: U64, s: System, t: nat)
    requires Consistent(seed, s)
    ensures Consistent(seed, Act(s, Fetch(t)))
  {
  }

  lemma EmitKeepsConsistent(seed: U64, s: System, t: nat)
    requires Consistent(seed, s)
    ensures Consistent(seed, Act(s, Emit(t)))
  {
    if t in s.held {
      EmitKeepsHeld(seed, s, t);
      EmitExtendsOutputs(seed, s, s.held[t], Act(s, Emit(t)).outputs);
    }
  }

  lemma EmitKeepsHeld(seed: U64, s: System, t: nat)
    requires Consistent(seed, s) && t in s.held
    ensures HeldFromStream(seed, Act(s, Emit(t))) && HeldAndOutputsApart(Act(s, Emit(t)))
  {
    var s' := Act(s, Emit(t));
    assert forall u <- s'.held :: u in s.held && s'.held[u] == s.held[u];
    assert s'.outputs[..|s.outputs|] == s.outputs;
  }

  lemma EmitExtendsOutputs(seed: U64, s: System, d: Draw, outputs: seq<Draw>)
    requires OutputsFromStream(seed, s) && 1 <= d.index <= s.issued && d.value == Walk(seed, d.index)
    requires forall i :: 0 <= i < |s.outputs| ==> s.outputs[i].index != d.index
    requires outputs == s.outputs + [Draw(d.index, Finalize(d.value))]
    ensures OutputsFromStream(seed, s.(outputs := outputs))
  {
  }

  function ActAll(s: System, actions: seq<Action>): System
    decreases actions
  {
    if actions == [] then s else ActAll(Act(s, actions[0]), actions[1..])
  }

  /** No action of another thread touches what a thread holds. */
  lemma {:induction false} HeldIsSafe(s: System, actions: seq<Action>, t: nat)
    requires t in s.held && forall a <- actions :: a.thread != t
    ensures t in ActAll(s, actions).held && ActAll(s, actions).held[t] == s.held[t]
    decreases actions
  {
    if actions != [] {
      HeldIsSafe(Act(s, actions[0]), actions[1..], t);
    }
  }

  /** A thread that draws obtains the next word of the stream, whatever other threads
      do between its addition and the end of its mix. */
  lemma EveryDrawIsObtained(seed: U64, s: System, t: nat, others: seq<Action>)
    requires Consistent(seed, s) && t !in s.held && forall a <- others :: a.thread != t
    ensures var before := ActAll(Act(s, Fetch(t)), others);
            var after := Act(before, Emit(t));
            && after.outputs == before.outputs + [Draw(s.issued + 1, Finalize(Walk(seed, s.issued + 1)))]
            && t !in after.held
  {
    HeldIsSafe(Act(s, Fetch(t)), others, t);
  }

  /** Up to 2^64 draws, no two threads ever obtain the same value. */
  lemma ConcurrentDrawsAreDistinct(seed: U64, schedule: seq<Action>, i: nat, j: nat)
    requires Interleave(seed, schedule).issued <= WORDS
    requires i < j < |Interleave(seed, schedule).outputs|
    ensures Interleave(seed, schedule).outputs[i].value != Interleave(seed, schedule).outputs[j].value
  {
    InterleavingSharesOneStream(seed, schedule);
    var outputs := Interleave(seed, schedule).outputs;
    var a, b := outputs[i].index, outputs[j].index;
    WalkIsInjective(seed, Min(a, b), Max(a, b));
    FinalizeIsInjective(Walk(seed, a), Walk(seed, b));
  }

  // ----- seeding -----

  function SeededState(seed: U64, nonce: U64): U64 {
    XorWords(seed, nonce)
  }

  /** Seed and nonce are combined without loss: either is recovered by the other. */
  lemma SeedAndNonceRecovered(seed: U64, nonce: U64)
    ensures XorWords(SeededState(seed, nonce), nonce) == seed
    ensures XorWords(seed, SeededState(seed, nonce)) == nonce
  {
    XorZero(seed);
    XorZero(nonce);
    XorAssociative(seed, nonce, nonce);
    XorAssociative(seed, seed, nonce);
    XorSelf(seed);
    XorSelf(nonce);
  }

  function DeriveNonce(seed: U64): U64 {
    Finalize(Walk(seed, 1))
  }

  /** The derived nonce is the word of the first state after the seed, so different
      seeds derive different nonces. */
  lemma NonceIsFirstWord(seed: U64)
    ensures Unfinalize(DeriveNonce(seed)) == (seed + GAMMA) % WORDS
  {
    WalkClosedForm(seed, 1);
    FinalizeIsPermutation(Walk(seed, 1));
  }

  lemma ShiftedApart(x: U64, y: U64, shift: nat)
    requires x < y
    ensures (x + shift) % WORDS != (y + shift) % WORDS
  {
    EqualRemainders(x + shift, y + shift);
  }

  lemma DistinctSeeds(seed: U64, nonce1: U64, nonce2: U64)
    requires nonce1 != nonce2
    ensures SeededState(seed, nonce1) != SeededState(seed, nonce2)
  {
    XorCancel(0, seed, nonce1);
    XorCancel(0, seed, nonce2);
    XorZero(seed);
    XorZero(nonce1);
    XorZero(nonce2);
  }

  lemma WalksStayApart(s1: U64, s2: U64, n: nat)
    requires s1 != s2
    ensures Walk(s1, n) != Walk(s2, n)
  {
    WalkClosedForm(s1, n);
    WalkClosedForm(s2, n);
    ShiftedApart(Min(s1, s2), Max(s1, s2), n * GAMMA);
  }

  lemma FinalizeIsInjective(x: U64, y: U64)
    requires x != y
    ensures Finalize(x) != Finalize(y)
  {
    FinalizeIsPermutation(x);
    FinalizeIsPermutation(y);
  }

  /** Copies of one seed under different nonces disagree at every draw. */
  lemma DifferentNoncesNeverAgree(seed: U64, nonce1: U64, nonce2: U64, n: nat)
    requires nonce1 != nonce2
    ensures Finalize(Walk(SeededState(seed, nonce1), n)) != Finalize(Walk(SeededState(seed, nonce2), n))
  {
    var s1, s2 := SeededState(seed, nonce1), SeededState(seed, nonce2);
    DistinctSeeds(seed, nonce1, nonce2);
    WalksStayApart(s1, s2, n);
    FinalizeIsInjective(Walk(s1, n), Walk(s2, n));
  }

  /** The generator object: one cell, advanced in place by every draw. */
  class SplitMix64 {
    var state: U64

    constructor (seed: U64)
      ensures state == seed
    {
      state := seed;
    }

    method Advance() returns (next: U64)
      modifies this
      ensures next == state == Walk(old(state), 1)
    {
      state := WrappingAdd(state, GAMMA);
      next := state;
    }

    method NextU64() returns (word: U64)
      modifies this
      ensures state == Walk(old(state), 1) && word == Finalize(state)
    {
      var z := Advance();
      z := WrappingMul(XorWords(z, ShrWord(z, 30)), MIX1);
      z := WrappingMul(XorWords(z, ShrWord(z, 27)), MIX2);
      word := XorWords(z, ShrWord(z, 31));
    }

    /** The draw is what is left of the next word after whole ranges. */
    method NextBounded(max: U64) returns (word: U64)
      modifies this
      ensures state == Walk(old(state), 1) && word == Bounded(state, max)
      ensures IsRemainder(Finalize(state), max, word)
    {
      if max == U64_MAX {
        word := NextU64();
        RemainderIsReduced(word, max);
        return;
      }
      var range := max + 1;
      word := NextU64();
      RemainderIsReduced(word, max);
      word := word % range;
    }
  }

  /** r is what is left of the word after whole ranges of max + 1. */
  ghost predicate IsRemainder(word: U64, max: U64, r: nat) {
    r <= max && exists q: nat :: word == WholeRanges(q, max) + r
  }

  function WholeRanges(q: nat, max: U64): nat {
    q * (max + 1)
  }

  lemma RemainderIsReduced(word: U64, max: U64)
    ensures IsRemainder(word, max, Reduced(word, max))
  {
    var q, r := word / (max + 1), word % (max + 1);
    assert word == q * (max + 1) + r;
    assert word == WholeRanges(q, max) + Reduced(word, max);
  }

  lemma QuotientsAgree(p: nat, q: nat, m: nat, x: nat, y: nat)
    requires x < m && y < m && p * m + x == q * m + y
    ensures p == q && x == y
  {
    if p < q {
      MoreRanges(p, q, m);
    } else if q < p {
      MoreRanges(q, p, m);
    }
  }

  lemma OneMoreRange(q: nat, m: nat)
    ensures (q + 1) * m == q * m + m
  {
  }

  lemma {:induction false} MoreRanges(p: nat, q: nat, m: nat)
    requires p < q
    ensures q * m >= p * m + m
    decreases q
  {
    OneMoreRange(q - 1, m);
    if p < q - 1 { MoreRanges(p, q - 1, m); }
  }

  /** A bounded draw is the one such remainder. */
  lemma ReducedIsTheRemainder(word: U64, max: U64, r: nat)
    ensures IsRemainder(word, max, r) <==> r == Reduced(word, max)
  {
    RemainderIsReduced(word, max);
    if IsRemainder(word, max, r) {
      var p: nat :| word == WholeRanges(p, max) + Reduced(word, max);
      var q: nat :| word == WholeRanges(q, max) + r;
      QuotientsAgree(p, q, max + 1, Reduced(word, max), r);
    }
  }

  lemma RemainderBounds(x: nat, m: nat)
    requires m > 0
    ensures x % m < m && (x < m ==> x % m == x)
  {
  }

  /** A word reduced to [0, max]. */
  function Reduced(word: U64, max: U64): (r: U64)
    ensures r <= max
    ensures word <= max ==> r == word
  {
    RemainderBounds(word, max + 1);
    word % (max + 1)
  }

  /** The bounded draw made from an advanced state. */
  function Bounded(state: U64, max: U64): (r: U64)
    ensures r <= max
  {
    Reduced(Finalize(state), max)
  }
}

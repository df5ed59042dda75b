/** Wait strategies (src/wait): leaves, `+`, cap, chain and jitter. */
module Waits {
  import opened Durations
  import opened States
  import opened Floats
  import opened Powers
  import opened WaitMath
  import opened SplitMix

  const DEFAULT_JITTER_SEED: U64 := 0x5A5A_5A5A_5A5A_5A5A

  /** Every exponential base has been through ClampExponentialBase. */
  type Base = b: real | b >= 1.0 && IsDouble(b) witness HALF_TOP

  datatype JitterKind = Additive(maxJitter: Duration) | Full | Equal | Decorrelated

  /** A jittered node owns its generator, whose state is `rng`. `Custom` is a user
      strategy that may answer from everything it has been asked. `WithinBudget`
      is the user strategy min(inner, deadline - elapsed). */
  datatype Wait =
    | Fixed(duration: Duration)
    | Linear(initial: Duration, increment: Duration)
    | Exponential(start: Duration, base: Base)
    | Capped(inner: Wait, max: Duration)
    | Combine(left: Wait, right: Wait)
    | Chain(first: Wait, second: Wait, after: U32)
    | Jittered(inner: Wait, kind: JitterKind, seed: U64, rng: U64)
    | WithinBudget(inner: Wait, deadline: Duration)
    | Custom(answer: seq<RetryState> -> Duration, seen: seq<RetryState>)

  /** A uniform draw from [lower, upper], or `lower` and no draw when empty. */
  function RandomIn(lower: Duration, upper: Duration, rng: U64): (Duration, U64) {
    var range := SatSub(upper, lower);
    if range == 0 then (lower, rng)
    else
      var rng' := Walk(rng, 1);
      (SatAdd(lower, Bounded(rng', Min(range, U64_MAX))), rng')
  }

  function Jitter(kind: JitterKind, base: Duration, previousDelay: Option<Duration>, rng: U64): (Duration, U64) {
    match kind
    case Additive(maxJitter) =>
      var (jitter, rng') := RandomIn(0, maxJitter, rng);
      (SatAdd(base, jitter), rng')
    case Full => RandomIn(0, base, rng)
    case Equal =>
      var half := base / 2;
      var (jitter, rng') := RandomIn(0, half, rng);
      (SatAdd(half, jitter), rng')
    case Decorrelated =>
      var previous := match previousDelay case Some(d) => d case None => base;
      RandomIn(base, SatMul(previous, 3), rng)
  }

  /** One consultation: the delay, and the strategy as the call leaves it. */
  function NextWait(wait: Wait, state: RetryState): (Duration, Wait) {
    match wait
    case Fixed(duration) => (duration, wait)
    case Linear(initial, increment) =>
      (SatAdd(initial, SatMul(increment, SatSub(state.attempt, 1))), wait)
    case Exponential(start, base) =>
      (SatMulF64(start, PowSaturated(Fin(base), SatSub(state.attempt, 1))), wait)
    case Capped(inner, max) =>
      var (delay, inner') := NextWait(inner, state);
      (Min(delay, max), Capped(inner', max))
    case Combine(l, r) =>
      var (left, l') := NextWait(l, state);
      var (right, r') := NextWait(r, state);
      (SatAdd(left, right), Combine(l', r'))
    case Chain(first, second, after) =>
      if state.attempt <= after then
        var (delay, first') := NextWait(first, state);
        (delay, Chain(first', second, after))
      else
        var (delay, second') := NextWait(second, state);
        (delay, Chain(first, second', after))
    case Jittered(inner, kind, seed, rng) =>
      var (base, inner') := NextWait(inner, state);
      var (delay, rng') := Jitter(kind, base, state.previousDelay, rng);
      (delay, Jittered(inner', kind, seed, rng'))
    case WithinBudget(inner, deadline) =>
      var (delay, inner') := NextWait(inner, state);
      (Min(delay, SatSub(deadline, state.elapsed)), WithinBudget(inner', deadline))
    case Custom(answer, seen) => (answer(seen + [state]), Custom(answer, seen + [state]))
  }

  // ----- builders -----

  function WithBase(wait: Wait, base: F64): Wait
    requires wait.Exponential? && IsF64(base)
  {
    OneIsGrown();
    wait.(base := ClampExponentialBase(base).v)
  }

  /** The builder keeps a base from 1 on and takes every other for 1, so backoff
      grows by the given base or stays at its start. */
  lemma RebasedDelay(start: Duration, given: Base, base: F64, state: RetryState)
    requires IsF64(base)
    ensures NextWait(WithBase(Exponential(start, given), base), state).0 ==
            Saturate(if base.Fin? && base.v >= 1.0 then Growth(start, base.v, SatSub(state.attempt, 1))
                     else AsDouble(start))
  {
    BaseIsClamped(base);
    OneIsGrown();
    ExponentialDelay(start, ClampExponentialBase(base).v, state);
    if !base.Fin? || base.v < 1.0 {
      GrowthOfOne(start, SatSub(state.attempt, 1));
    }
  }

  function NewJittered(inner: Wait, kind: JitterKind, nonce: U64): Wait {
    Jittered(inner, kind, DEFAULT_JITTER_SEED, SeededState(DEFAULT_JITTER_SEED, nonce))
  }

  /** `.jitter(max)`: a cap below it is moved to the outside. */
  function AddJitter(wait: Wait, maxJitter: Duration, nonce: U64): Wait {
    match wait
    case Capped(inner, max) => Capped(NewJittered(inner, Additive(maxJitter), nonce), max)
    case _ => NewJittered(wait, Additive(maxJitter), nonce)
  }

  /** Clone: every jittered node gets the next nonce, the innermost first; a user
      strategy is taken to copy what it remembers. */
  function CloneWait(wait: Wait, nonces: nat -> U64, next: nat): (Wait, nat) {
    match wait
    case Capped(inner, max) =>
      var (inner', next') := CloneWait(inner, nonces, next);
      (Capped(inner', max), next')
    case Combine(l, r) =>
      var (l', next') := CloneWait(l, nonces, next);
      var (r', next'') := CloneWait(r, nonces, next');
      (Combine(l', r'), next'')
    case Chain(first, second, after) =>
      var (first', next') := CloneWait(first, nonces, next);
      var (second', next'') := CloneWait(second, nonces, next');
      (Chain(first', second', after), next'')
    case Jittered(inner, kind, seed, _) =>
      var (inner', next') := CloneWait(inner, nonces, next);
      (Jittered(inner', kind, seed, SeededState(seed, nonces(next'))), next' + 1)
    case WithinBudget(inner, deadline) =>
      var (inner', next') := CloneWait(inner, nonces, next);
      (WithinBudget(inner', deadline), next')
    case _ => (wait, next)
  }

  // ----- what the leaves of a tree are asked -----

  /** A wait strategy consulted at each of the states in turn. */
  function Asked(wait: Wait, states: seq<RetryState>): Wait {
    if states == [] then wait else NextWait(Asked(wait, states[..|states| - 1]), states[|states| - 1]).1
  }

  lemma AskedMore(start: Wait, states: seq<RetryState>, state: RetryState, wait: Wait)
    requires wait == Asked(start, states)
    ensures NextWait(wait, state).1 == Asked(start, states + [state])
  {
    assert (states + [state])[..|states|] == states;
  }

  /** The states of attempts up to `after`, and those of later attempts. */
  function Early(states: seq<RetryState>, after: U32): seq<RetryState> {
    if states == [] then []
    else
      var init, last := states[..|states| - 1], states[|states| - 1];
      if last.attempt <= after then Early(init, after) + [last] else Early(init, after)
  }

  function Late(states: seq<RetryState>, after: U32): seq<RetryState> {
    if states == [] then []
    else
      var init, last := states[..|states| - 1], states[|states| - 1];
      if last.attempt > after then Late(init, after) + [last] else Late(init, after)
  }

  lemma EarlyAndLateMore(states: seq<RetryState>, state: RetryState, after: U32)
    ensures Early(states + [state], after) ==
            if state.attempt <= after then Early(states, after) + [state] else Early(states, after)
    ensures Late(states + [state], after) ==
            if state.attempt > after then Late(states, after) + [state] else Late(states, after)
  {
    assert (states + [state])[..|states|] == states;
  }

  /** The tree with the given consultations pushed to its leaves, a chain passing
      each to one side only; the states of the generators are left out. */
  function Told(wait: Wait, states: seq<RetryState>): Wait {
    match wait
    case Capped(inner, max) => Capped(Told(inner, states), max)
    case Combine(l, r) => Combine(Told(l, states), Told(r, states))
    case Chain(first, second, after) =>
      Chain(Told(first, Early(states, after)), Told(second, Late(states, after)), after)
    case Jittered(inner, kind, seed, _) => Jittered(Told(inner, states), kind, seed, 0)
    case WithinBudget(inner, deadline) => WithinBudget(Told(inner, states), deadline)
    case Custom(answer, seen) => Custom(answer, seen + states)
    case _ => wait
  }

  lemma ToldNothing(first: Wait, second: Wait, after: U32)
    ensures Told(Chain(first, second, after), []) == Chain(Told(first, []), Told(second, []), after)
  {
    assert Early([], after) == [] && Late([], after) == [];
  }

  lemma ToldOneMore(first: Wait, second: Wait, after: U32, states: seq<RetryState>, state: RetryState)
    ensures Told(Chain(first, second, after), states + [state]) ==
            if state.attempt <= after
            then Chain(Told(first, Early(states, after) + [state]), Told(second, Late(states, after)), after)
            else Chain(Told(first, Early(states, after)), Told(second, Late(states, after) + [state]), after)
  {
    EarlyAndLateMore(states, state, after);
  }

  /** A chain whose consulted side has gone from `first` to `first'`, or from
      `second` to `second'`. */
  lemma ChainIsAsked(first: Wait, first': Wait, second: Wait, second': Wait, start: Wait,
                     states: seq<RetryState>, state: RetryState)
    requires start.Chain?
    requires Told(first, []) == Told(start.first, Early(states, start.after))
    requires Told(second, []) == Told(start.second, Late(states, start.after))
    requires state.attempt <= start.after ==>
               Told(first', []) == Told(start.first, Early(states, start.after) + [state])
    requires state.attempt > start.after ==>
               Told(second', []) == Told(start.second, Late(states, start.after) + [state])
    ensures var after := start.after;
            var asked := if state.attempt <= after then Chain(first', second, after) else Chain(first, second', after);
            Told(asked, []) == Told(start, states + [state])
  {
    ToldOneMore(start.first, start.second, start.after, states, state);
    ToldNothing(first', second, start.after);
    ToldNothing(first, second', start.after);
  }

  /** One consultation of the root is one consultation of every leaf that its
      chains let through. `wait` stands where `start` has been told `states`. */
  lemma {:induction false} EveryWaitLeafIsAsked(wait: Wait, start: Wait, states: seq<RetryState>, state: RetryState)
    requires Told(wait, []) == Told(start, states)
    ensures Told(NextWait(wait, state).1, []) == Told(start, states + [state])
  {
    match wait
    case Capped(inner, _) => EveryWaitLeafIsAsked(inner, start.inner, states, state);
    case Combine(l, r) =>
      EveryWaitLeafIsAsked(l, start.left, states, state);
      EveryWaitLeafIsAsked(r, start.right, states, state);
    case Chain(first, second, after) =>
      ToldNothing(first, second, after);
      if state.attempt <= after {
        EveryWaitLeafIsAsked(first, start.first, Early(states, after), state);
      } else {
        EveryWaitLeafIsAsked(second, start.second, Late(states, after), state);
      }
      ChainIsAsked(first, NextWait(first, state).1, second, NextWait(second, state).1, start, states, state);
    case Jittered(inner, _, _, _) => EveryWaitLeafIsAsked(inner, start.inner, states, state);
    case WithinBudget(inner, _) => EveryWaitLeafIsAsked(inner, start.inner, states, state);
    case Custom(answer, seen) =>
      assert seen + [] == seen;
      assert seen + [state] + [] == seen + [state] == start.seen + (states + [state]);
    case _ =>
  }

  /** A clone is the same strategy with the same memories and bounds; only its
      generators are its own. */
  lemma {:induction false} CloneIsTheSameStrategy(wait: Wait, nonces: nat -> U64, next: nat, state: RetryState)
    ensures var copy := CloneWait(wait, nonces, next).0;
            && Told(copy, []) == Told(wait, [])
            && Low(copy, state) == Low(wait, state) && High(copy, state) == High(wait, state)
  {
    match wait
    case Capped(inner, _) => CloneIsTheSameStrategy(inner, nonces, next, state);
    case Combine(l, r) =>
      CloneIsTheSameStrategy(l, nonces, next, state);
      CloneIsTheSameStrategy(r, nonces, CloneWait(l, nonces, next).1, state);
    case Chain(first, second, _) =>
      CloneIsTheSameStrategy(first, nonces, next, state);
      CloneIsTheSameStrategy(second, nonces, CloneWait(first, nonces, next).1, state);
    case Jittered(inner, _, _, _) => CloneIsTheSameStrategy(inner, nonces, next, state);
    case WithinBudget(inner, _) => CloneIsTheSameStrategy(inner, nonces, next, state);
    case _ =>
  }

  // ----- interval soundness -----

  function Low(wait: Wait, state: RetryState): Duration {
    match wait
    case Fixed(duration) => duration
    case Linear(_, _) => NextWait(wait, state).0
    case Exponential(_, _) => NextWait(wait, state).0
    case Capped(inner, max) => Min(Low(inner, state), max)
    case Combine(l, r) => SatAdd(Low(l, state), Low(r, state))
    case Chain(first, second, after) => if state.attempt <= after then Low(first, state) else Low(second, state)
    case Jittered(inner, kind, _, _) =>
      (match kind
       case Additive(_) => Low(inner, state)
       case Full => 0
       case Equal => Low(inner, state) / 2
       case Decorrelated => Low(inner, state))
    case WithinBudget(inner, deadline) => Min(Low(inner, state), SatSub(deadline, state.elapsed))
    case Custom(_, _) => 0
  }

  function High(wait: Wait, state: RetryState): Duration {
    match wait
    case Fixed(duration) => duration
    case Linear(_, _) => NextWait(wait, state).0
    case Exponential(_, _) => NextWait(wait, state).0
    case Capped(inner, max) => Min(High(inner, state), max)
    case Combine(l, r) => SatAdd(High(l, state), High(r, state))
    case Chain(first, second, after) => if state.attempt <= after then High(first, state) else High(second, state)
    case Jittered(inner, kind, _, _) =>
      (match kind
       case Additive(maxJitter) => SatAdd(High(inner, state), maxJitter)
       case Full => High(inner, state)
       case Equal => High(inner, state)
       case Decorrelated =>
         (match state.previousDelay
          case Some(previous) => Max(High(inner, state), SatMul(previous, 3))
          case None => SatMul(High(inner, state), 3)))
    case WithinBudget(inner, deadline) => Min(High(inner, state), SatSub(deadline, state.elapsed))
    case Custom(_, _) => MAX
  }

  lemma RandomInRange(lower: Duration, upper: Duration, rng: U64)
    ensures lower <= RandomIn(lower, upper, rng).0 <= Max(lower, upper)
  {
  }

  lemma JitterInRange(kind: JitterKind, base: Duration, previous: Option<Duration>, rng: U64)
    ensures var delay := Jitter(kind, base, previous, rng).0;
            match kind
            case Additive(maxJitter) => base <= delay <= SatAdd(base, maxJitter)
            case Full => delay <= base
            case Equal => base / 2 <= delay <= base
            case Decorrelated => base <= delay <= Max(base, SatMul(if previous.Some? then previous.value else base, 3))
  {
    match kind
    case Additive(maxJitter) => RandomInRange(0, maxJitter, rng);
    case Full => RandomInRange(0, base, rng);
    case Equal => RandomInRange(0, base / 2, rng);
    case Decorrelated =>
      RandomInRange(base, SatMul(if previous.Some? then previous.value else base, 3), rng);
  }

  lemma JitteredInInterval(wait: Wait, state: RetryState)
    requires wait.Jittered?
    requires Low(wait.inner, state) <= NextWait(wait.inner, state).0 <= High(wait.inner, state)
    ensures Low(wait, state) <= NextWait(wait, state).0 <= High(wait, state)
  {
    JitterInRange(wait.kind, NextWait(wait.inner, state).0, state.previousDelay, wait.rng);
  }

  /** Every delay of every tree lies in its interval, whatever the generators and
      the custom leaves do. */
  lemma {:induction false} NextWaitInInterval(wait: Wait, state: RetryState)
    ensures Low(wait, state) <= NextWait(wait, state).0 <= High(wait, state)
  {
    match wait
    case Capped(inner, _) => NextWaitInInterval(inner, state);
    case Combine(l, r) => NextWaitInInterval(l, state); NextWaitInInterval(r, state);
    case Chain(first, second, after) =>
      NextWaitInInterval(first, state);
      NextWaitInInterval(second, state);
    case Jittered(inner, _, _, _) =>
      NextWaitInInterval(inner, state);
      JitteredInInterval(wait, state);
    case WithinBudget(inner, _) => NextWaitInInterval(inner, state);
    case _ =>
  }

  /** Being consulted changes generators and memories, never the interval. */
  lemma {:induction false} IntervalIsStable(wait: Wait, asked: RetryState, state: RetryState)
    ensures Low(NextWait(wait, asked).1, state) == Low(wait, state)
    ensures High(NextWait(wait, asked).1, state) == High(wait, state)
  {
    match wait
    case Capped(inner, _) => IntervalIsStable(inner, asked, state);
    case Combine(l, r) => IntervalIsStable(l, asked, state); IntervalIsStable(r, asked, state);
    case Chain(first, second, _) => IntervalIsStable(first, asked, state); IntervalIsStable(second, asked, state);
    case Jittered(inner, _, _, _) => IntervalIsStable(inner, asked, state);
    case WithinBudget(inner, _) => IntervalIsStable(inner, asked, state);
    case _ =>
  }

  /** No jitter applied through the builders to a capped strategy breaches the cap. */
  lemma JitterNeverBreachesCap(inner: Wait, max: Duration, maxJitter: Duration, kind: JitterKind, nonce: U64,
                               state: RetryState)
    requires kind.Full? || kind.Equal?
    ensures NextWait(AddJitter(Capped(inner, max), maxJitter, nonce), state).0 <= max
    ensures NextWait(NewJittered(Capped(inner, max), kind, nonce), state).0 <= max
  {
    NextWaitInInterval(AddJitter(Capped(inner, max), maxJitter, nonce), state);
    NextWaitInInterval(NewJittered(Capped(inner, max), kind, nonce), state);
  }

  /** The generator state whose next output is `word`. */
  function StateBefore(word: U64): U64 {
    (Unfinalize(word) + WORDS - GAMMA) % WORDS
  }

  lemma StateBeforeWord(word: U64)
    ensures Finalize(Walk(StateBefore(word), 1)) == word
  {
    FinalizeIsPermutation(word);
    AddBeforeRemainder(Unfinalize(word) + WORDS - GAMMA, GAMMA);
    RemainderIs(Unfinalize(word) + WORDS, 1, Unfinalize(word));
    assert Walk(StateBefore(word), 1) == WrappingAdd(Walk(StateBefore(word), 0), GAMMA);
  }

  lemma BoundedWord(word: U64, max: U64)
    requires word <= max
    ensures Bounded(Walk(StateBefore(word), 1), max) == word
  {
    StateBeforeWord(word);
    assert Reduced(word, max) == word;
  }

  /** Every duration that lies in the range, and within one word of its lower end,
      is drawn from some generator state. */
  lemma EveryDurationIsDrawn(lower: Duration, upper: Duration, target: Duration)
    requires lower <= target <= Min(upper, lower + U64_MAX)
    ensures RandomIn(lower, upper, StateBefore(target - lower)).0 == target
  {
    BoundedWord(target - lower, Min(upper - lower, U64_MAX));
  }

  ghost predicate CanDraw(lower: Duration, upper: Duration, target: Duration) {
    exists rng: U64 :: RandomIn(lower, upper, rng).0 == target
  }

  /** The durations that can be drawn, exactly: the bounds are tight because the
      output mix is onto, and a range wider than 2^64 - 1 ns is cut there. */
  lemma DrawableDurations(lower: Duration, upper: Duration, target: Duration)
    requires lower <= upper
    ensures CanDraw(lower, upper, target) <==> lower <= target <= Min(upper, lower + U64_MAX)
  {
    if lower <= target <= Min(upper, lower + U64_MAX) {
      EveryDurationIsDrawn(lower, upper, target);
    }
  }

  /** Additive jitter left outside a cap, with its generator in state rng. */
  function JitterOutside(inner: Wait, max: Duration, maxJitter: Duration, seed: U64, rng: U64): Wait {
    Jittered(Capped(inner, max), Additive(maxJitter), seed, rng)
  }

  ghost predicate CanBreachCap(inner: Wait, max: Duration, maxJitter: Duration, seed: U64, state: RetryState) {
    exists rng: U64 :: NextWait(JitterOutside(inner, max, maxJitter, seed, rng), state).0 > max
  }

  /** Hence the normalisation is needed: additive jitter left outside a cap can
      breach it whenever the capped delay and the longest draw add up to more. */
  lemma UnnormalisedJitterBreachesCap(inner: Wait, max: Duration, maxJitter: Duration, seed: U64, state: RetryState)
    ensures CanBreachCap(inner, max, maxJitter, seed, state) <==>
            max < MAX && NextWait(Capped(inner, max), state).0 + Min(maxJitter, U64_MAX) > max
  {
    var longest := Min(maxJitter, U64_MAX);
    DrawableDurations(0, maxJitter, longest);
    var most: U64 :| RandomIn(0, maxJitter, most).0 == longest;
    AdditiveDraw(inner, max, maxJitter, seed, most, state);
    forall rng: U64 ensures RandomIn(0, maxJitter, rng).0 <= longest {
      DrawableDurations(0, maxJitter, RandomIn(0, maxJitter, rng).0);
    }
    forall rng: U64 {
      AdditiveDraw(inner, max, maxJitter, seed, rng, state);
    }
  }

  lemma AdditiveDraw(inner: Wait, max: Duration, maxJitter: Duration, seed: U64, rng: U64, state: RetryState)
    ensures NextWait(JitterOutside(inner, max, maxJitter, seed, rng), state).0 ==
            SatAdd(NextWait(Capped(inner, max), state).0, RandomIn(0, maxJitter, rng).0)
  {
  }

  // ----- saturation commutes with evaluation -----

  predicate JitterFree(wait: Wait) {
    match wait
    case Capped(inner, _) => JitterFree(inner)
    case Combine(l, r) => JitterFree(l) && JitterFree(r)
    case Chain(first, second, _) => JitterFree(first) && JitterFree(second)
    case Fixed(_) => true
    case Linear(_, _) => true
    case Exponential(_, _) => true
    case _ => false
  }

  /** The delay in unbounded arithmetic. */
  function Ideal(wait: Wait, attempt: U32): nat
    requires JitterFree(wait)
  {
    var n := SatSub(attempt, 1);
    match wait
    case Fixed(duration) => duration
    case Linear(initial, increment) => initial + n * increment
    case Exponential(start, base) => Growth(start, base, n)
    case Capped(inner, max) => Min(Ideal(inner, attempt), max)
    case Combine(l, r) => Ideal(l, attempt) + Ideal(r, attempt)
    case Chain(first, second, after) => if attempt <= after then Ideal(first, attempt) else Ideal(second, attempt)
  }

  /** Exponential growth with rounded products, as if neither f64 nor Duration had
      a largest value. */
  function Growth(start: Duration, base: Base, n: nat): nat {
    RoundedPowerGrows(base, n);
    ScaledNonNegative(start, RoundedPower(base, n));
    Scaled(start, RoundedPower(base, n)).Floor
  }

  lemma {:induction false} PowOfOne(n: nat)
    ensures Pow(1.0, n) == 1.0
  {
    if n > 0 { PowOfOne(n - 1); }
  }

  lemma RoundedPowerOfOne(n: nat)
    ensures RoundedPower(1.0, n) == 1.0
  {
    OneIsGrown();
    forall k: nat | k <= n ensures IsDouble(Pow(1.0, k)) {
      PowOfOne(k);
    }
    RoundedPowerIsExact(1.0, n);
    PowOfOne(n);
  }

  lemma SaturatedPower(base: Base, n: U32)
    ensures PowSaturated(Fin(base), n) == Overflow(RoundedPower(base, n))
  {
    F64MaxIsLarge();
    if base == 1.0 {
      RoundedPowerOfOne(n);
    }
  }

  /** An infinite multiplier and a true product beyond MAX give the same delay. */
  lemma ExponentialIsIdeal(start: Duration, base: Base, n: U32)
    ensures SatMulF64(start, PowSaturated(Fin(base), n)) == Saturate(Growth(start, base, n))
  {
    SaturatedPower(base, n);
    RoundedPowerGrows(base, n);
    SatMulF64OfOverflow(start, RoundedPower(base, n));
  }

  lemma FloorOfInteger(n: nat)
    ensures (n as real).Floor == n
  {
  }

  /** A duration as an f64 holds it: a whole number of nanoseconds still, with 53
      significant bits. */
  function AsDouble(start: Duration): nat {
    NearestMonotone(0.0, start as real);
    Nearest(start as real).Floor
  }

  lemma AsDoubleIsNearest(start: Duration)
    ensures AsDouble(start) as real == Nearest(start as real) && IsDouble(AsDouble(start) as real)
    ensures start <= 0x20_0000_0000_0000 ==> AsDouble(start) == start
    ensures start == MAX ==> AsDouble(start) == MAX + 1
  {
    NearestOfInteger(start);
    NearestIsDouble(start as real);
    if start <= 0x20_0000_0000_0000 { IntegerIsDouble(start); }
    if start == MAX { ThresholdIsAboveMax(); }
  }

  lemma DoubledIsScaled(start: Duration, n: nat)
    ensures Pow(2.0, n) >= 0.0 && Scaled(start, Pow(2.0, n)) == Doubled(AsDouble(start), n) as real
  {
    AsDoubleIsNearest(start);
    TimesPowerOfTwo(AsDouble(start), n);
    DoubledIsDouble(AsDouble(start), n);
  }

  /** With the default base growth is doubling of the rounded start, to the
      nanosecond and however far it goes. */
  lemma DoublingIsExact(start: Duration, base: Base, n: nat)
    requires base == 2.0
    ensures Growth(start, base, n) == Doubled(AsDouble(start), n)
  {
    PowersOfTwoAreExact(n);
    DoubledIsScaled(start, n);
    FloorOfInteger(Doubled(AsDouble(start), n));
  }

  /** start * base^n with the start, the base and the result perturbed by c. */
  function Perturbed(start: real, base: real, n: nat, c: real): real {
    Product3(start * c, Pow(base * c, n), c)
  }

  /** For every start and base, growth is start * base^n up to n + 2 roundings: it
      lies between that value with every factor perturbed by 2^-53 either way. */
  lemma GrowthIsNear(start: Duration, base: Base, n: nat, low: real, high: real)
    requires start > 0 && Margins(low, high)
    ensures Perturbed(start as real, base, n, low).Floor <= Growth(start, base, n)
    ensures Growth(start, base, n) <= Perturbed(start as real, base, n, high).Floor
  {
    var power := RoundedPower(base, n);
    RoundedPowerIsNear(base, low, high, n);
    ScaledIsNear(start, power, low, high);
    UnitIsSmall();
    NearFloors(start as real, base, n, low, high, power, Scaled(start, power));
  }

  lemma NearFloors(x: real, base: real, n: nat, low: real, high: real, power: real, scaled: real)
    requires x >= 0.0 && base >= 0.0 && low >= 0.0 && high >= 0.0 && power >= 0.0
    requires IsNearPower(power, base, low, high, n)
    requires Product3(x * low, power, low) <= scaled <= Product3(x * high, power, high)
    ensures Perturbed(x, base, n, low).Floor <= scaled.Floor <= Perturbed(x, base, n, high).Floor
  {
    PerturbedBetween(x, base, n, low, high, power);
    FloorOfChain(Perturbed(x, base, n, low), Product3(x * low, power, low), scaled);
    FloorOfChain(scaled, Product3(x * high, power, high), Perturbed(x, base, n, high));
  }

  lemma FloorOfChain(a: real, b: real, c: real)
    requires a <= b && b <= c
    ensures a.Floor <= c.Floor
  {
    FloorMonotone(a, c);
  }

  lemma PerturbedBetween(start: real, base: real, n: nat, low: real, high: real, power: real)
    requires start >= 0.0 && base >= 0.0 && low >= 0.0 && high >= 0.0 && power >= 0.0
    requires IsNearPower(power, base, low, high, n)
    ensures Perturbed(start, base, n, low) <= Product3(start * low, power, low)
    ensures Product3(start * high, power, high) <= Perturbed(start, base, n, high)
  {
    MulMonotone(start, 0.0, low);
    MulMonotone(start, 0.0, high);
    MulMonotone(base, 0.0, low);
    LowPowersArePositive(base * low, n);
    Product3Monotone(start * low, Pow(base * low, n), start * low, power, low);
    Product3Monotone(start * high, power, start * high, Pow(base * high, n), high);
  }

  /** Saturating at every node is the same as saturating once at the end. */
  lemma {:induction false} SaturationCommutes(wait: Wait, state: RetryState)
    requires JitterFree(wait)
    ensures NextWait(wait, state) == (Saturate(Ideal(wait, state.attempt)), wait)
  {
    match wait
    case Exponential(start, base) => ExponentialIsIdeal(start, base, SatSub(state.attempt, 1));
    case Capped(inner, _) => SaturationCommutes(inner, state);
    case Combine(l, r) => SaturationCommutes(l, state); SaturationCommutes(r, state);
    case Chain(first, second, after) =>
      SaturationCommutes(first, state);
      SaturationCommutes(second, state);
    case _ =>
  }

  lemma CombineCommutes(a: Wait, b: Wait, state: RetryState)
    ensures NextWait(Combine(a, b), state).0 == NextWait(Combine(b, a), state).0
  {
  }

  lemma CombineOf(a: Wait, b: Wait, state: RetryState)
    ensures NextWait(Combine(a, b), state).0 == SatAdd(NextWait(a, state).0, NextWait(b, state).0)
  {
  }

  /** Of any trees, jittered and stateful ones included: each node keeps its own
      generator, so order and grouping do not matter to the delay. */
  lemma CombineIsCommutativeMonoid(a: Wait, b: Wait, c: Wait, state: RetryState)
    ensures NextWait(Combine(a, b), state).0 == NextWait(Combine(b, a), state).0
    ensures NextWait(Combine(Combine(a, b), c), state).0 == NextWait(Combine(a, Combine(b, c)), state).0
    ensures NextWait(Combine(a, Fixed(0)), state).0 == NextWait(a, state).0
  {
    CombineCommutes(a, b, state);
    CombineOf(a, b, state);
    CombineOf(b, c, state);
    CombineOf(Combine(a, b), c, state);
    CombineOf(a, Combine(b, c), state);
    CombineOf(a, Fixed(0), state);
  }

  // ----- exponential backoff from one attempt to the next -----

  lemma GrowthIsMonotone(start: Duration, base: Base, i: nat, j: nat)
    requires i <= j
    ensures Growth(start, base, i) <= Growth(start, base, j)
  {
    RoundedPowerMonotone(base, i, j);
    ScaledMonotone(start, RoundedPower(base, i), RoundedPower(base, j));
    FloorMonotone(Scaled(start, RoundedPower(base, i)), Scaled(start, RoundedPower(base, j)));
  }

  lemma GrowthAtStart(start: Duration, base: Base)
    ensures Growth(start, base, 0) == AsDouble(start)
  {
    DurationIsF64(start);
    TimesIs(Nearest(start as real), 1.0, Nearest(start as real));
    assert RoundedPower(base, 0) == 1.0;
  }

  lemma GrowthOfOne(start: Duration, n: nat)
    ensures IsDouble(1.0) && Growth(start, 1.0, n) == AsDouble(start)
  {
    OneIsGrown();
    RoundedPowerOfOne(n);
    DurationIsF64(start);
    TimesIs(Nearest(start as real), 1.0, Nearest(start as real));
  }

  lemma ExponentialDelay(start: Duration, base: Base, state: RetryState)
    ensures NextWait(Exponential(start, base), state).0 == Saturate(Growth(start, base, SatSub(state.attempt, 1)))
  {
    ExponentialIsIdeal(start, base, SatSub(state.attempt, 1));
  }

  /** Exponential backoff never shrinks from one attempt to a later one, for every
      base and however the products round; its least delay is the rounded start. */
  lemma ExponentialIsMonotone(start: Duration, base: Base, early: RetryState, late: RetryState)
    requires early.attempt <= late.attempt
    ensures NextWait(Exponential(start, base), early).0 <= NextWait(Exponential(start, base), late).0
    ensures Saturate(AsDouble(start)) <= NextWait(Exponential(start, base), early).0
    ensures early.attempt <= 1 ==> NextWait(Exponential(start, base), early).0 == Saturate(AsDouble(start))
  {
    var i, j := SatSub(early.attempt, 1), SatSub(late.attempt, 1);
    ExponentialDelay(start, base, early);
    ExponentialDelay(start, base, late);
    GrowthIsMonotone(start, base, 0, i);
    GrowthIsMonotone(start, base, i, j);
    GrowthAtStart(start, base);
  }

  ghost predicate NeverBelowStart(start: Duration, base: Base) {
    forall state :: NextWait(Exponential(start, base), state).0 >= start
  }

  const FIRST: RetryState := RetryState(1, 0, None)

  /** Exponential backoff stays at or above its start exactly when the start does
      not round down, as no start up to 2^53 ns does. */
  lemma ExponentialKeepsItsStart(start: Duration, base: Base)
    ensures NeverBelowStart(start, base) <==> AsDouble(start) >= start
  {
    ExponentialIsMonotone(start, base, FIRST, FIRST);
    forall state ensures NextWait(Exponential(start, base), state).0 >= Saturate(AsDouble(start)) {
      ExponentialIsMonotone(start, base, state, state);
    }
  }

  /** The documented delay initial * 2^(attempt - 1), saturated, at every attempt. */
  ghost predicate DoublesItsStart(start: Duration, base: Base) {
    forall state: RetryState ::
      NextWait(Exponential(start, base), state).0 == Saturate(Doubled(start, SatSub(state.attempt, 1)))
  }

  lemma RoundedDoubling(start: Duration, base: Base, state: RetryState)
    requires base == 2.0
    ensures NextWait(Exponential(start, base), state).0 ==
            Saturate(Doubled(AsDouble(start), SatSub(state.attempt, 1)))
  {
    ExponentialDelay(start, base, state);
    DoublingIsExact(start, base, SatSub(state.attempt, 1));
  }

  lemma SaturatedDoubling(n: nat)
    ensures Saturate(Doubled(MAX, n)) == Saturate(Doubled(MAX + 1, n)) == MAX
  {
    DoubledIsAtLeast(MAX, n);
    DoubledIsAtLeast(MAX + 1, n);
  }

  /** Exponential backoff meets its documented formula at every attempt if and only
      if the start fits an f64 exactly, as every start up to 2^53 ns does, or is
      MAX and saturates anyway. */
  lemma DoublingCondition(start: Duration, base: Base)
    requires base == 2.0
    ensures DoublesItsStart(start, base) <==> IsDouble(start as real) || start == MAX
    ensures start <= 0x20_0000_0000_0000 ==> IsDouble(start as real)
  {
    AsDoubleIsNearest(start);
    if start <= 0x20_0000_0000_0000 { IntegerIsDouble(start); }
    if AsDouble(start) == start || start == MAX { KeptStartDoubles(start, base); }
    if DoublesItsStart(start, base) { StartIsKept(start, base); }
    assert IsDouble(start as real) <==> AsDouble(start) == start;
  }

  lemma KeptStartDoubles(start: Duration, base: Base)
    requires base == 2.0 && (AsDouble(start) == start || start == MAX)
    ensures DoublesItsStart(start, base)
  {
    AsDoubleIsNearest(start);
    forall state: RetryState
      ensures NextWait(Exponential(start, base), state).0 == Saturate(Doubled(start, SatSub(state.attempt, 1)))
    {
      RoundedDoubling(start, base, state);
      if start == MAX { SaturatedDoubling(SatSub(state.attempt, 1)); }
    }
  }

  lemma StartIsKept(start: Duration, base: Base)
    requires base == 2.0 && DoublesItsStart(start, base)
    ensures AsDouble(start) == start || start == MAX
  {
    RoundedDoubling(start, base, FIRST);
    assert NextWait(Exponential(start, base), FIRST).0 == Saturate(Doubled(start, 0));
  }

  /** 2^53 + 1 ns, about 104 days, is the least start that is lost. */
  lemma LargeStartIsRoundedDown(base: Base)
    ensures AsDouble(0x20_0000_0000_0001) == 0x20_0000_0000_0000
    ensures !NeverBelowStart(0x20_0000_0000_0001, base)
    ensures base == 2.0 ==> !DoublesItsStart(0x20_0000_0000_0001, base)
  {
    var start: Duration := 0x20_0000_0000_0001;
    TopPlusOneRoundsDown();
    AsDoubleIsNearest(start);
    ExponentialKeepsItsStart(start, base);
    if base == 2.0 { DoublingCondition(start, base); }
  }
}

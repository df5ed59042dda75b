/** Decorrelated jitter along a run, through the engine's previous-delay feedback. */
module Decorrelation {
  import opened Durations
  import opened States
  import opened Waits
  import opened Engine

  /** `decorrelated_jitter(base)`, with `.cap(max)` or without, in any generator state. */
  predicate IsBackoff(wait: Wait, base: Duration, cap: Option<Duration>) {
    match cap
    case None => wait.Jittered? && wait.kind == JitterKind.Decorrelated && wait.inner == Fixed(base)
    case Some(max) => wait.Capped? && wait.max == max && IsBackoff(wait.inner, base, None)
  }

  function CapOf(cap: Option<Duration>): Duration {
    match cap case Some(max) => max case None => MAX
  }

  function Pow3(n: nat): nat {
    if n == 0 then 1 else 3 * Pow3(n - 1)
  }

  /** base * 3^n, by repeated tripling. */
  function Tripled(base: nat, n: nat): nat {
    if n == 0 then base else 3 * Tripled(base, n - 1)
  }

  lemma TripledProduct(base: nat, p: nat, product: nat)
    requires base * p == product
    ensures base * (3 * p) == 3 * product
  {
  }

  lemma {:induction false} TripledIsProduct(base: nat, n: nat)
    ensures Tripled(base, n) == base * Pow3(n)
  {
    if n > 0 {
      TripledIsProduct(base, n - 1);
      TripledProduct(base, Pow3(n - 1), Tripled(base, n - 1));
    }
  }

  lemma UncappedStep(wait: Wait, base: Duration, state: RetryState)
    requires IsBackoff(wait, base, None)
    ensures IsBackoff(NextWait(wait, state).1, base, None)
    ensures var previous := if state.previousDelay.Some? then state.previousDelay.value else base;
            base <= NextWait(wait, state).0 <= Max(base, 3 * previous)
  {
    assert NextWait(Fixed(base), state) == (base, Fixed(base));
    JitterInRange(JitterKind.Decorrelated, base, state.previousDelay, wait.rng);
  }

  lemma BackoffStep(wait: Wait, base: Duration, cap: Option<Duration>, state: RetryState)
    requires IsBackoff(wait, base, cap)
    ensures IsBackoff(NextWait(wait, state).1, base, cap)
    ensures var previous := if state.previousDelay.Some? then state.previousDelay.value else base;
            Min(base, CapOf(cap)) <= NextWait(wait, state).0 <= Min(CapOf(cap), Max(base, 3 * previous))
  {
    UncappedStep(if cap.Some? then wait.inner else wait, base, state);
  }

  /** After n iterations the last delay is within base * 3^n and within the cap. */
  ghost predicate Bounded<R, A, O>(run: Run<R, A, O>, base: Duration, cap: Option<Duration>, n: nat) {
    run.Going? ==>
      && IsBackoff(run.c.wait, base, cap)
      && match run.c.previousDelay
         case None => n == 0
         case Some(d) => d <= Min(CapOf(cap), Tripled(base, n))
  }

  /** What is left of the timeout when iteration c has made its attempt. */
  function Remaining<R, A, O>(s: Setup<R, A, O>, c: Cursor<R, A, O>): Duration {
    match s.timeout case Some(t) => SatSub(t, PostElapsed(s, c)) case None => MAX
  }

  lemma BoundedIteration<R, A, O>(s: Setup<R, A, O>, c: Cursor<R, A, O>, base: Duration, cap: Option<Duration>, n: nat)
    requires Bounded(Going(c), base, cap, n)
    ensures Bounded(Iterate(s, c), base, cap, n + 1)
    ensures Min(Min(base, CapOf(cap)), Remaining(s, c)) <= DelayOf(s, c) <= Remaining(s, c)
    ensures Iterate(s, c).Going? ==> Iterate(s, c).c.previousDelay == Some(DelayOf(s, c))
  {
    GoesOn(s, c);
    BackoffStep(c.wait, base, cap, AfterState(s, c));
    TripledAtLeast(base, n);
  }

  lemma {:induction false} TripledAtLeast(base: nat, n: nat)
    ensures base <= Tripled(base, n)
  {
    if n > 0 { TripledAtLeast(base, n - 1); }
  }

  ghost predicate BoundedTo<R, A, O>(s: Setup<R, A, O>, base: Duration, cap: Option<Duration>, n: nat) {
    Bounded(Exec(s, n), base, cap, n)
  }

  lemma BoundedOnceMore<R, A, O>(s: Setup<R, A, O>, base: Duration, cap: Option<Duration>, n: nat)
    requires BoundedTo(s, base, cap, n)
    ensures BoundedTo(s, base, cap, n + 1)
  {
    match Exec(s, n)
    case Going(c) => BoundedIteration(s, c, base, cap, n);
    case _ =>
  }

  lemma {:induction false} BackoffStaysBounded<R, A, O>(s: Setup<R, A, O>, base: Duration, cap: Option<Duration>,
                                                        n: nat)
    requires IsBackoff(s.wait, base, cap)
    ensures Bounded(Exec(s, n), base, cap, n)
  {
    if n > 0 {
      var m := n - 1;
      BackoffStaysBounded(s, base, cap, m);
      BoundedOnceMore(s, base, cap, m);
      assert BoundedTo(s, base, cap, n);
    }
  }

  /** A delay within the bounds promised for the k-th one. */
  ghost predicate DelayWithin(applied: Option<Duration>, base: Duration, cap: Option<Duration>,
                              k: nat, remaining: Duration)
  {
    && applied.Some?
    && applied.value <= base * Pow3(k) && applied.value <= CapOf(cap)
    && Min(Min(base, CapOf(cap)), remaining) <= applied.value <= remaining
  }

  lemma NextDelayWithin<R, A, O>(s: Setup<R, A, O>, c: Cursor<R, A, O>, base: Duration, cap: Option<Duration>, k: nat)
    requires Bounded(Going(c), base, cap, k)
    ensures Iterate(s, c).Going? ==> DelayWithin(Iterate(s, c).c.previousDelay, base, cap, k + 1, Remaining(s, c))
  {
    BoundedIteration(s, c, base, cap, k);
    TripledIsProduct(base, k + 1);
  }

  /** The delay applied after attempt k + 1 of a run under decorrelated jitter, for
      every seed, operation, stop strategy and clock: at most base * 3^(k+1) and
      the cap, and at least the lesser of base, cap and remaining timeout budget. */
  lemma DecorrelatedDelays<R, A, O>(s: Setup<R, A, O>, base: Duration, cap: Option<Duration>, k: nat)
    requires IsBackoff(s.wait, base, cap) && Exec(s, k).Going?
    ensures var c := Exec(s, k).c;
            Iterate(s, c).Going? ==> DelayWithin(Iterate(s, c).c.previousDelay, base, cap, k + 1, Remaining(s, c))
  {
    BackoffStaysBounded(s, base, cap, k);
    NextDelayWithin(s, Exec(s, k).c, base, cap, k);
  }
}

/** Runs bounded by their stop strategy, and the algebra of `|` and `&` on whole
    runs. */
module Limits {
  import opened Durations
  import opened States
  import opened Stops
  import opened Engine
  import opened Traces

  // ----- attempt-based termination -----

  /** A tree with an attempt limit ends every run within that many calls, for
      every operation, classifier, wait strategy and clock. */
  lemma LimitEndsRun<R, A, O>(s: Setup<R, A, O>)
    requires AttemptLimit(s.stop).Some?
    ensures Exec(s, AttemptLimit(s.stop).value).Ended?
    ensures WorldOf(Exec(s, AttemptLimit(s.stop).value)).calls <= AttemptLimit(s.stop).value
  {
    var limit: nat := AttemptLimit(s.stop).value;
    CallsSoFar(s, limit);
    if Exec(s, limit).Going? {
      GoingBefore(s, limit - 1, limit);
      CallsSoFar(s, limit - 1);
      StopConsultations(s, limit - 1);
      var c := Exec(s, limit - 1).c;
      GoesOn(s, c);
      StopsAtLimit(s.stop, RetryStates(s, limit - 1), AfterState(s, c));
      assert false;
    }
  }

  /** A clock that never moves. */
  ghost predicate Frozen<O>(env: Env<O>) {
    && env.lead == 0
    && (forall n, st :: Total(env.opTicks(n, st)) == 0)
    && (forall n, d :: GapTime(env, n, d) == 0)
  }

  /** An operation whose outcomes the classifier never accepts. */
  ghost predicate AlwaysRetries<R, A, O>(s: Setup<R, A, O>) {
    forall n, st :: s.decide(s.env.op(n, st)).Retry?
  }

  ghost predicate AtOrigin<R, A, O>(s: Setup<R, A, O>, run: Run<R, A, O>, n: nat) {
    && (run.Going? <==> (AttemptLimit(s.stop).Some? ==> n < AttemptLimit(s.stop).value))
    && (run.Going? ==>
          run.c.stop == s.stop && run.c.world.clock.now == s.origin && run.c.attempt == Min(n + 1, U32_MAX))
  }

  lemma FrozenIteration<R, A, O>(s: Setup<R, A, O>, c: Cursor<R, A, O>, n: nat)
    requires Frozen(s.env) && AlwaysRetries(s) && s.timeout == None && BuiltIn(s.stop) && PositiveDeadlines(s.stop)
    requires AtOrigin(s, Going(c), n)
    ensures AtOrigin(s, Iterate(s, c), n + 1)
  {
    GoesOn(s, c);
    assert OpReturned(s, c).clock.now == s.origin;
    BuiltInIsMonotone(s.stop, AfterState(s, c), AfterState(s, c));
    StopsOnlyAtLimit(s.stop, AfterState(s, c));
  }

  /** On a frozen clock the limit is exact: an operation that never succeeds is
      called precisely that often, and for ever when there is no limit. */
  lemma {:induction false} LimitIsExactOnFrozenClock<R, A, O>(s: Setup<R, A, O>, n: nat)
    requires Frozen(s.env) && AlwaysRetries(s) && s.timeout == None && BuiltIn(s.stop) && PositiveDeadlines(s.stop)
    ensures AtOrigin(s, Exec(s, n), n)
  {
    if n > 0 {
      LimitIsExactOnFrozenClock(s, n - 1);
      match Exec(s, n - 1)
      case Going(c) => FrozenIteration(s, c, n - 1);
      case _ =>
    }
  }

  // ----- the algebra of stop strategies on whole runs -----

  function With<R, A, O>(s: Setup<R, A, O>, stop: Stop): Setup<R, A, O> {
    s.(stop := stop)
  }

  /** What a stop strategy is shown after iteration k of the unstopped run. */
  ghost function FreeState<R, A, O>(s: Setup<R, A, O>, k: nat): RetryState {
    StateAt(With(s, Never), k)
  }

  ghost function StateAt<R, A, O>(s: Setup<R, A, O>, k: nat): RetryState {
    match Exec(s, k)
    case Going(c) => AfterState(s, c)
    case _ => RetryState(0, 0, None)
  }

  /** The Retry verdicts of the first k iterations of the unstopped run. */
  ghost function FreeStates<R, A, O>(s: Setup<R, A, O>, k: nat): seq<RetryState> {
    RetryStates(With(s, Never), k)
  }

  /** After iteration k of the unstopped run the tree, consulted at every verdict
      before, says stop. */
  ghost predicate StopsAt<R, A, O>(s: Setup<R, A, O>, stop: Stop, k: nat) {
    ShouldStop(Shown(stop, FreeStates(s, k)), FreeState(s, k)).0
  }

  /** The tree lets the first n iterations of the unstopped run pass. */
  ghost predicate Quiet<R, A, O>(s: Setup<R, A, O>, stop: Stop, n: nat) {
    forall k: nat :: k < n ==> !StopsAt(s, stop, k)
  }

  ghost predicate GoesTo<R, A, O>(s: Setup<R, A, O>, stop: Stop, n: nat) {
    Exec(With(s, stop), n).Going?
  }

  /** The unstopped run with the stop strategy put back. */
  ghost predicate Truncates<R, A, O>(stopped: Run<R, A, O>, stop: Stop, free: Run<R, A, O>) {
    stopped.Going? && free.Going? && free.c.stop == Never && stopped.c == free.c.(stop := stop)
  }

  ghost predicate TruncatesTo<R, A, O>(s: Setup<R, A, O>, stop: Stop, n: nat) {
    && (GoesTo(s, stop, n) <==> GoesTo(s, Never, n) && Quiet(s, stop, n))
    && (GoesTo(s, stop, n) ==>
          Truncates(Exec(With(s, stop), n), Shown(stop, FreeStates(s, n)), Exec(With(s, Never), n)))
  }

  /** A stop strategy only decides when a run ends: up to there the run is the
      unstopped one, with the same delays, draws, clock and trace, whatever the
      strategy remembers. */
  lemma {:induction false} StoppingOnlyTruncates<R, A, O>(s: Setup<R, A, O>, stop: Stop, n: nat)
    ensures Exec(With(s, stop), n).Going? <==> Exec(With(s, Never), n).Going? && Quiet(s, stop, n)
    ensures Exec(With(s, stop), n).Going? ==>
              Truncates(Exec(With(s, stop), n), Shown(stop, FreeStates(s, n)), Exec(With(s, Never), n))
  {
    if n == 0 {
      ShownNothing(stop);
    } else {
      var m := n - 1;
      StoppingOnlyTruncates(s, stop, m);
      TruncatesOnceMore(s, stop, m);
      assert TruncatesTo(s, stop, n);
    }
  }

  lemma TruncatesOnceMore<R, A, O>(s: Setup<R, A, O>, stop: Stop, n: nat)
    requires TruncatesTo(s, stop, n)
    ensures TruncatesTo(s, stop, n + 1)
  {
    QuietOnceMore(s, stop, n);
    if GoesTo(s, stop, n) {
      var c, free := Exec(With(s, stop), n).c, Exec(With(s, Never), n).c;
      GoesOn(With(s, Never), free);
      TruncatesOnce(s, stop, FreeStates(s, n), c, free);
    }
  }

  lemma QuietOnceMore<R, A, O>(s: Setup<R, A, O>, stop: Stop, n: nat)
    ensures Quiet(s, stop, n + 1) <==> Quiet(s, stop, n) && !StopsAt(s, stop, n)
  {
  }

  lemma TruncatesOnce<R, A, O>(s: Setup<R, A, O>, stop: Stop, states: seq<RetryState>,
                               c: Cursor<R, A, O>, free: Cursor<R, A, O>)
    requires Truncates(Going(c), Shown(stop, states), Going(free))
    ensures var next, freeNext := Iterate(With(s, stop), c), Iterate(With(s, Never), free);
            var state := AfterState(With(s, Never), free);
            && (next.Going? <==> freeNext.Going? && !ShouldStop(Shown(stop, states), state).0)
            && (next.Going? ==> Truncates(next, Shown(stop, states + [state]), freeNext))
  {
    EveryLeafIsConsulted(stop, states, AfterState(With(s, Never), free));
    GoesOn(With(s, stop), c);
    GoesOn(With(s, Never), free);
  }

  /** `A | B` runs on exactly while both would: it stops when the first stops.
      The jitter seeds, the operation and the clock are the same for all. */
  lemma AnyGoesOnWithBoth<R, A, O>(s: Setup<R, A, O>, a: Stop, b: Stop, n: nat)
    ensures GoesTo(s, Any(a, b), n) <==> GoesTo(s, a, n) && GoesTo(s, b, n)
  {
    StoppingOnlyTruncates(s, a, n);
    StoppingOnlyTruncates(s, b, n);
    StoppingOnlyTruncates(s, Any(a, b), n);
    forall k: nat ensures StopsAt(s, Any(a, b), k) <==> StopsAt(s, a, k) || StopsAt(s, b, k) {
    }
  }

  /** `A & B` runs on exactly until both say stop at the same verdict. */
  lemma AllGoesOnUntilTogether<R, A, O>(s: Setup<R, A, O>, a: Stop, b: Stop, n: nat)
    ensures GoesTo(s, All(a, b), n) <==>
            GoesTo(s, Never, n) && forall k: nat :: k < n ==> !(StopsAt(s, a, k) && StopsAt(s, b, k))
  {
    StoppingOnlyTruncates(s, All(a, b), n);
    forall k: nat ensures StopsAt(s, All(a, b), k) <==> StopsAt(s, a, k) && StopsAt(s, b, k) {
    }
  }

  /** Once the tree has said stop on the unstopped run, it keeps saying so. */
  ghost predicate Latches<R, A, O>(s: Setup<R, A, O>, stop: Stop) {
    forall i: nat, j: nat :: i <= j && GoesTo(s, Never, j) && StopsAt(s, stop, i) ==> StopsAt(s, stop, j)
  }

  /** If both sides latch, `A & B` runs on exactly while either would: it stops
      when the last stops. */
  lemma AllGoesOnWithEither<R, A, O>(s: Setup<R, A, O>, a: Stop, b: Stop, n: nat)
    requires Latches(s, a) && Latches(s, b)
    ensures GoesTo(s, All(a, b), n) <==> GoesTo(s, a, n) || GoesTo(s, b, n)
  {
    StoppingOnlyTruncates(s, a, n);
    StoppingOnlyTruncates(s, b, n);
    AllGoesOnUntilTogether(s, a, b, n);
    if GoesTo(s, Never, n) && !Quiet(s, a, n) && !Quiet(s, b, n) {
      var i: nat :| i < n && StopsAt(s, a, i);
      var j: nat :| j < n && StopsAt(s, b, j);
      GoingBefore(With(s, Never), Max(i, j), n);
      assert StopsAt(s, a, Max(i, j)) && StopsAt(s, b, Max(i, j));
    }
  }

  lemma StateGrows<R, A, O>(s: Setup<R, A, O>, c: Cursor<R, A, O>)
    requires Iterate(s, c).Going?
    ensures AfterState(s, c).attempt <= AfterState(s, Iterate(s, c).c).attempt
    ensures AfterState(s, c).elapsed <= AfterState(s, Iterate(s, c).c).elapsed
  {
    GoesOn(s, c);
  }

  ghost predicate Grows(early: RetryState, late: RetryState) {
    early.attempt <= late.attempt && early.elapsed <= late.elapsed
  }

  lemma GrowsFurther(a: RetryState, b: RetryState, c: RetryState)
    requires Grows(a, b) && Grows(b, c)
    ensures Grows(a, c)
  {
  }

  lemma StateGrowsOnce<R, A, O>(s: Setup<R, A, O>, n: nat)
    requires Exec(s, n).Going? && Exec(s, n + 1).Going?
    ensures Grows(StateAt(s, n), StateAt(s, n + 1))
  {
    StateGrows(s, Exec(s, n).c);
  }

  /** What is shown after iteration k only grows along a run. */
  lemma {:induction false} StatesGrow<R, A, O>(s: Setup<R, A, O>, i: nat, j: nat)
    requires i <= j && Exec(s, j).Going?
    ensures Grows(StateAt(s, i), StateAt(s, j))
    decreases j
  {
    if i < j {
      var m := j - 1;
      GoingBefore(s, m, j);
      StatesGrow(s, i, m);
      StateGrowsOnce(s, m);
      GrowsFurther(StateAt(s, i), StateAt(s, m), StateAt(s, j));
    }
  }

  lemma {:induction false} BuiltInRemembersNothing(stop: Stop, states: seq<RetryState>)
    requires BuiltIn(stop)
    ensures Shown(stop, states) == stop
  {
    match stop
    case Any(l, r) => BuiltInRemembersNothing(l, states); BuiltInRemembersNothing(r, states);
    case All(l, r) => BuiltInRemembersNothing(l, states); BuiltInRemembersNothing(r, states);
    case _ =>
  }

  /** Every tree of built-in leaves latches, because clocks are monotone. */
  lemma BuiltInLatches<R, A, O>(s: Setup<R, A, O>, stop: Stop)
    requires BuiltIn(stop)
    ensures Latches(s, stop)
  {
    forall i: nat, j: nat | i <= j && GoesTo(s, Never, j) && StopsAt(s, stop, i) ensures StopsAt(s, stop, j) {
      StatesGrow(With(s, Never), i, j);
      BuiltInRemembersNothing(stop, FreeStates(s, i));
      BuiltInRemembersNothing(stop, FreeStates(s, j));
      BuiltInIsMonotone(stop, FreeState(s, i), FreeState(s, j));
    }
  }

  /** Both operators keep latching, so any mix of latching leaves does. */
  lemma OperatorsLatch<R, A, O>(s: Setup<R, A, O>, a: Stop, b: Stop)
    requires Latches(s, a) && Latches(s, b)
    ensures Latches(s, Any(a, b)) && Latches(s, All(a, b))
  {
    forall k: nat ensures StopsAt(s, Any(a, b), k) <==> StopsAt(s, a, k) || StopsAt(s, b, k) {
    }
    forall k: nat ensures StopsAt(s, All(a, b), k) <==> StopsAt(s, a, k) && StopsAt(s, b, k) {
    }
  }

  /** A user strategy that says stop at its n-th consultation only. */
  function OnlyAt(n: nat): Stop {
    Stop.Custom((seen: seq<RetryState>) => |seen| == n, [])
  }

  ghost predicate Unending<R, A, O>(s: Setup<R, A, O>) {
    AlwaysRetries(s) && s.timeout == None
  }

  ghost predicate Unstopped<R, A, O>(s: Setup<R, A, O>, n: nat) {
    GoesTo(s, Never, n) && Exec(With(s, Never), n).c.stop == Never && |FreeStates(s, n)| == n
  }

  lemma UnstoppedOnceMore<R, A, O>(s: Setup<R, A, O>, n: nat)
    requires Unending(s) && Unstopped(s, n)
    ensures Unstopped(s, n + 1)
  {
    var free := With(s, Never);
    var c := Exec(free, n).c;
    GoesOn(free, c);
    assert WantsRetry(free, c);
  }

  lemma {:induction false} UnstoppedForEver<R, A, O>(s: Setup<R, A, O>, n: nat)
    requires Unending(s)
    ensures Unstopped(s, n)
  {
    if n > 0 {
      var m := n - 1;
      UnstoppedForEver(s, m);
      UnstoppedOnceMore(s, m);
    }
  }

  /** Latching is needed: for an operation that is always retried, two strategies
      that each stop such a run by itself never stop it together. */
  lemma ForgetfulSidesNeverMeet<R, A, O>(s: Setup<R, A, O>, n: nat)
    requires Unending(s)
    ensures !GoesTo(s, OnlyAt(1), 2) && !GoesTo(s, OnlyAt(2), 2)
    ensures GoesTo(s, All(OnlyAt(1), OnlyAt(2)), n)
  {
    forall k: nat, m: nat ensures StopsAt(s, OnlyAt(m), k) <==> m == k + 1 {
      UnstoppedForEver(s, k);
    }
    StoppingOnlyTruncates(s, OnlyAt(1), 2);
    StoppingOnlyTruncates(s, OnlyAt(2), 2);
    assert StopsAt(s, OnlyAt(1), 0) && StopsAt(s, OnlyAt(2), 1);
    UnstoppedForEver(s, n);
    AllGoesOnUntilTogether(s, OnlyAt(1), OnlyAt(2), n);
  }

  // ----- run lengths -----

  /** A run has made its m-th call within n iterations if it was still going when
      that call was due. */
  lemma CallsAreGoingIterations<R, A, O>(s: Setup<R, A, O>, n: nat, m: nat)
    ensures m < WorldOf(Exec(s, n)).calls <==> m < n && Exec(s, m).Going?
  {
    CallsSoFar(s, n);
    if Exec(s, n).Going? {
      if m < n { GoingBefore(s, m, n); }
    } else {
      var k := EndsAtItsCalls(s, n);
      GoingUpTo(s, k, m);
    }
  }

  lemma GoingUpTo<R, A, O>(s: Setup<R, A, O>, k: nat, m: nat)
    requires Exec(s, k).Going? && Exec(s, k + 1).Ended?
    ensures Exec(s, m).Going? <==> m <= k
  {
    if m <= k {
      GoingBefore(s, m, k);
    } else {
      EndIsFinal(s, k + 1, m);
    }
  }

  /** Operation calls made within n iterations under the given stop strategy. */
  ghost function Calls<R, A, O>(s: Setup<R, A, O>, stop: Stop, n: nat): nat {
    WorldOf(Exec(With(s, stop), n)).calls
  }

  lemma MakesCall<R, A, O>(s: Setup<R, A, O>, stop: Stop, n: nat, m: nat)
    ensures m < Calls(s, stop, n) <==> m < n && GoesTo(s, stop, m)
  {
    CallsAreGoingIterations(With(s, stop), n, m);
  }

  lemma AnyMakesCall<R, A, O>(s: Setup<R, A, O>, a: Stop, b: Stop, n: nat, m: nat)
    ensures m < Calls(s, Any(a, b), n) <==> m < Calls(s, a, n) && m < Calls(s, b, n)
  {
    MakesCall(s, a, n, m);
    MakesCall(s, b, n, m);
    MakesCall(s, Any(a, b), n, m);
    AnyGoesOnWithBoth(s, a, b, m);
  }

  lemma AllMakesCall<R, A, O>(s: Setup<R, A, O>, a: Stop, b: Stop, n: nat, m: nat)
    requires Latches(s, a) && Latches(s, b)
    ensures m < Calls(s, All(a, b), n) <==> m < Calls(s, a, n) || m < Calls(s, b, n)
  {
    MakesCall(s, a, n, m);
    MakesCall(s, b, n, m);
    MakesCall(s, All(a, b), n, m);
    AllGoesOnWithEither(s, a, b, m);
  }

  /** Run lengths: within any number of iterations, whether the sides have ended by
      then or not, `|` makes the minimum of the calls its sides make by themselves,
      and it has ended as soon as one of them has. */
  lemma AnyRunLength<R, A, O>(s: Setup<R, A, O>, a: Stop, b: Stop, n: nat)
    ensures Calls(s, Any(a, b), n) == Min(Calls(s, a, n), Calls(s, b, n))
    ensures !GoesTo(s, Any(a, b), n) <==> !GoesTo(s, a, n) || !GoesTo(s, b, n)
  {
    AnyGoesOnWithBoth(s, a, b, n);
    AnyMakesCall(s, a, b, n, Calls(s, Any(a, b), n));
    AnyMakesCall(s, a, b, n, Min(Calls(s, a, n), Calls(s, b, n)));
  }

  /** With latching sides `&` makes the maximum, and has ended once both have. */
  lemma AllRunLength<R, A, O>(s: Setup<R, A, O>, a: Stop, b: Stop, n: nat)
    requires Latches(s, a) && Latches(s, b)
    ensures Calls(s, All(a, b), n) == Max(Calls(s, a, n), Calls(s, b, n))
    ensures !GoesTo(s, All(a, b), n) <==> !GoesTo(s, a, n) && !GoesTo(s, b, n)
  {
    AllGoesOnWithEither(s, a, b, n);
    AllMakesCall(s, a, b, n, Calls(s, All(a, b), n));
    AllMakesCall(s, a, b, n, Max(Calls(s, a, n), Calls(s, b, n)));
  }

  /** For built-in trees both laws hold outright. */
  lemma RunLengths<R, A, O>(s: Setup<R, A, O>, a: Stop, b: Stop, n: nat)
    ensures Calls(s, Any(a, b), n) == Min(Calls(s, a, n), Calls(s, b, n))
    ensures BuiltIn(a) && BuiltIn(b) ==> Calls(s, All(a, b), n) == Max(Calls(s, a, n), Calls(s, b, n))
  {
    AnyRunLength(s, a, b, n);
    if BuiltIn(a) && BuiltIn(b) {
      BuiltInLatches(s, a);
      BuiltInLatches(s, b);
      AllRunLength(s, a, b, n);
    }
  }
}

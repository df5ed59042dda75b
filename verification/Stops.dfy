/** Stop strategies (src/stop): leaves combined by `|` and `&`. */
module Stops {
  import opened Durations
  import opened States

  /** `attempts(0)` panics, so the budget is at least one. */
  type Budget = n: nat | 1 <= n <= U32_MAX witness 1

  /** `Custom` is a user strategy with interior state: its answer may depend on
      every state it has been shown, which it remembers in `seen`. */
  datatype Stop =
    | Attempts(max: Budget)
    | Elapsed(deadline: Duration)
    | Never
    | Any(left: Stop, right: Stop)
    | All(left: Stop, right: Stop)
    | Custom(answer: seq<RetryState> -> bool, seen: seq<RetryState>)

  /** One consultation: the answer, and the strategy as the call leaves it. */
  function ShouldStop(stop: Stop, state: RetryState): (bool, Stop) {
    match stop
    case Attempts(max) => (state.attempt >= max, stop)
    case Elapsed(deadline) => (state.elapsed >= deadline, stop)
    case Never => (false, stop)
    case Any(l, r) =>
      var (left, l') := ShouldStop(l, state);
      var (right, r') := ShouldStop(r, state);
      (left || right, Any(l', r'))
    case All(l, r) =>
      var (left, l') := ShouldStop(l, state);
      var (right, r') := ShouldStop(r, state);
      (left && right, All(l', r'))
    case Custom(answer, seen) => (answer(seen + [state]), Custom(answer, seen + [state]))
  }

  /** The tree with the given consultations pushed to every leaf. */
  function Shown(stop: Stop, states: seq<RetryState>): Stop {
    match stop
    case Any(l, r) => Any(Shown(l, states), Shown(r, states))
    case All(l, r) => All(Shown(l, states), Shown(r, states))
    case Custom(answer, seen) => Custom(answer, seen + states)
    case _ => stop
  }

  /** Neither operator short-circuits: one consultation of the root is exactly
      one consultation of every leaf, whatever the leaves answer. */
  lemma {:induction false} EveryLeafIsConsulted(stop: Stop, states: seq<RetryState>, state: RetryState)
    ensures ShouldStop(Shown(stop, states), state).1 == Shown(stop, states + [state])
  {
    match stop
    case Any(l, r) => EveryLeafIsConsulted(l, states, state); EveryLeafIsConsulted(r, states, state);
    case All(l, r) => EveryLeafIsConsulted(l, states, state); EveryLeafIsConsulted(r, states, state);
    case Custom(answer, seen) => assert seen + states + [state] == seen + (states + [state]);
    case _ =>
  }

  lemma {:induction false} ShownNothing(stop: Stop)
    ensures Shown(stop, []) == stop
  {
    match stop
    case Any(l, r) => ShownNothing(l); ShownNothing(r);
    case All(l, r) => ShownNothing(l); ShownNothing(r);
    case Custom(answer, seen) => assert seen + [] == seen;
    case _ =>
  }

  predicate BuiltIn(stop: Stop) {
    match stop
    case Any(l, r) => BuiltIn(l) && BuiltIn(r)
    case All(l, r) => BuiltIn(l) && BuiltIn(r)
    case Custom(_, _) => false
    case _ => true
  }

  /** A tree of built-in leaves has no state and, once it stops, keeps stopping
      at every state that is later in both attempt and elapsed time. */
  lemma {:induction false} BuiltInIsMonotone(stop: Stop, early: RetryState, late: RetryState)
    requires BuiltIn(stop)
    requires early.attempt <= late.attempt && early.elapsed <= late.elapsed
    ensures ShouldStop(stop, early).1 == stop
    ensures ShouldStop(stop, early).0 ==> ShouldStop(stop, late).0
  {
    match stop
    case Any(l, r) => BuiltInIsMonotone(l, early, late); BuiltInIsMonotone(r, early, late);
    case All(l, r) => BuiltInIsMonotone(l, early, late); BuiltInIsMonotone(r, early, late);
    case _ =>
  }

  /** The attempt limit a tree guarantees by itself. */
  function AttemptLimit(stop: Stop): Option<Budget> {
    match stop
    case Attempts(max) => Some(max)
    case Any(l, r) =>
      (match (AttemptLimit(l), AttemptLimit(r))
       case (Some(a), Some(b)) => Some(Min(a, b))
       case (Some(a), None) => Some(a)
       case (None, limit) => limit)
    case All(l, r) =>
      (match (AttemptLimit(l), AttemptLimit(r))
       case (Some(a), Some(b)) => Some(Max(a, b))
       case _ => None)
    case _ => None
  }

  /** At its limit a tree stops, whatever the clock says and whatever its custom
      leaves have seen. */
  lemma {:induction false} StopsAtLimit(stop: Stop, states: seq<RetryState>, state: RetryState)
    requires AttemptLimit(stop).Some? && state.attempt >= AttemptLimit(stop).value
    ensures ShouldStop(Shown(stop, states), state).0
  {
    match stop
    case Attempts(_) =>
    case Any(l, r) =>
      if AttemptLimit(l).Some? && state.attempt >= AttemptLimit(l).value {
        StopsAtLimit(l, states, state);
      } else {
        StopsAtLimit(r, states, state);
      }
    case All(l, r) => StopsAtLimit(l, states, state); StopsAtLimit(r, states, state);
  }

  predicate PositiveDeadlines(stop: Stop) {
    match stop
    case Elapsed(deadline) => deadline > 0
    case Any(l, r) => PositiveDeadlines(l) && PositiveDeadlines(r)
    case All(l, r) => PositiveDeadlines(l) && PositiveDeadlines(r)
    case _ => true
  }

  /** While no time has passed, a built-in tree stops at its limit and no earlier. */
  lemma {:induction false} StopsOnlyAtLimit(stop: Stop, state: RetryState)
    requires BuiltIn(stop) && PositiveDeadlines(stop) && state.elapsed == 0
    ensures ShouldStop(stop, state).0 <==> AttemptLimit(stop).Some? && state.attempt >= AttemptLimit(stop).value
  {
    match stop
    case Any(l, r) => StopsOnlyAtLimit(l, state); StopsOnlyAtLimit(r, state);
    case All(l, r) => StopsOnlyAtLimit(l, state); StopsOnlyAtLimit(r, state);
    case _ =>
  }
}

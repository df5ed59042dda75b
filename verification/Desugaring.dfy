/** The timeout as a stop strategy and a wait strategy. */
module Desugaring {
  import opened Durations
  import opened Stops
  import opened Waits
  import opened Engine

  /** No timeout, but `S | elapsed(t)` and `min(W, t - elapsed)`. */
  function Desugared<R, A, O>(s: Setup<R, A, O>, t: Duration): Setup<R, A, O> {
    s.(stop := Any(s.stop, Elapsed(t)), wait := WithinBudget(s.wait, t), timeout := None)
  }

  ghost predicate SameRun<R, A, O>(run: Run<R, A, O>, desugared: Run<R, A, O>, t: Duration) {
    match (run, desugared)
    case (Going(c), Going(d)) =>
      d == c.(stop := Any(c.stop, Elapsed(t)), wait := WithinBudget(c.wait, t))
    case (Ended(result, stats, stop, wait, world), Ended(result', stats', stop', wait', world')) =>
      && result' == result && stats' == stats && world' == world
      && stop' == Any(stop, Elapsed(t)) && wait' == WithinBudget(wait, t)
    case _ => false
  }

  lemma SameIteration<R, A, O>(s: Setup<R, A, O>, t: Duration, c: Cursor<R, A, O>, d: Cursor<R, A, O>)
    requires s.timeout == Some(t) && SameRun(Going(c), Going(d), t)
    ensures SameRun(Iterate(s, c), Iterate(Desugared(s, t), d), t)
  {
    var state := AfterState(s, c);
    assert AfterState(Desugared(s, t), d) == state;
    assert ShouldStop(Elapsed(t), state) == (state.elapsed >= t, Elapsed(t));
    assert ShouldStop(d.stop, state) ==
           (ShouldStop(c.stop, state).0 || state.elapsed >= t, Any(ShouldStop(c.stop, state).1, Elapsed(t)));
    assert NextWait(d.wait, state) ==
           (Min(NextWait(c.wait, state).0, SatSub(t, state.elapsed)), WithinBudget(NextWait(c.wait, state).1, t));
  }

  /** A timeout changes no run: after every number of iterations the two setups
      have the same trace, clock, result and statistics, and their strategies,
      stateful ones included, have been consulted alike. */
  lemma {:induction false} TimeoutDesugars<R, A, O>(s: Setup<R, A, O>, t: Duration, n: nat)
    requires s.timeout == Some(t)
    ensures SameRun(Exec(s, n), Exec(Desugared(s, t), n), t)
  {
    if n > 0 {
      TimeoutDesugars(s, t, n - 1);
      match (Exec(s, n - 1), Exec(Desugared(s, t), n - 1))
      case (Going(c), Going(d)) => SameIteration(s, t, c, d);
      case _ =>
    }
  }
}

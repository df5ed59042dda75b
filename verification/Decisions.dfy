/** Outcome classification (src/decision.rs). */
module Decisions {
  import opened Durations
  import opened States
  import opened Engine

  /** The default classifier: accept any Ok, retry any Err. */
  function Classify<T, E>(outcome: Result<T, E>): Verdict<T, E, Result<T, E>> {
    match outcome
    case Ok(value) => Return(value)
    case Err(_) => Retry(outcome)
  }

  function Accept<T, E>(outcome: Result<T, E>): Verdict<T, E, Result<T, E>> {
    match outcome
    case Ok(value) => Return(value)
    case Err(error) => Abort(error)
  }

  /** `.when(p)`: retry while p wants to, then accept. */
  function When<T, E>(shouldRetry: Result<T, E> -> bool, outcome: Result<T, E>): Verdict<T, E, Result<T, E>> {
    if shouldRetry(outcome) then Retry(outcome) else Accept(outcome)
  }

  /** `.until(p)`: retry until p is satisfied, then accept. */
  function Until<T, E>(satisfied: Result<T, E> -> bool, outcome: Result<T, E>): Verdict<T, E, Result<T, E>> {
    if satisfied(outcome) then Accept(outcome) else Retry(outcome)
  }

  /** The outcome a verdict was made from. */
  function Reassemble<T, E>(verdict: Verdict<T, E, Result<T, E>>): Result<T, E> {
    match verdict
    case Return(value) => Ok(value)
    case Abort(error) => Err(error)
    case Retry(outcome) => outcome
  }

  /** What a classifier does: it retries exactly when its predicate says so, a
      success that is not retried is returned and an error that is not retried is
      fatal, and it neither loses nor alters the outcome it consumes. */
  ghost predicate Classifies<T, E>(verdict: Verdict<T, E, Result<T, E>>, outcome: Result<T, E>, retry: bool) {
    && Reassemble(verdict) == outcome
    && (verdict.Retry? <==> retry)
    && (verdict.Return? <==> !retry && outcome.Ok?)
    && (verdict.Abort? <==> !retry && outcome.Err?)
  }

  lemma ClassifiersAgree<T, E>(p: Result<T, E> -> bool, outcome: Result<T, E>)
    ensures Classifies(When(p, outcome), outcome, p(outcome))
    ensures Classifies(Until(p, outcome), outcome, !p(outcome))
    ensures Classifies(Classify(outcome), outcome, outcome.Err?)
  {
  }

  /** A run under `.when(p)` ends with the first outcome that p does not want
      retried: its value if it is a success, aborted with its error if not. */
  lemma WhenDecidesRuns<T, E>(s: Setup<T, E, Result<T, E>>, p: Result<T, E> -> bool, c: Cursor<T, E, Result<T, E>>)
    requires forall o :: s.decide(o) == When(p, o)
    requires !p(OutcomeOf(s, c))
    ensures Iterate(s, c).Ended?
    ensures Iterate(s, c).result == match OutcomeOf(s, c)
                                    case Ok(value) => Ok(value)
                                    case Err(error) => Err(AbortedWith(error))
  {
    GoesOn(s, c);
  }
}

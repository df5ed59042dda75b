/** Values handed between the engine, its strategies, its hooks and its caller. */
module States {
  import opened Durations

  datatype RetryState = RetryState(attempt: U32, elapsed: Duration, previousDelay: Option<Duration>)

  datatype Verdict<+R, +A, +O> = Return(value: R) | Retry(outcome: O) | Abort(payload: A)

  datatype StopReason = Returned | Aborted | Exhausted

  datatype RetryError<+A, +O> = AbortedWith(abort: A) | ExhaustedWith(last: O)

  datatype Result<+T, +E> = Ok(value: T) | Err(error: E)

  datatype RetryStats = RetryStats(attempts: U32, totalElapsed: Duration, totalWait: Duration, reason: StopReason)

  datatype Exit<+R, +A, +O> =
    | ExitReturned(attempt: U32, elapsed: Duration, value: R)
    | ExitAborted(attempt: U32, elapsed: Duration, abort: A)
    | ExitExhausted(attempt: U32, elapsed: Duration, last: O)

  /** What can be observed of a run: the three hook points, the operation calls
      and the sleeps requested from the clock, in the order they happen. */
  datatype Event<+R, +A, +O> =
    | BeforeAttempt(state: RetryState)
    | OpCall(state: RetryState)
    | AfterAttempt(attempt: U32, elapsed: Duration, outcome: O)
    | Slept(delay: Duration)
    | OnExit(exit: Exit<R, A, O>)
}

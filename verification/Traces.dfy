/** What every run logs, and how often it consults its strategies. */
module Traces {
  import opened Durations
  import opened States
  import opened Stops
  import opened Waits
  import opened Engine

  // ----- the grammar of traces -----

  /** What the caller supplies and is called back through. */
  datatype Caller<R, A, !O> = Caller(decide: O -> Verdict<R, A, O>, op: (nat, RetryState) -> O)

  function CallerOf<R, A, O>(s: Setup<R, A, O>): Caller<R, A, O> {
    Caller(s.decide, s.env.op)
  }

  /** A recogniser for traces that knows the classifier and the operation but no
      strategy and no clock: it checks order, attempt numbers, that each outcome is
      what the operation answers to the state it was shown, the delay handed from one
      attempt to the next, elapsed times never going back, and the exit's payload.
      `calls` counts the operation calls read so far. */
  datatype Grammar<+R, +A, +O> =
    | Fresh
    | Announced(state: RetryState, calls: nat)
    | Running(state: RetryState, calls: nat)
    | Judged(attempt: U32, elapsed: Duration, outcome: O, calls: nat)
    | Resting(attempt: U32, elapsed: Duration, delay: Duration, calls: nat)
    | Closed(exit: Exit<R, A, O>)
    | Wrong

  ghost function Read<R, A, O>(caller: Caller<R, A, O>, g: Grammar<R, A, O>, e: Event<R, A, O>): Grammar<R, A, O> {
    match (g, e)
    case (Fresh, BeforeAttempt(st)) =>
      if st.attempt == 1 && st.previousDelay == None then Announced(st, 0) else Wrong
    case (Announced(st, calls), OpCall(shown)) =>
      if shown == st then Running(st, calls + 1) else Wrong
    case (Running(st, calls), AfterAttempt(attempt, elapsed, outcome)) =>
      if attempt == st.attempt && st.elapsed <= elapsed && outcome == caller.op(calls, st)
      then Judged(attempt, elapsed, outcome, calls) else Wrong
    case (Judged(attempt, elapsed, outcome, calls), Slept(delay)) =>
      if caller.decide(outcome).Retry? && delay > 0 then Resting(attempt, elapsed, delay, calls) else Wrong
    case (Judged(attempt, elapsed, outcome, calls), BeforeAttempt(st)) =>
      if caller.decide(outcome).Retry? && Follows(st, attempt, elapsed, 0) then Announced(st, calls) else Wrong
    case (Resting(attempt, elapsed, delay, calls), BeforeAttempt(st)) =>
      if Follows(st, attempt, elapsed, delay) then Announced(st, calls) else Wrong
    case (Judged(attempt, elapsed, outcome, _), OnExit(exit)) =>
      if exit == ExitOf(caller.decide(outcome), attempt, elapsed) then Closed(exit) else Wrong
    case _ => Wrong
  }

  predicate Follows(st: RetryState, attempt: U32, elapsed: Duration, delay: Duration) {
    st.attempt == SatInc(attempt) && st.previousDelay == Some(delay) && elapsed <= st.elapsed
  }

  /** The only exit a verdict allows; a Retry can only exit as exhausted. */
  function ExitOf<R, A, O>(verdict: Verdict<R, A, O>, attempt: U32, elapsed: Duration): Exit<R, A, O> {
    match verdict
    case Return(value) => ExitReturned(attempt, elapsed, value)
    case Abort(abort) => ExitAborted(attempt, elapsed, abort)
    case Retry(last) => ExitExhausted(attempt, elapsed, last)
  }

  ghost function Scan<R, A, O>(caller: Caller<R, A, O>, log: seq<Event<R, A, O>>): Grammar<R, A, O> {
    if log == [] then Fresh else Read(caller, Scan(caller, log[..|log| - 1]), log[|log| - 1])
  }

  lemma ScanMore<R, A, O>(caller: Caller<R, A, O>, log: seq<Event<R, A, O>>, e: Event<R, A, O>)
    ensures Scan(caller, log + [e]) == Read(caller, Scan(caller, log), e)
  {
    assert (log + [e])[..|log|] == log;
  }

  /** What the caller receives is what the exit hook was shown. */
  ghost predicate ExitAgrees<R, A, O>(exit: Exit<R, A, O>, result: Result<R, RetryError<A, O>>, stats: RetryStats) {
    && stats.attempts == exit.attempt
    && stats.totalElapsed == exit.elapsed
    && match exit
       case ExitReturned(_, _, value) => result == Ok(value) && stats.reason == Returned
       case ExitAborted(_, _, abort) => result == Err(AbortedWith(abort)) && stats.reason == Aborted
       case ExitExhausted(_, _, last) => result == Err(ExhaustedWith(last)) && stats.reason == Exhausted
  }

  ghost predicate ReadyToFollow<R, A, O>(s: Setup<R, A, O>, g: Grammar<R, A, O>, c: Cursor<R, A, O>) {
    var now := Since(s.origin, c.world.clock.now);
    match c.previousDelay
    case None => g == Fresh && c.attempt == 1 && c.world.calls == 0
    case Some(delay) =>
      if delay == 0 then
        && g.Judged? && g.calls == c.world.calls && c.attempt == SatInc(g.attempt)
        && g.elapsed <= now && s.decide(g.outcome).Retry?
      else
        g.Resting? && g.calls == c.world.calls && c.attempt == SatInc(g.attempt) && g.elapsed <= now && g.delay == delay
  }

  /** How the recogniser stands after the attempt made from cursor c. */
  ghost function CallJudged<R, A, O>(s: Setup<R, A, O>, c: Cursor<R, A, O>): Grammar<R, A, O> {
    Judged(c.attempt, PostElapsed(s, c), OutcomeOf(s, c), c.world.calls + 1)
  }

  lemma ScanCall<R, A, O>(s: Setup<R, A, O>, c: Cursor<R, A, O>)
    requires ReadyToFollow(s, Scan(CallerOf(s), c.world.log), c)
    ensures Scan(CallerOf(s), OpReturned(s, c).log) == Running(BeforeState(s, c), c.world.calls + 1)
  {
    var before := BeforeState(s, c);
    var log := c.world.log;
    ScanMore(CallerOf(s), log, BeforeAttempt(before));
    ScanMore(CallerOf(s), log + [BeforeAttempt(before)], OpCall(before));
    assert OpReturned(s, c).log == log + [BeforeAttempt(before)] + [OpCall(before)];
  }

  lemma ScanAttempt<R, A, O>(s: Setup<R, A, O>, c: Cursor<R, A, O>)
    requires ReadyToFollow(s, Scan(CallerOf(s), c.world.log), c)
    ensures Scan(CallerOf(s), AfterLogged(s, c).log) == CallJudged(s, c)
  {
    ScanCall(s, c);
    ScanMore(CallerOf(s), OpReturned(s, c).log, AfterAttempt(c.attempt, PostElapsed(s, c), OutcomeOf(s, c)));
  }

  ghost predicate WellTraced<R, A, O>(s: Setup<R, A, O>, run: Run<R, A, O>) {
    match run
    case Going(c) => ReadyToFollow(s, Scan(CallerOf(s), c.world.log), c)
    case Ended(result, stats, _, _, w) =>
      Scan(CallerOf(s), w.log).Closed? && ExitAgrees(Scan(CallerOf(s), w.log).exit, result, stats)
  }

  lemma ScanIteration<R, A, O>(s: Setup<R, A, O>, c: Cursor<R, A, O>)
    requires ReadyToFollow(s, Scan(CallerOf(s), c.world.log), c)
    ensures WellTraced(s, Iterate(s, c))
  {
    ScanAttempt(s, c);
    if Iterate(s, c).Going? {
      ScanRest(s, c);
    } else {
      ScanExit(s, c);
    }
  }

  lemma ScanRest<R, A, O>(s: Setup<R, A, O>, c: Cursor<R, A, O>)
    requires Scan(CallerOf(s), AfterLogged(s, c).log) == CallJudged(s, c)
    requires Iterate(s, c).Going?
    ensures WellTraced(s, Iterate(s, c))
  {
    GoesOn(s, c);
    var delay := DelayOf(s, c);
    ScanMore(CallerOf(s), AfterLogged(s, c).log, Slept(delay));
  }

  lemma ScanExit<R, A, O>(s: Setup<R, A, O>, c: Cursor<R, A, O>)
    requires Scan(CallerOf(s), AfterLogged(s, c).log) == CallJudged(s, c)
    requires Iterate(s, c).Ended?
    ensures WellTraced(s, Iterate(s, c))
  {
    var fired := StepOf(s, c).fired;
    var exit := fired[1];
    assert exit == OnExit(ExitOf(s.decide(OutcomeOf(s, c)), c.attempt, PostElapsed(s, c)));
    assert Iterate(s, c).world.log == AfterLogged(s, c).log + [exit];
    ScanMore(CallerOf(s), AfterLogged(s, c).log, exit);
  }

  /** Every run in progress has logged whole attempts, and every finished run
      whole attempts followed by the one exit that matches its result. */
  lemma {:induction false} TraceGrammar<R, A, O>(s: Setup<R, A, O>, n: nat)
    ensures WellTraced(s, Exec(s, n))
  {
    if n > 0 {
      TraceGrammar(s, n - 1);
      match Exec(s, n - 1)
      case Going(c) => ScanIteration(s, c);
      case _ =>
    }
  }

  /** A recognised trace holds an exit only at its very end. */
  lemma {:induction false} ExitIsLast<R, A, O>(caller: Caller<R, A, O>, log: seq<Event<R, A, O>>, i: nat)
    requires i < |log| && log[i].OnExit? && Scan(caller, log) != Wrong
    ensures i == |log| - 1 && Scan(caller, log).Closed?
  {
    if i < |log| - 1 {
      ExitIsLast(caller, log[..|log| - 1], i);
    }
  }

  lemma IterationGrows<R, A, O>(s: Setup<R, A, O>, c: Cursor<R, A, O>)
    ensures c.world.log <= WorldOf(Iterate(s, c)).log
  {
    var calls := OpReturned(s, c).log;
    assert c.world.log <= calls <= calls + StepOf(s, c).fired;
  }

  lemma TraceGrowsOnce<R, A, O>(s: Setup<R, A, O>, n: nat)
    ensures WorldOf(Exec(s, n)).log <= WorldOf(Exec(s, n + 1)).log
  {
    match Exec(s, n)
    case Going(c) => IterationGrows(s, c);
    case _ =>
  }

  lemma PrefixOfPrefix<T>(a: seq<T>, b: seq<T>, c: seq<T>)
    requires a <= b <= c
    ensures a <= c
  {
  }

  /** Traces only grow. */
  lemma {:induction false} TraceGrows<R, A, O>(s: Setup<R, A, O>, i: nat, j: nat)
    requires i <= j
    ensures WorldOf(Exec(s, i)).log <= WorldOf(Exec(s, j)).log
    decreases j
  {
    if i < j {
      var m := j - 1;
      TraceGrows(s, i, m);
      TraceGrowsOnce(s, m);
      PrefixOfPrefix(WorldOf(Exec(s, i)).log, WorldOf(Exec(s, m)).log, WorldOf(Exec(s, j)).log);
    }
  }

  // ----- how often the strategies are consulted -----

  /** The states at which the classifier asked for a retry, oldest first. */
  ghost function RetryStates<R, A, O>(s: Setup<R, A, O>, n: nat): seq<RetryState> {
    if n == 0 then []
    else
      RetryStates(s, n - 1) +
      match Exec(s, n - 1)
      case Going(c) => Verdicts(s, c)
      case _ => []
  }

  function StopOf<R, A, O>(run: Run<R, A, O>): Stop {
    match run case Going(c) => c.stop case Ended(_, _, stop, _, _) => stop
  }

  function WaitOf<R, A, O>(run: Run<R, A, O>): Wait {
    match run case Going(c) => c.wait case Ended(_, _, _, wait, _) => wait
  }

  /** Every leaf of the stop tree is shown every Retry verdict, once each: one per
      attempt while the run goes on, and at the end the last attempt only if the
      run was exhausted, be it by the strategy or by the timeout. */
  lemma {:induction false} StopConsultations<R, A, O>(s: Setup<R, A, O>, n: nat)
    ensures StopOf(Exec(s, n)) == Shown(s.stop, RetryStates(s, n))
    ensures Exec(s, n).Going? ==> |RetryStates(s, n)| == n
    ensures Exec(s, n).Ended? ==>
              |RetryStates(s, n)| == WorldOf(Exec(s, n)).calls - if Exec(s, n).stats.reason == Exhausted then 0 else 1
  {
    if n == 0 {
      ShownNothing(s.stop);
    } else {
      StopConsultations(s, n - 1);
      match Exec(s, n - 1)
      case Going(c) =>
        CallsSoFar(s, n - 1);
        ConsultedOnce(s, c, RetryStates(s, n - 1));
      case _ => assert RetryStates(s, n) == RetryStates(s, n - 1);
    }
  }

  ghost function Verdicts<R, A, O>(s: Setup<R, A, O>, c: Cursor<R, A, O>): seq<RetryState> {
    if WantsRetry(s, c) then [AfterState(s, c)] else []
  }

  lemma ConsultedOnce<R, A, O>(s: Setup<R, A, O>, c: Cursor<R, A, O>, states: seq<RetryState>)
    requires c.stop == Shown(s.stop, states)
    ensures StopOf(Iterate(s, c)) == Shown(s.stop, states + Verdicts(s, c))
    ensures Iterate(s, c).Going? ==> |Verdicts(s, c)| == 1
    ensures Iterate(s, c).Ended? ==> |Verdicts(s, c)| == if Iterate(s, c).stats.reason == Exhausted then 1 else 0
    ensures Iterate(s, c).Ended? ==> WorldOf(Iterate(s, c)).calls == c.world.calls + 1
  {
    EveryLeafIsConsulted(s.stop, states, AfterState(s, c));
    assert states + [] == states;
    GoesOn(s, c);
    if Iterate(s, c).Ended? { Ends(s, c); }
  }

  ghost predicate HasAsked<R, A, O>(s: Setup<R, A, O>, n: nat) {
    WaitOf(Exec(s, n)) == Asked(s.wait, RetryStates(s, n)) && |RetryStates(s, n)| == n
  }

  lemma AskedOnce<R, A, O>(s: Setup<R, A, O>, n: nat)
    requires Exec(s, n).Going? && Exec(s, n + 1).Going? && HasAsked(s, n)
    ensures HasAsked(s, n + 1)
  {
    var c := Exec(s, n).c;
    GoesOn(s, c);
    assert RetryStates(s, n + 1) == RetryStates(s, n) + [AfterState(s, c)];
    AskedMore(s.wait, RetryStates(s, n), AfterState(s, c), c.wait);
  }

  /** The wait strategy is consulted once per attempt that is followed by another,
      at the states the stop strategy let pass, and never for the last attempt. */
  lemma {:induction false} WaitConsultations<R, A, O>(s: Setup<R, A, O>, n: nat)
    requires Exec(s, n).Going?
    ensures HasAsked(s, n)
  {
    if n > 0 {
      var m := n - 1;
      GoingBefore(s, m, n);
      WaitConsultations(s, m);
      AskedOnce(s, m);
      assert HasAsked(s, n);
    }
  }

  lemma WaitConsultationsAtEnd<R, A, O>(s: Setup<R, A, O>, n: nat)
    requires Exec(s, n).Ended?
    ensures var k := WorldOf(Exec(s, n)).calls - 1;
            k >= 0 && WaitOf(Exec(s, n)) == Asked(s.wait, RetryStates(s, k)) && |RetryStates(s, k)| == k
  {
    var k := EndsAtItsCalls(s, n);
    WaitConsultations(s, k);
    Ends(s, Exec(s, k).c);
  }

  lemma {:induction false} ToldOnceAsked(wait: Wait, states: seq<RetryState>)
    ensures Told(Asked(wait, states), []) == Told(wait, states)
  {
    if states != [] {
      var init, last := states[..|states| - 1], states[|states| - 1];
      ToldOnceAsked(wait, init);
      EveryWaitLeafIsAsked(Asked(wait, init), wait, init, last);
      assert states == init + [last];
    }
  }

  /** Down in the tree, too: after n iterations every leaf has been asked once at
      each of those states that its chains let through, in order. */
  lemma WaitLeavesAreAsked<R, A, O>(s: Setup<R, A, O>, n: nat)
    requires Exec(s, n).Going?
    ensures Told(WaitOf(Exec(s, n)), []) == Told(s.wait, RetryStates(s, n))
  {
    WaitConsultations(s, n);
    ToldOnceAsked(s.wait, RetryStates(s, n));
  }

  /** A stateful user strategy at the root remembers exactly those states. */
  lemma {:induction false} CustomWaitRemembers(answer: seq<RetryState> -> Duration, seen: seq<RetryState>,
                                               states: seq<RetryState>)
    ensures Asked(Wait.Custom(answer, seen), states) == Wait.Custom(answer, seen + states)
  {
    if states == [] {
      assert seen + [] == seen;
    } else {
      var init, last := states[..|states| - 1], states[|states| - 1];
      CustomWaitRemembers(answer, seen, init);
      assert NextWait(Wait.Custom(answer, seen + init), last).1 == Wait.Custom(answer, seen + init + [last]);
      assert seen + init + [last] == seen + states;
    }
  }

  lemma CustomDelay<R, A, O>(s: Setup<R, A, O>, c: Cursor<R, A, O>, answer: seq<RetryState> -> Duration,
                             states: seq<RetryState>)
    requires c.wait == Wait.Custom(answer, states) && s.timeout == None
    ensures Iterate(s, c).Going? ==> Iterate(s, c).c.previousDelay == Some(answer(states + [AfterState(s, c)]))
  {
    GoesOn(s, c);
  }

  lemma NextRetryState<R, A, O>(s: Setup<R, A, O>, n: nat)
    requires Exec(s, n).Going? && Exec(s, n + 1).Going?
    ensures RetryStates(s, n + 1) == RetryStates(s, n) + [AfterState(s, Exec(s, n).c)]
  {
    GoesOn(s, Exec(s, n).c);
  }

  /** Such a strategy answers from every state it has been asked at, the current one
      included: without a timeout that answer is the delay. */
  lemma CustomWaitAnswers<R, A, O>(s: Setup<R, A, O>, answer: seq<RetryState> -> Duration, n: nat)
    requires s.wait == Wait.Custom(answer, []) && s.timeout == None && Exec(s, n).Going? && Exec(s, n + 1).Going?
    ensures Exec(s, n + 1).c.previousDelay == Some(answer(RetryStates(s, n + 1)))
  {
    var states := RetryStates(s, n);
    WaitConsultations(s, n);
    CustomWaitRemembers(answer, [], states);
    assert [] + states == states;
    NextIteration(s, n);
    CustomDelay(s, Exec(s, n).c, answer, states);
    NextRetryState(s, n);
  }
}

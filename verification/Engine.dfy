/** The shared decision step (src/engine/step.rs) and the blocking retry loop
    (src/engine/mod.rs). */
module Engine {
  import opened Durations
  import opened States
  import opened Stops
  import opened Waits
  import Clocks

  // ----- the world a run lives in -----

  /** How a future spends time: one Pending poll per element of `pending`, each
      letting that much time pass, then `last` before the Ready poll. */
  datatype Ticks = Ticks(pending: seq<nat>, last: nat)

  function Total(t: Ticks): nat {
    Sum(t.pending) + t.last
  }

  /** What the operation does at its n-th call and how the clock moves: `lead`
      from the origin reading to the first attempt, `opTicks` while the operation
      (and the hooks around it) run, `gap` from the end of one attempt to the
      start of the next. Any monotone clock is an instance. */
  datatype Env<+O> = Env(
    op: (nat, RetryState) -> O,
    opTicks: (nat, RetryState) -> Ticks,
    lead: nat,
    gap: (nat, Duration) -> Ticks)

  function GapTime<O>(env: Env<O>, call: nat, delay: Duration): nat {
    Total(env.gap(call, delay))
  }

  /** The clock contract: a completed wait is reflected in later readings. */
  ghost predicate Coherent<O>(env: Env<O>) {
    forall n, d :: GapTime(env, n, d) >= d
  }

  /** A clock that moves between attempts by exactly what was requested, as
      `VirtualClock` does. */
  ghost predicate Exact<O>(env: Env<O>) {
    env.lead == 0 && forall n, d :: GapTime(env, n, d) == d
  }

  datatype Setup<R, A, !O> = Setup(
    decide: O -> Verdict<R, A, O>,
    stop: Stop,
    wait: Wait,
    timeout: Option<Duration>,
    env: Env<O>,
    origin: Duration)

  datatype World<+R, +A, +O> = World(clock: Clocks.ClockState, log: seq<Event<R, A, O>>, calls: nat)

  function Since(origin: Duration, now: Duration): Duration {
    SatSub(now, origin)
  }

  function InitialWorld<R, A, O>(s: Setup<R, A, O>): World<R, A, O> {
    World(Clocks.ClockState(s.origin, []), [], 0)
  }

  // ----- step -----

  datatype Progress = Progress(attempt: U32, elapsed: Duration, previousDelay: Option<Duration>, totalWait: Duration)

  datatype Step<+R, +A, +O> =
    | Done(result: Result<R, RetryError<A, O>>, stats: RetryStats)
    | Continue(delay: Duration, totalWait: Duration)

  /** A step with its effects: the hook events fired, in order, and the
      strategies as their consultations leave them. */
  datatype Stepped<+R, +A, +O> = Stepped(fired: seq<Event<R, A, O>>, stop: Stop, wait: Wait, step: Step<R, A, O>)

  function StatsFor(p: Progress, reason: StopReason): RetryStats {
    RetryStats(p.attempt, p.elapsed, p.totalWait, reason)
  }

  function TakeStep<R, A, O>(p: Progress, outcome: O, decide: O -> Verdict<R, A, O>,
                             stop: Stop, wait: Wait, timeout: Option<Duration>): Stepped<R, A, O>
  {
    var after := AfterAttempt(p.attempt, p.elapsed, outcome);
    var state := RetryState(p.attempt, p.elapsed, p.previousDelay);
    match decide(outcome)
    case Return(value) =>
      Stepped([after, OnExit(ExitReturned(p.attempt, p.elapsed, value))], stop, wait,
              Done(Ok(value), StatsFor(p, Returned)))
    case Abort(abort) =>
      Stepped([after, OnExit(ExitAborted(p.attempt, p.elapsed, abort))], stop, wait,
              Done(Err(AbortedWith(abort)), StatsFor(p, Aborted)))
    case Retry(last) =>
      var timeoutExceeded := timeout.Some? && p.elapsed >= timeout.value;
      var (stopped, stop') := ShouldStop(stop, state);
      if stopped || timeoutExceeded then
        Stepped([after, OnExit(ExitExhausted(p.attempt, p.elapsed, last))], stop', wait,
                Done(Err(ExhaustedWith(last)), StatsFor(p, Exhausted)))
      else
        var (next, wait') := NextWait(wait, state);
        var delay := match timeout case Some(t) => Min(next, SatSub(t, p.elapsed)) case None => next;
        Stepped([after], stop', wait', Continue(delay, SatAdd(p.totalWait, delay)))
  }

  // ----- the loop as a function of the number of iterations -----

  datatype Cursor<+R, +A, +O> = Cursor(
    attempt: U32,
    previousDelay: Option<Duration>,
    totalWait: Duration,
    stop: Stop,
    wait: Wait,
    world: World<R, A, O>)

  datatype Run<+R, +A, +O> =
    | Going(c: Cursor<R, A, O>)
    | Ended(result: Result<R, RetryError<A, O>>, stats: RetryStats, stop: Stop, wait: Wait, world: World<R, A, O>)

  function WorldOf<R, A, O>(run: Run<R, A, O>): World<R, A, O> {
    match run
    case Going(c) => c.world
    case Ended(_, _, _, _, world) => world
  }

  function Start<R, A, O>(s: Setup<R, A, O>): Cursor<R, A, O> {
    var w := InitialWorld(s);
    Cursor(1, None, 0, s.stop, s.wait, w.(clock := Clocks.Advanced(w.clock, s.env.lead)))
  }

  /** What the before hook and the operation are shown. */
  function BeforeState<R, A, O>(s: Setup<R, A, O>, c: Cursor<R, A, O>): RetryState {
    RetryState(c.attempt, Since(s.origin, c.world.clock.now), c.previousDelay)
  }

  function Called<R, A, O>(w: World<R, A, O>, before: RetryState): World<R, A, O> {
    w.(log := w.log + [BeforeAttempt(before), OpCall(before)], calls := w.calls + 1)
  }

  /** The world when the operation called in iteration `c` has come back. */
  function OpReturned<R, A, O>(s: Setup<R, A, O>, c: Cursor<R, A, O>): World<R, A, O> {
    var before := BeforeState(s, c);
    var w := Called(c.world, before);
    w.(clock := Clocks.Advanced(w.clock, Total(s.env.opTicks(w.calls, before))))
  }

  function OutcomeOf<R, A, O>(s: Setup<R, A, O>, c: Cursor<R, A, O>): O {
    s.env.op(c.world.calls + 1, BeforeState(s, c))
  }

  function PostElapsed<R, A, O>(s: Setup<R, A, O>, c: Cursor<R, A, O>): Duration {
    Since(s.origin, OpReturned(s, c).clock.now)
  }

  /** What the stop and wait strategies are shown. */
  function AfterState<R, A, O>(s: Setup<R, A, O>, c: Cursor<R, A, O>): RetryState {
    RetryState(c.attempt, PostElapsed(s, c), c.previousDelay)
  }

  function StepOf<R, A, O>(s: Setup<R, A, O>, c: Cursor<R, A, O>): Stepped<R, A, O> {
    TakeStep(Progress(c.attempt, PostElapsed(s, c), c.previousDelay, c.totalWait),
             OutcomeOf(s, c), s.decide, c.stop, c.wait, s.timeout)
  }

  function Logged<R, A, O>(w: World<R, A, O>, events: seq<Event<R, A, O>>): World<R, A, O> {
    w.(log := w.log + events)
  }

  /** The world at the start of the next attempt; a zero delay is not slept. */
  function Rested<R, A, O>(s: Setup<R, A, O>, w: World<R, A, O>, delay: Duration): World<R, A, O> {
    var clock := Clocks.Advanced(w.clock, GapTime(s.env, w.calls, delay));
    if delay == 0 then w.(clock := clock)
    else World(clock.(waits := clock.waits + [delay]), w.log + [Slept(delay)], w.calls)
  }

  /** What the driver does with a step: finish, or rest and count on. */
  function Resolve<R, A, O>(s: Setup<R, A, O>, attempt: U32, step: Step<R, A, O>,
                            stop: Stop, wait: Wait, w: World<R, A, O>): Run<R, A, O>
  {
    match step
    case Done(result, stats) => Ended(result, stats, stop, wait, w)
    case Continue(delay, total) =>
      Going(Cursor(SatInc(attempt), Some(delay), total, stop, wait, Rested(s, w, delay)))
  }

  function Iterate<R, A, O>(s: Setup<R, A, O>, c: Cursor<R, A, O>): Run<R, A, O> {
    var st := StepOf(s, c);
    Resolve(s, c.attempt, st.step, st.stop, st.wait, Logged(OpReturned(s, c), st.fired))
  }

  /** The run after n iterations of the loop, or its end if it ended before. */
  function Exec<R, A, O>(s: Setup<R, A, O>, n: nat): Run<R, A, O> {
    if n == 0 then Going(Start(s))
    else
      match Exec(s, n - 1)
      case Going(c) => Iterate(s, c)
      case ended => ended
  }

  lemma {:induction false} EndIsFinal<R, A, O>(s: Setup<R, A, O>, i: nat, j: nat)
    requires i <= j && Exec(s, i).Ended?
    ensures Exec(s, j) == Exec(s, i)
    decreases j
  {
    if i < j { EndIsFinal(s, i, j - 1); }
  }

  lemma {:induction false} GoingBefore<R, A, O>(s: Setup<R, A, O>, i: nat, j: nat)
    requires i <= j && Exec(s, j).Going?
    ensures Exec(s, i).Going?
  {
    if Exec(s, i).Ended? { EndIsFinal(s, i, j); }
  }

  lemma NextIteration<R, A, O>(s: Setup<R, A, O>, k: nat)
    requires Exec(s, k).Going?
    ensures Exec(s, k + 1) == Iterate(s, Exec(s, k).c)
  {
  }

  lemma EndsLater<R, A, O>(s: Setup<R, A, O>, k: nat, limit: nat)
    requires Exec(s, k).Going? && Exec(s, limit).Ended?
    ensures k < limit && Exec(s, k + 1) == Iterate(s, Exec(s, k).c)
    ensures Exec(s, k + 1).Ended? ==> Exec(s, k + 1) == Exec(s, limit)
  {
    NextIteration(s, k);
    if limit <= k {
      EndIsFinal(s, limit, k);
    } else if Exec(s, k + 1).Ended? {
      EndIsFinal(s, k + 1, limit);
    }
  }

  ghost predicate CallsCounted<R, A, O>(run: Run<R, A, O>, n: nat) {
    match run
    case Going(c) => c.world.calls == n && c.attempt == Min(n + 1, U32_MAX)
    case Ended(_, stats, _, _, world) => 1 <= world.calls <= n && stats.attempts == Min(world.calls, U32_MAX)
  }

  lemma IterationCounts<R, A, O>(s: Setup<R, A, O>, c: Cursor<R, A, O>, n: nat)
    requires CallsCounted(Going(c), n)
    ensures CallsCounted(Iterate(s, c), n + 1)
  {
  }

  /** While it goes on, a run has made one call per iteration. */
  lemma {:induction false} CallsSoFar<R, A, O>(s: Setup<R, A, O>, n: nat)
    ensures CallsCounted(Exec(s, n), n)
  {
    if n > 0 {
      var m := n - 1;
      CallsSoFar(s, m);
      match Exec(s, m)
      case Going(c) => IterationCounts(s, c, m);
      case _ =>
    }
  }

  /** The iteration a run ends in is the number of its operation calls. */
  lemma {:induction false} EndsAtItsCalls<R, A, O>(s: Setup<R, A, O>, n: nat) returns (k: nat)
    requires Exec(s, n).Ended?
    ensures k < n && k + 1 == WorldOf(Exec(s, n)).calls
    ensures Exec(s, k).Going? && Exec(s, k + 1) == Exec(s, n)
  {
    var m := n - 1;
    if Exec(s, m).Going? {
      k := m;
      CallsSoFar(s, k);
      EndingCall(s, Exec(s, k).c, k);
    } else {
      k := EndsAtItsCalls(s, m);
    }
  }

  lemma EndingCall<R, A, O>(s: Setup<R, A, O>, c: Cursor<R, A, O>, k: nat)
    requires c.world.calls == k
    ensures Iterate(s, c).Ended? ==> WorldOf(Iterate(s, c)).calls == k + 1
  {
  }

  // ----- one iteration, by cases -----

  predicate WantsRetry<R, A, O>(s: Setup<R, A, O>, c: Cursor<R, A, O>) {
    s.decide(OutcomeOf(s, c)).Retry?
  }

  /** The stop strategy, or the timeout, ends a run that would retry. */
  predicate Exhausts<R, A, O>(s: Setup<R, A, O>, c: Cursor<R, A, O>) {
    ShouldStop(c.stop, AfterState(s, c)).0 || (s.timeout.Some? && PostElapsed(s, c) >= s.timeout.value)
  }

  /** The delay before the next attempt: what the strategy asks for, clamped to
      what is left of the timeout. */
  function DelayOf<R, A, O>(s: Setup<R, A, O>, c: Cursor<R, A, O>): Duration {
    var next := NextWait(c.wait, AfterState(s, c)).0;
    match s.timeout case Some(t) => Min(next, SatSub(t, PostElapsed(s, c))) case None => next
  }

  function AfterLogged<R, A, O>(s: Setup<R, A, O>, c: Cursor<R, A, O>): World<R, A, O> {
    Logged(OpReturned(s, c), [AfterAttempt(c.attempt, PostElapsed(s, c), OutcomeOf(s, c))])
  }

  lemma GoesOn<R, A, O>(s: Setup<R, A, O>, c: Cursor<R, A, O>)
    ensures Iterate(s, c).Going? <==> WantsRetry(s, c) && !Exhausts(s, c)
    ensures Iterate(s, c).Going? ==>
              Iterate(s, c).c == Cursor(SatInc(c.attempt), Some(DelayOf(s, c)), SatAdd(c.totalWait, DelayOf(s, c)),
                                        ShouldStop(c.stop, AfterState(s, c)).1, NextWait(c.wait, AfterState(s, c)).1,
                                        Rested(s, AfterLogged(s, c), DelayOf(s, c)))
  {
  }

  lemma Ends<R, A, O>(s: Setup<R, A, O>, c: Cursor<R, A, O>)
    requires Iterate(s, c).Ended?
    ensures Iterate(s, c).wait == c.wait
    ensures Iterate(s, c).stop == if WantsRetry(s, c) then ShouldStop(c.stop, AfterState(s, c)).1 else c.stop
    ensures Iterate(s, c).stats == RetryStats(c.attempt, PostElapsed(s, c), c.totalWait, Iterate(s, c).stats.reason)
    ensures WantsRetry(s, c) <==> Iterate(s, c).stats.reason == Exhausted
    ensures Iterate(s, c).world.clock == OpReturned(s, c).clock && Iterate(s, c).world.calls == c.world.calls + 1
  {
  }

  // ----- the loop as the source runs it -----

  class SyncRetry<R, A, O> {
    const setup: Setup<R, A, O>
    var stop: Stop
    var wait: Wait
    var world: World<R, A, O>

    constructor (setup: Setup<R, A, O>)
      ensures this.setup == setup && Unused()
    {
      this.setup := setup;
      stop, wait := setup.stop, setup.wait;
      world := InitialWorld(setup);
    }

    ghost predicate Unused()
      reads this
    {
      stop == setup.stop && wait == setup.wait && world == InitialWorld(setup)
    }

    method PassTime(ticks: nat)
      modifies this`world
      ensures world == old(world).(clock := Clocks.Advanced(old(world).clock, ticks))
    {
      world := world.(clock := Clocks.Advanced(world.clock, ticks));
    }

    method CallOp(state: RetryState) returns (outcome: O)
      modifies this`world
      ensures outcome == setup.env.op(world.calls, state)
      ensures world.calls == old(world).calls + 1 && world.log == old(world).log + [OpCall(state)]
      ensures world.clock == Clocks.Advanced(old(world).clock, Total(setup.env.opTicks(world.calls, state)))
    {
      world := world.(log := world.log + [OpCall(state)], calls := world.calls + 1);
      outcome := setup.env.op(world.calls, state);
      PassTime(Total(setup.env.opTicks(world.calls, state)));
    }

    /** One attempt: the before hook, the operation, the shared step. */
    method Attempt(origin: Duration, attempt: U32, previousDelay: Option<Duration>, totalWait: Duration)
      returns (step: Step<R, A, O>)
      requires origin == setup.origin
      modifies this
      ensures var c := Cursor(attempt, previousDelay, totalWait, old(stop), old(wait), old(world));
              Iterate(setup, c) == Resolve(setup, attempt, step, stop, wait, world)
    {
      ghost var c := Cursor(attempt, previousDelay, totalWait, stop, wait, world);
      var before := RetryState(attempt, Since(origin, world.clock.now), previousDelay);
      world := Logged(world, [BeforeAttempt(before)]);
      var outcome := CallOp(before);
      assert world.log == c.world.log + [BeforeAttempt(before), OpCall(before)];
      var postElapsed := Since(origin, world.clock.now);
      var st := TakeStep(Progress(attempt, postElapsed, previousDelay, totalWait),
                         outcome, setup.decide, stop, wait, setup.timeout);
      assert world == OpReturned(setup, c) && st == StepOf(setup, c);
      world := Logged(world, st.fired);
      stop, wait := st.stop, st.wait;
      step := st.step;
    }

    /** The blocking sleep, skipped for a zero delay. */
    method Rest(delay: Duration)
      modifies this`world
      ensures world == Rested(setup, old(world), delay)
    {
      PassTime(GapTime(setup.env, world.calls, delay));
      if delay != 0 {
        world := Logged(world.(clock := world.clock.(waits := world.clock.waits + [delay])), [Slept(delay)]);
      }
    }

    /** The body of the loop. A Continue step leaves the object at the start of
        the next attempt, slept and ready. */
    method Iteration(origin: Duration, attempt: U32, previousDelay: Option<Duration>, totalWait: Duration)
      returns (step: Step<R, A, O>)
      requires origin == setup.origin
      modifies this
      ensures Iterate(setup, Cursor(attempt, previousDelay, totalWait, old(stop), old(wait), old(world))) ==
              match step
              case Done(result, stats) => Ended(result, stats, stop, wait, world)
              case Continue(delay, running) => Going(Cursor(SatInc(attempt), Some(delay), running, stop, wait, world))
    {
      step := Attempt(origin, attempt, previousDelay, totalWait);
      if step.Continue? {
        Rest(step.delay);
      }
    }

    ghost predicate At(k: nat, attempt: U32, previousDelay: Option<Duration>, totalWait: Duration)
      reads this
    {
      Exec(setup, k) == Going(Cursor(attempt, previousDelay, totalWait, stop, wait, world))
    }

    /** Iteration number k + 1 of a run that has ended by `limit`. */
    method NumberedIteration(ghost k: nat, ghost limit: nat, origin: Duration,
                             attempt: U32, previousDelay: Option<Duration>, totalWait: Duration)
      returns (step: Step<R, A, O>)
      requires origin == setup.origin && Exec(setup, limit).Ended? && At(k, attempt, previousDelay, totalWait)
      modifies this
      ensures k < limit
      ensures match step
              case Done(result, stats) => Exec(setup, limit) == Ended(result, stats, stop, wait, world)
              case Continue(delay, running) => At(k + 1, SatInc(attempt), Some(delay), running)
    {
      EndsLater(setup, k, limit);
      ghost var next := Exec(setup, k + 1);
      step := Iteration(origin, attempt, previousDelay, totalWait);
      assert next == match step
                     case Done(r, t) => Ended(r, t, stop, wait, world)
                     case Continue(d, w) => Going(Cursor(SatInc(attempt), Some(d), w, stop, wait, world));
    }

    /** Every run that ends, ends here with the same result, statistics, final
        strategies, clock and trace; `limit` is any number of iterations by which
        it has ended. */
    method Run(ghost limit: nat) returns (result: Result<R, RetryError<A, O>>, stats: RetryStats)
      requires Unused() && Exec(setup, limit).Ended?
      modifies this
      ensures Exec(setup, limit) == Ended(result, stats, stop, wait, world)
    {
      var origin := world.clock.now;
      PassTime(setup.env.lead);
      var attempt: U32 := 1;
      var previousDelay: Option<Duration> := None;
      var totalWait: Duration := 0;
      ghost var k: nat := 0;
      while true
        invariant origin == setup.origin
        invariant At(k, attempt, previousDelay, totalWait)
        decreases limit - k
      {
        var step := NumberedIteration(k, limit, origin, attempt, previousDelay, totalWait);
        match step {
          case Done(r, t) =>
            return r, t;
          case Continue(delay, running) =>
            totalWait := running;
            previousDelay := Some(delay);
            attempt := SatInc(attempt);
        }
        k := k + 1;
      }
    }
  }
}

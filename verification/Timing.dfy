/** Time over whole runs: conservation of waiting, the timeout, and where runs
    that only the timeout ends come to rest. */
module Timing {
  import opened Durations
  import opened States
  import opened Stops
  import opened Waits
  import opened Engine
  import opened Traces
  import opened Limits
  import Clocks

  // ----- conservation of waiting -----

  /** The delays scheduled by the first n iterations, oldest first. */
  ghost function Delays<R, A, O>(s: Setup<R, A, O>, n: nat): seq<Duration> {
    if n == 0 then []
    else
      Delays(s, n - 1) +
      match Exec(s, n - 1)
      case Going(c) => Scheduled(s, c)
      case _ => []
  }

  ghost function Scheduled<R, A, O>(s: Setup<R, A, O>, c: Cursor<R, A, O>): seq<Duration> {
    if Iterate(s, c).Going? then [DelayOf(s, c)] else []
  }

  /** The time spent inside operations. */
  ghost function OpTime<R, A, O>(s: Setup<R, A, O>, n: nat): nat {
    if n == 0 then 0
    else
      OpTime(s, n - 1) +
      match Exec(s, n - 1)
      case Going(c) => OpTicks(s, c)
      case _ => 0
  }

  function OpTicks<R, A, O>(s: Setup<R, A, O>, c: Cursor<R, A, O>): nat {
    Total(s.env.opTicks(c.world.calls + 1, BeforeState(s, c)))
  }

  function Nonzero(delays: seq<Duration>): seq<Duration> {
    if delays == [] then []
    else Nonzero(delays[..|delays| - 1]) + if delays[|delays| - 1] > 0 then [delays[|delays| - 1]] else []
  }

  lemma NonzeroMore(delays: seq<Duration>, d: Duration)
    ensures Nonzero(delays + [d]) == Nonzero(delays) + if d > 0 then [d] else []
  {
    assert (delays + [d])[..|delays|] == delays;
  }

  function TotalWaitOf<R, A, O>(run: Run<R, A, O>): Duration {
    match run case Going(c) => c.totalWait case Ended(_, stats, _, _, _) => stats.totalWait
  }

  ghost predicate Conserves<R, A, O>(run: Run<R, A, O>, delays: seq<Duration>) {
    TotalWaitOf(run) == Saturate(Sum(delays)) && WorldOf(run).clock.waits == Nonzero(delays)
  }

  lemma ConservesOnceMore<R, A, O>(s: Setup<R, A, O>, n: nat)
    requires Conserves(Exec(s, n), Delays(s, n))
    ensures Conserves(Exec(s, n + 1), Delays(s, n + 1))
  {
    match Exec(s, n)
    case Going(c) => IterationConserves(s, c, Delays(s, n));
    case _ => assert Delays(s, n + 1) == Delays(s, n);
  }

  /** The reported total is the saturated sum of the scheduled delays, and the
      clock was asked for exactly the nonzero ones, in order. */
  lemma {:induction false} WaitingIsConserved<R, A, O>(s: Setup<R, A, O>, n: nat)
    ensures TotalWaitOf(Exec(s, n)) == Saturate(Sum(Delays(s, n)))
    ensures WorldOf(Exec(s, n)).clock.waits == Nonzero(Delays(s, n))
  {
    if n > 0 {
      var m := n - 1;
      WaitingIsConserved(s, m);
      ConservesOnceMore(s, m);
      assert Conserves(Exec(s, n), Delays(s, n));
    }
  }

  lemma IterationConserves<R, A, O>(s: Setup<R, A, O>, c: Cursor<R, A, O>, delays: seq<Duration>)
    requires c.totalWait == Saturate(Sum(delays)) && c.world.clock.waits == Nonzero(delays)
    ensures TotalWaitOf(Iterate(s, c)) == Saturate(Sum(delays + Scheduled(s, c)))
    ensures WorldOf(Iterate(s, c)).clock.waits == Nonzero(delays + Scheduled(s, c))
  {
    if Iterate(s, c).Going? {
      GoesOn(s, c);
      SumAppend(delays, DelayOf(s, c));
      NonzeroMore(delays, DelayOf(s, c));
    } else {
      Ends(s, c);
      assert delays + [] == delays;
    }
  }

  ghost predicate AddsUp<R, A, O>(s: Setup<R, A, O>, run: Run<R, A, O>, delays: seq<Duration>, worked: nat) {
    WorldOf(run).clock.now == SatAdd(s.origin, Sum(delays) + worked)
  }

  /** On an exact clock the reading is the origin plus all waiting plus all
      operation time, saturated. */
  lemma {:induction false} ExactClockAddsUp<R, A, O>(s: Setup<R, A, O>, n: nat)
    requires Exact(s.env)
    ensures AddsUp(s, Exec(s, n), Delays(s, n), OpTime(s, n))
  {
    if n > 0 {
      ExactClockAddsUp(s, n - 1);
      match Exec(s, n - 1)
      case Going(c) => IterationAddsUp(s, c, Delays(s, n - 1), OpTime(s, n - 1));
      case _ => assert Delays(s, n) == Delays(s, n - 1);
    }
  }

  lemma IterationAddsUp<R, A, O>(s: Setup<R, A, O>, c: Cursor<R, A, O>, delays: seq<Duration>, worked: nat)
    requires Exact(s.env) && AddsUp(s, Going(c), delays, worked)
    ensures AddsUp(s, Iterate(s, c), delays + Scheduled(s, c), worked + OpTicks(s, c))
  {
    if Iterate(s, c).Going? {
      GoesOn(s, c);
      SumAppend(delays, DelayOf(s, c));
    } else {
      Ends(s, c);
      assert delays + [] == delays;
    }
  }

  /** Elapsed time as a clock started at `origin` can show it. */
  function Showable(origin: Duration, passed: nat): Duration {
    Min(passed, MAX - origin)
  }

  /** What is shown before the attempt, after it, and reported if it is the last. */
  ghost predicate ShowsElapsed<R, A, O>(s: Setup<R, A, O>, c: Cursor<R, A, O>, before: nat, after: nat) {
    && BeforeState(s, c).elapsed == Showable(s.origin, before)
    && AfterState(s, c).elapsed == Showable(s.origin, after)
    && (Iterate(s, c).Ended? ==> Iterate(s, c).stats.totalElapsed == Showable(s.origin, after))
  }

  lemma ShownElapsed<R, A, O>(s: Setup<R, A, O>, c: Cursor<R, A, O>, passed: nat)
    requires c.world.clock.now == SatAdd(s.origin, passed)
    ensures ShowsElapsed(s, c, passed, passed + OpTicks(s, c))
  {
    if Iterate(s, c).Ended? { Ends(s, c); }
  }

  /** On an exact clock the hooks, the operation and the strategies are shown, and
      the statistics report, the time spent waiting and in operations so far. */
  lemma ElapsedAddsUp<R, A, O>(s: Setup<R, A, O>, n: nat)
    requires Exact(s.env) && Exec(s, n).Going?
    ensures var c, passed := Exec(s, n).c, Sum(Delays(s, n)) + OpTime(s, n);
            ShowsElapsed(s, c, passed, passed + OpTicks(s, c))
  {
    ExactClockAddsUp(s, n);
    ShownElapsed(s, Exec(s, n).c, Sum(Delays(s, n)) + OpTime(s, n));
  }

  /** The delay before the (n + 1)-th attempt: the last that has been scheduled. */
  function LastOf(delays: seq<Duration>): Option<Duration> {
    if delays == [] then None else Some(delays[|delays| - 1])
  }

  ghost predicate Shows<R, A, O>(s: Setup<R, A, O>, run: Run<R, A, O>, n: nat, delays: seq<Duration>) {
    run.Going? ==>
      && |delays| == n
      && BeforeState(s, run.c).attempt == AfterState(s, run.c).attempt == Min(n + 1, U32_MAX)
      && BeforeState(s, run.c).previousDelay == AfterState(s, run.c).previousDelay == LastOf(delays)
  }

  lemma ShowsOnceMore<R, A, O>(s: Setup<R, A, O>, n: nat)
    requires Shows(s, Exec(s, n), n, Delays(s, n))
    ensures Shows(s, Exec(s, n + 1), n + 1, Delays(s, n + 1))
  {
    match Exec(s, n)
    case Going(c) => GoesOn(s, c);
    case _ =>
  }

  /** At every attempt the before hook, the operation and the strategies are shown
      the attempt's number and the delay scheduled last, none at the first. */
  lemma {:induction false} StatesShown<R, A, O>(s: Setup<R, A, O>, n: nat)
    ensures Shows(s, Exec(s, n), n, Delays(s, n))
  {
    if n > 0 {
      var m := n - 1;
      StatesShown(s, m);
      ShowsOnceMore(s, m);
    }
  }

  /** With an exact environment the engine moves the clock as `VirtualClock` does. */
  lemma ExactClockIsVirtual<R, A, O>(s: Setup<R, A, O>, w: World<R, A, O>, delay: Duration)
    requires Exact(s.env)
    ensures Rested(s, w, delay).clock == if delay == 0 then w.clock else Clocks.Waited(w.clock, delay)
  {
  }

  // ----- timeout safety -----

  ghost predicate WithinTimeout<R, A, O>(s: Setup<R, A, O>, c: Cursor<R, A, O>, t: Duration) {
    s.origin <= c.world.clock.now && c.totalWait <= Min(t, Since(s.origin, c.world.clock.now))
  }

  lemma TimeoutIteration<R, A, O>(s: Setup<R, A, O>, c: Cursor<R, A, O>, t: Duration)
    requires Coherent(s.env) && s.timeout == Some(t) && s.origin + t <= MAX && WithinTimeout(s, c, t)
    ensures TotalWaitOf(Iterate(s, c)) <= t
    ensures Iterate(s, c).Going? ==> WithinTimeout(s, Iterate(s, c).c, t)
  {
    if Iterate(s, c).Going? {
      GoesOn(s, c);
      var delay := DelayOf(s, c);
    } else {
      Ends(s, c);
    }
  }

  lemma {:induction false} TimeoutBoundsWaiting<R, A, O>(s: Setup<R, A, O>, t: Duration, n: nat)
    requires Coherent(s.env) && s.timeout == Some(t) && s.origin + t <= MAX
    ensures TotalWaitOf(Exec(s, n)) <= t
    ensures Exec(s, n).Going? ==> WithinTimeout(s, Exec(s, n).c, t)
  {
    if n > 0 {
      TimeoutBoundsWaiting(s, t, n - 1);
      match Exec(s, n - 1)
      case Going(c) => TimeoutIteration(s, c, t);
      case _ =>
    }
  }

  /** A run on the virtual clock whose fixed delay is the timeout itself. */
  function PinnedSetup(origin: Duration, t: Duration): Setup<bool, bool, bool> {
    Setup(o => Verdict.Retry(o), Attempts(3), Fixed(t), Some(t),
          Env((n, st) => false, (n, st) => Ticks([], 0), 0, (n: nat, d: Duration) => Ticks([], d)), origin)
  }

  /** When the deadline lies beyond the last instant the clock can show, the
      clock sticks at MAX, elapsed time stops short of the timeout, and the run
      above waits for longer than its timeout. */
  lemma PinnedClockOutwaitsTimeout(origin: Duration, t: Duration)
    requires origin + t > MAX && t < MAX
    ensures Exact(PinnedSetup(origin, t).env)
    ensures Exec(PinnedSetup(origin, t), 3).Ended?
    ensures Exec(PinnedSetup(origin, t), 3).stats.totalWait > t
  {
    var s := PinnedSetup(origin, t);
    var c1 := Exec(s, 0).c;
    GoesOn(s, c1);
    assert DelayOf(s, c1) == t;
    var c2 := Exec(s, 1).c;
    assert c2.world.clock.now == MAX && c2.totalWait == t;
    GoesOn(s, c2);
    assert DelayOf(s, c2) == t - (MAX - origin);
    var c3 := Exec(s, 2).c;
    GoesOn(s, c3);
    Ends(s, c3);
  }

  /** The guarantee "no run on an exact clock waits beyond its timeout" holds for
      an origin and a timeout exactly when the deadline is showable, or the
      timeout is MAX and so cannot be exceeded. */
  lemma TimeoutSafetyCondition<R, A, O>(s: Setup<R, A, O>, t: Duration, n: nat)
    ensures Coherent(s.env) && s.timeout == Some(t) && (s.origin + t <= MAX || t == MAX) ==>
              TotalWaitOf(Exec(s, n)) <= t
    ensures !(s.origin + t <= MAX || t == MAX) ==>
              var p := PinnedSetup(s.origin, t);
              Exact(p.env) && p.origin == s.origin && p.timeout == Some(t) && TotalWaitOf(Exec(p, 3)) > t
  {
    if Coherent(s.env) && s.timeout == Some(t) && s.origin + t <= MAX {
      TimeoutBoundsWaiting(s, t, n);
    }
    if s.origin + t > MAX && t < MAX {
      PinnedClockOutwaitsTimeout(s.origin, t);
    }
  }

  ghost predicate StartsInTime<R, A, O>(s: Setup<R, A, O>, run: Run<R, A, O>, t: Duration) {
    run.Going? ==> s.origin <= run.c.world.clock.now && BeforeState(s, run.c).elapsed <= t
  }

  /** On an exact clock every attempt starts within the timeout. */
  lemma {:induction false} AttemptsStartInTime<R, A, O>(s: Setup<R, A, O>, t: Duration, n: nat)
    requires Exact(s.env) && s.timeout == Some(t)
    ensures StartsInTime(s, Exec(s, n), t)
  {
    if n > 0 {
      AttemptsStartInTime(s, t, n - 1);
      match Exec(s, n - 1)
      case Going(c) => NextStartsInTime(s, c, t);
      case _ =>
    }
  }

  lemma NextStartsInTime<R, A, O>(s: Setup<R, A, O>, c: Cursor<R, A, O>, t: Duration)
    requires Exact(s.env) && s.timeout == Some(t) && StartsInTime(s, Going(c), t)
    ensures StartsInTime(s, Iterate(s, c), t)
    ensures Iterate(s, c).Ended? ==> Iterate(s, c).stats.totalElapsed <= t + OpTicks(s, c)
  {
    GoesOn(s, c);
    if Iterate(s, c).Ended? { Ends(s, c); }
  }

  /** So a run overruns its timeout by no more than its last operation took. */
  lemma OverrunIsLastOperation<R, A, O>(s: Setup<R, A, O>, t: Duration, n: nat) returns (last: nat)
    requires Exact(s.env) && s.timeout == Some(t) && Exec(s, n).Ended?
    ensures last < n && Exec(s, last).Going? && Exec(s, last + 1) == Exec(s, n)
    ensures Exec(s, n).stats.totalElapsed <= t + OpTicks(s, Exec(s, last).c)
  {
    last := EndsAtItsCalls(s, n);
    AttemptsStartInTime(s, t, last);
    NextStartsInTime(s, Exec(s, last).c, t);
  }

  // ----- runs that the timeout ends -----

  /** However often it is asked, the strategy never answers less than m. */
  ghost predicate NeverBelow(wait: Wait, m: nat) {
    forall states: seq<RetryState>, st: RetryState :: NextWait(Asked(wait, states), st).0 >= m
  }

  lemma {:induction false} IntervalOnceAsked(wait: Wait, states: seq<RetryState>, st: RetryState)
    ensures Low(Asked(wait, states), st) == Low(wait, st) && High(Asked(wait, states), st) == High(wait, st)
  {
    if states != [] {
      var init, last := states[..|states| - 1], states[|states| - 1];
      IntervalOnceAsked(wait, init, st);
      IntervalIsStable(Asked(wait, init), last, st);
    }
  }

  /** Any tree whose intervals start at m or above ... */
  lemma IntervalGivesFloor(wait: Wait, m: nat)
    requires forall st :: Low(wait, st) >= m
    ensures NeverBelow(wait, m)
  {
    forall states: seq<RetryState>, st: RetryState ensures NextWait(Asked(wait, states), st).0 >= m {
      IntervalOnceAsked(wait, states, st);
      NextWaitInInterval(Asked(wait, states), st);
    }
  }

  /** ... and any user strategy whose answers do. */
  lemma AnswersGiveFloor(answer: seq<RetryState> -> Duration, seen: seq<RetryState>, m: nat)
    requires forall states :: answer(states) >= m
    ensures NeverBelow(Wait.Custom(answer, seen), m)
  {
    forall states: seq<RetryState>, st: RetryState
      ensures NextWait(Asked(Wait.Custom(answer, seen), states), st).0 >= m
    {
      CustomWaitRemembers(answer, seen, states);
    }
  }

  /** Constant and linear backoff never go below their first delay, exponential
      backoff not below its rounded start, which is the start up to 2^53 ns. */
  lemma BackoffsHaveFloors(d: Duration, increment: Duration, base: Base)
    ensures NeverBelow(Fixed(d), d) && NeverBelow(Linear(d, increment), d)
    ensures NeverBelow(Exponential(d, base), Saturate(AsDouble(d)))
    ensures d <= 0x20_0000_0000_0000 ==> AsDouble(d) == d
  {
    IntervalGivesFloor(Fixed(d), d);
    IntervalGivesFloor(Linear(d, increment), d);
    forall st ensures Low(Exponential(d, base), st) >= Saturate(AsDouble(d)) {
      ExponentialIsMonotone(d, base, st, st);
    }
    IntervalGivesFloor(Exponential(d, base), Saturate(AsDouble(d)));
    AsDoubleIsNearest(d);
  }

  lemma AsksAtLeast<R, A, O>(s: Setup<R, A, O>, m: nat, n: nat)
    requires NeverBelow(s.wait, m) && Exec(s, n).Going?
    ensures forall st :: NextWait(Exec(s, n).c.wait, st).0 >= m
  {
    WaitConsultations(s, n);
  }

  /** Time has moved on by m per iteration, or the deadline is reached. */
  ghost predicate Advanced<R, A, O>(s: Setup<R, A, O>, run: Run<R, A, O>, t: Duration, least: nat) {
    run.Going? ==> s.origin <= run.c.world.clock.now && Since(s.origin, run.c.world.clock.now) >= Min(t, least)
  }

  lemma AdvancesOnce<R, A, O>(s: Setup<R, A, O>, c: Cursor<R, A, O>, t: Duration, m: nat, least: nat)
    requires Coherent(s.env) && s.timeout == Some(t) && s.origin + t <= MAX
    requires Advanced(s, Going(c), t, least) && forall st :: NextWait(c.wait, st).0 >= m
    ensures Advanced(s, Iterate(s, c), t, least + m)
    ensures least >= t ==> Iterate(s, c).Ended?
  {
    GoesOn(s, c);
    assert NextWait(c.wait, AfterState(s, c)).0 >= m;
    assert PostElapsed(s, c) >= Min(t, least);
  }

  ghost predicate AdvancedTo<R, A, O>(s: Setup<R, A, O>, t: Duration, m: nat, n: nat) {
    Advanced(s, Exec(s, n), t, Steps(n, m))
  }

  lemma AdvancesOnceMore<R, A, O>(s: Setup<R, A, O>, t: Duration, m: nat, n: nat)
    requires Coherent(s.env) && s.timeout == Some(t) && s.origin + t <= MAX && NeverBelow(s.wait, m)
    requires AdvancedTo(s, t, m, n)
    ensures AdvancedTo(s, t, m, n + 1)
  {
    if Exec(s, n).Going? {
      AsksAtLeast(s, m, n);
      AdvancesOnce(s, Exec(s, n).c, t, m, Steps(n, m));
    }
  }

  lemma {:induction false} ElapsedPerIteration<R, A, O>(s: Setup<R, A, O>, t: Duration, m: nat, n: nat)
    requires Coherent(s.env) && s.timeout == Some(t) && s.origin + t <= MAX && NeverBelow(s.wait, m)
    ensures Advanced(s, Exec(s, n), t, Steps(n, m))
  {
    if n > 0 {
      var k := n - 1;
      ElapsedPerIteration(s, t, m, k);
      AdvancesOnceMore(s, t, m, k);
      assert AdvancedTo(s, t, m, n);
    }
  }

  /** A timeout that the clock can show ends every run whose delays have a floor
      m > 0 within ceil(t / m) + 1 attempts: for every operation, classifier and
      stop strategy, on every coherent clock. */
  lemma TimeoutEndsRun<R, A, O>(s: Setup<R, A, O>, t: Duration, m: nat)
    requires Coherent(s.env) && s.timeout == Some(t) && s.origin + t <= MAX
    requires m > 0 && NeverBelow(s.wait, m)
    ensures Exec(s, CeilDiv(t, m) + 1).Ended?
  {
    var n := CeilDiv(t, m);
    ElapsedPerIteration(s, t, m, n);
    CeilDivLeast(t, m, n);
    if Exec(s, n).Going? {
      AsksAtLeast(s, m, n);
      AdvancesOnce(s, Exec(s, n).c, t, m, Steps(n, m));
    }
  }

  /** Only the timeout can end the run. */
  ghost predicate OnlyTimeoutStops<R, A, O>(s: Setup<R, A, O>, t: Duration) {
    AlwaysRetries(s) && s.stop == Never && s.timeout == Some(t)
  }

  lemma NeverTimesOut<R, A, O>(s: Setup<R, A, O>, c: Cursor<R, A, O>, t: Duration)
    requires OnlyTimeoutStops(s, t) && s.origin + t > MAX && c.stop == Never
    ensures Iterate(s, c).Going? && Iterate(s, c).c.stop == Never
  {
    GoesOn(s, c);
    assert s.decide(OutcomeOf(s, c)).Retry?;
    assert PostElapsed(s, c) <= MAX - s.origin || PostElapsed(s, c) == 0;
  }

  /** A deadline beyond what the clock can show never comes, on any clock. */
  lemma {:induction false} UnshowableDeadlineNeverComes<R, A, O>(s: Setup<R, A, O>, t: Duration, n: nat)
    requires OnlyTimeoutStops(s, t) && s.origin + t > MAX
    ensures Exec(s, n).Going? && Exec(s, n).c.stop == Never
  {
    if n > 0 {
      var m := n - 1;
      UnshowableDeadlineNeverComes(s, t, m);
      NeverTimesOut(s, Exec(s, m).c, t);
      NextIteration(s, m);
    }
  }

  ghost predicate EventuallyEnds<R, A, O>(s: Setup<R, A, O>) {
    exists n: nat :: Exec(s, n).Ended?
  }

  /** So a run that only its timeout can end does end, on a coherent clock and with
      delays bounded away from zero, exactly when the clock can show the deadline. */
  lemma TimeoutTerminationCondition<R, A, O>(s: Setup<R, A, O>, t: Duration, m: nat)
    requires OnlyTimeoutStops(s, t) && Coherent(s.env) && m > 0 && NeverBelow(s.wait, m)
    ensures EventuallyEnds(s) <==> s.origin + t <= MAX
  {
    if s.origin + t <= MAX {
      TimeoutEndsRun(s, t, m);
    } else {
      forall n: nat ensures Exec(s, n).Going? {
        UnshowableDeadlineNeverComes(s, t, n);
      }
    }
  }

  ghost predicate InstantOperations<O>(env: Env<O>) {
    forall n, st :: Total(env.opTicks(n, st)) == 0
  }

  /** Nothing but the timeout can end the run, and only waiting takes time. */
  ghost predicate OnlyTimeout<R, A, O>(s: Setup<R, A, O>, t: Duration) {
    && Exact(s.env) && InstantOperations(s.env) && OnlyTimeoutStops(s, t) && s.origin + t <= MAX
  }

  /** The run stands where its delays have taken it; once ended, at the deadline. */
  ghost predicate OnTheWay<R, A, O>(s: Setup<R, A, O>, run: Run<R, A, O>, t: Duration, delays: seq<Duration>) {
    match run
    case Going(c) =>
      c.stop == Never && c.world.clock.now == s.origin + c.totalWait && c.totalWait == Sum(delays) <= t
    case Ended(_, stats, _, _, _) =>
      stats.totalWait == stats.totalElapsed == Sum(delays) == t && stats.reason == Exhausted
  }

  lemma WaitingIteration<R, A, O>(s: Setup<R, A, O>, c: Cursor<R, A, O>, t: Duration, delays: seq<Duration>)
    requires OnlyTimeout(s, t) && OnTheWay(s, Going(c), t, delays)
    ensures OnTheWay(s, Iterate(s, c), t, delays + Scheduled(s, c))
  {
    assert s.decide(OutcomeOf(s, c)).Retry?;
    assert PostElapsed(s, c) == c.totalWait;
    GoesOn(s, c);
    if Iterate(s, c).Going? {
      SumAppend(delays, DelayOf(s, c));
    } else {
      Ends(s, c);
      assert delays + [] == delays;
    }
  }

  lemma {:induction false} WaitsTowardsDeadline<R, A, O>(s: Setup<R, A, O>, t: Duration, n: nat)
    requires OnlyTimeout(s, t)
    ensures OnTheWay(s, Exec(s, n), t, Delays(s, n))
  {
    if n > 0 {
      var m := n - 1;
      WaitsTowardsDeadline(s, t, m);
      match Exec(s, m)
      case Going(c) => WaitingIteration(s, c, t, Delays(s, m));
      case _ => assert Delays(s, n) == Delays(s, m);
    }
  }

  /** A wait strategy bounded below by m > 0 lands such a run exactly on its
      deadline within ceil(t / m) + 1 attempts: elapsed time, reported waiting and
      the sum of the recorded waits are all t. */
  lemma LandsOnDeadline<R, A, O>(s: Setup<R, A, O>, t: Duration, m: nat)
    requires OnlyTimeout(s, t) && m > 0 && NeverBelow(s.wait, m)
    ensures var end := Exec(s, CeilDiv(t, m) + 1);
            && end.Ended? && end.stats.reason == Exhausted
            && end.stats.totalElapsed == end.stats.totalWait == t
            && Sum(end.world.clock.waits) == t
  {
    var n := CeilDiv(t, m) + 1;
    TimeoutEndsRun(s, t, m);
    WaitsTowardsDeadline(s, t, n);
    WaitingIsConserved(s, n);
    SumOfNonzero(Delays(s, n));
  }

  lemma {:induction false} SumOfNonzero(delays: seq<Duration>)
    ensures Sum(Nonzero(delays)) == Sum(delays)
  {
    if delays != [] {
      var rest, d := delays[..|delays| - 1], delays[|delays| - 1];
      SumOfNonzero(rest);
      assert delays == rest + [d];
      SumAppend(rest, d);
      SumAppend(Nonzero(rest), d);
      assert d == 0 ==> Nonzero(delays) == Nonzero(rest);
    }
  }

  ghost predicate InSteps<R, A, O>(s: Setup<R, A, O>, run: Run<R, A, O>, t: Duration, d: Duration, n: nat, last: nat) {
    match run
    case Going(c) =>
      && c.wait == Fixed(d) && c.stop == Never && c.world.clock.now == s.origin + c.totalWait
      && c.totalWait == Min(t, Steps(n, d)) && n <= last
    case Ended(_, _, _, _, _) => n > last
  }

  lemma {:induction false} FixedWaitsInSteps<R, A, O>(s: Setup<R, A, O>, t: Duration, d: Duration, n: nat)
    requires OnlyTimeout(s, t) && s.wait == Fixed(d) && d > 0
    ensures InSteps(s, Exec(s, n), t, d, n, CeilDiv(t, d))
  {
    if n > 0 {
      FixedWaitsInSteps(s, t, d, n - 1);
      match Exec(s, n - 1)
      case Going(c) => FixedIteration(s, c, t, d, n - 1);
      case _ =>
    }
  }

  lemma FixedIteration<R, A, O>(s: Setup<R, A, O>, c: Cursor<R, A, O>, t: Duration, d: Duration, n: nat)
    requires OnlyTimeout(s, t) && d > 0 && InSteps(s, Going(c), t, d, n, CeilDiv(t, d))
    ensures InSteps(s, Iterate(s, c), t, d, n + 1, CeilDiv(t, d))
  {
    assert s.decide(OutcomeOf(s, c)).Retry?;
    assert PostElapsed(s, c) == c.totalWait;
    GoesOn(s, c);
    CeilDivLeast(t, d, n);
  }

  /** The run ends in its n-th call, and reports it. */
  ghost predicate EndsInCall<R, A, O>(s: Setup<R, A, O>, n: nat) {
    Exec(s, n).Ended? && WorldOf(Exec(s, n)).calls == n && Exec(s, n).stats.attempts == Min(n, U32_MAX)
  }

  /** With a fixed delay the number of attempts is exact. */
  lemma FixedDelayCount<R, A, O>(s: Setup<R, A, O>, t: Duration, d: Duration)
    requires OnlyTimeout(s, t) && s.wait == Fixed(d) && d > 0
    ensures EndsInCall(s, CeilDiv(t, d) + 1)
  {
    FixedGoesOn(s, t, d, CeilDiv(t, d));
    FixedGoesOn(s, t, d, CeilDiv(t, d) + 1);
    LastIteration(s, CeilDiv(t, d));
  }

  lemma FixedGoesOn<R, A, O>(s: Setup<R, A, O>, t: Duration, d: Duration, n: nat)
    requires OnlyTimeout(s, t) && s.wait == Fixed(d) && d > 0
    ensures Exec(s, n).Going? <==> n <= CeilDiv(t, d)
  {
    FixedWaitsInSteps(s, t, d, n);
  }

  lemma LastIteration<R, A, O>(s: Setup<R, A, O>, n: nat)
    requires Exec(s, n).Going? && Exec(s, n + 1).Ended?
    ensures EndsInCall(s, n + 1)
  {
    CallsSoFar(s, n);
    Ends(s, Exec(s, n).c);
  }
}

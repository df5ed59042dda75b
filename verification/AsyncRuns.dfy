/** The async engine driven to its end, suspended and dropped. */
module AsyncRuns {
  import opened Durations
  import opened States
  import opened Stops
  import opened Waits
  import opened Engine
  import opened Traces
  import opened AsyncEngine

  // ----- completion -----

  function HeldPending<R, A, O>(a: AsyncState<R, A, O>): nat {
    match a.phase
    case Polling(op, _) => |op.pending|
    case Sleeping(sleep, _) => |sleep.pending|
    case _ => 0
  }

  function PhaseRank<R, A, O>(a: AsyncState<R, A, O>): nat {
    match a.phase case Sleeping(_, _) => 3 case ReadyToStart => 2 case Polling(_, _) => 1 case Completed => 0
  }

  /** Every turn that does not complete makes progress. */
  lemma TurnDescends<R, A, O>(s: Setup<R, A, O>, a: AsyncState<R, A, O>)
    requires Live(a) && !TakeTurn(s, a).signal.Complete?
    ensures var b := TakeTurn(s, a).state;
            || Iterations(b) > Iterations(a)
            || (Iterations(b) == Iterations(a) && PhaseRank(b) < PhaseRank(a))
            || (Iterations(b) == Iterations(a) && PhaseRank(b) == PhaseRank(a) && HeldPending(b) < HeldPending(a))
  {
  }

  lemma BehindTheEnd<R, A, O>(s: Setup<R, A, O>, k: nat, n: nat)
    requires Exec(s, k).Ended? && !Turns(s, n).signal.Complete?
    ensures 0 <= Iterations(Turns(s, n).state) < k
  {
    AsyncRefinesSync(s, n);
    EndsLater(s, Iterations(Turns(s, n).state), k);
  }

  /** If the blocking run ends, the machine completes: no schedule of Pending
      results keeps it from doing so. */
  lemma {:induction false} AsyncCompletes<R, A, O>(s: Setup<R, A, O>, k: nat, n: nat) returns (m: nat)
    requires Exec(s, k).Ended?
    ensures n <= m && Turns(s, m).signal.Complete?
    decreases if Turns(s, n).signal.Complete? then 0 else 1,
              k - Iterations(Turns(s, n).state), PhaseRank(Turns(s, n).state), HeldPending(Turns(s, n).state)
  {
    var t := Turns(s, n);
    if t.signal.Complete? {
      m := n;
    } else {
      BehindTheEnd(s, k, n);
      assert Turns(s, n + 1) == TakeTurn(s, t.state);
      if Turns(s, n + 1).signal.Complete? {
        m := n + 1;
      } else {
        BehindTheEnd(s, k, n + 1);
        TurnDescends(s, t.state);
        m := AsyncCompletes(s, k, n + 1);
      }
    }
  }

  /** It completes with the blocking run's result, statistics, strategies, clock
      and trace. */
  lemma CompletesAlike<R, A, O>(s: Setup<R, A, O>, k: nat, m: nat)
    requires Exec(s, k).Ended? && Turns(s, m).signal.Complete?
    ensures var t := Turns(s, m);
            Exec(s, k) == Ended(t.signal.result, t.signal.stats, t.state.stop, t.state.wait, t.state.world)
  {
    AsyncRefinesSync(s, m);
    var i := Iterations(Turns(s, m).state);
    EndIsFinal(s, Min(i, k), Max(i, k));
  }

  // ----- the number of polls -----

  function Suspended<R, A, O>(t: Turn<R, A, O>): nat {
    if t.signal.Suspend? then 1 else 0
  }

  /** How many of the first n turns ended a poll with Pending. */
  function Suspensions<R, A, O>(s: Setup<R, A, O>, n: nat): nat {
    if n == 0 then 0
    else
      Suspensions(s, n - 1) + Suspended(Turns(s, n))
  }

  function OpPendings<R, A, O>(s: Setup<R, A, O>, c: Cursor<R, A, O>): nat {
    |s.env.opTicks(c.world.calls + 1, BeforeState(s, c)).pending|
  }

  /** The Pending results of the sleep after iteration c, if there is one. */
  ghost function SleepPendings<R, A, O>(s: Setup<R, A, O>, c: Cursor<R, A, O>): nat {
    if Iterate(s, c).Going? && DelayOf(s, c) > 0 then |s.env.gap(c.world.calls + 1, DelayOf(s, c)).pending| else 0
  }

  /** The Pending results of all futures the first k iterations create. */
  ghost function Pendings<R, A, O>(s: Setup<R, A, O>, k: nat): nat {
    if k == 0 then 0
    else
      Pendings(s, k - 1) +
      match Exec(s, k - 1)
      case Going(c) => OpPendings(s, c) + SleepPendings(s, c)
      case _ => 0
  }

  /** `before` pendings belong to finished iterations. */
  ghost predicate Accounted<R, A, O>(s: Setup<R, A, O>, a: AsyncState<R, A, O>, run: Run<R, A, O>,
                                     suspended: nat, before: nat)
  {
    suspended + HeldPending(a) == before + if a.phase.Polling? && run.Going? then OpPendings(s, run.c) else 0
  }

  predicate OpReady<R, A, O>(a: AsyncState<R, A, O>) {
    a.phase.Polling? && a.phase.op.pending == []
  }

  lemma ReadyOpAccounts<R, A, O>(s: Setup<R, A, O>, t: Turn<R, A, O>, run: Run<R, A, O>, suspended: nat, before: nat)
    requires Live(t.state) && Mirrors(s, t, run) && Accounted(s, t.state, run, suspended, before) && OpReady(t.state)
    ensures var t' := TakeTurn(s, t.state);
            && Iterations(t'.state) == Iterations(t.state) + 1
            && Accounted(s, t'.state, Iterate(s, run.c), suspended + Suspended(t'),
                         before + OpPendings(s, run.c) + SleepPendings(s, run.c))
  {
    GoesOn(s, run.c);
    ReadyOpMirrors(s, t, run);
  }

  lemma OtherTurnAccounts<R, A, O>(s: Setup<R, A, O>, t: Turn<R, A, O>, run: Run<R, A, O>, suspended: nat, before: nat)
    requires Live(t.state) && Mirrors(s, t, run) && Accounted(s, t.state, run, suspended, before) && !OpReady(t.state)
    ensures var t' := TakeTurn(s, t.state);
            && Iterations(t'.state) == Iterations(t.state)
            && Accounted(s, t'.state, run, suspended + Suspended(t'), before)
  {
  }

  ghost predicate Counted<R, A, O>(s: Setup<R, A, O>, t: Turn<R, A, O>, suspended: nat, k: int) {
    k == Iterations(t.state) >= 0 && Accounted(s, t.state, Exec(s, k), suspended, Pendings(s, k))
  }

  lemma NextPendings<R, A, O>(s: Setup<R, A, O>, k: nat)
    requires Exec(s, k).Going?
    ensures Exec(s, k + 1) == Iterate(s, Exec(s, k).c)
    ensures Pendings(s, k + 1) == Pendings(s, k) + OpPendings(s, Exec(s, k).c) + SleepPendings(s, Exec(s, k).c)
  {
  }

  lemma ReadyOpCounted<R, A, O>(s: Setup<R, A, O>, t: Turn<R, A, O>, suspended: nat, k: nat)
    requires Live(t.state) && Mirrors(s, t, Exec(s, k)) && Counted(s, t, suspended, k) && OpReady(t.state)
    ensures Counted(s, TakeTurn(s, t.state), suspended + Suspended(TakeTurn(s, t.state)), k + 1)
  {
    NextPendings(s, k);
    ReadyOpAccounts(s, t, Exec(s, k), suspended, Pendings(s, k));
  }

  lemma OtherTurnCounted<R, A, O>(s: Setup<R, A, O>, t: Turn<R, A, O>, suspended: nat, k: nat)
    requires Live(t.state) && Mirrors(s, t, Exec(s, k)) && Counted(s, t, suspended, k) && !OpReady(t.state)
    ensures Counted(s, TakeTurn(s, t.state), suspended + Suspended(TakeTurn(s, t.state)), k)
  {
    OtherTurnAccounts(s, t, Exec(s, k), suspended, Pendings(s, k));
  }

  lemma TurnCounted<R, A, O>(s: Setup<R, A, O>, t: Turn<R, A, O>, suspended: nat, k: nat)
    requires Live(t.state) && Mirrors(s, t, Exec(s, k)) && Counted(s, t, suspended, k)
    ensures var t' := TakeTurn(s, t.state); Counted(s, t', suspended + Suspended(t'), Iterations(t'.state))
  {
    if OpReady(t.state) {
      ReadyOpCounted(s, t, suspended, k);
    } else {
      OtherTurnCounted(s, t, suspended, k);
    }
  }

  ghost predicate CountedTo<R, A, O>(s: Setup<R, A, O>, n: nat) {
    Counted(s, Turns(s, n), Suspensions(s, n), Iterations(Turns(s, n).state))
  }

  lemma CountedOnceMore<R, A, O>(s: Setup<R, A, O>, n: nat)
    requires CountedTo(s, n)
    ensures CountedTo(s, n + 1)
  {
    var t := Turns(s, n);
    assert Suspensions(s, n + 1) == Suspensions(s, n) + Suspended(Turns(s, n + 1));
    if !t.signal.Complete? {
      AsyncRefinesSync(s, n);
      TurnCounted(s, t, Suspensions(s, n), Iterations(t.state));
    }
  }

  /** Each Pending of a future costs one poll and nothing else does. */
  lemma {:induction false} PollsAreCounted<R, A, O>(s: Setup<R, A, O>, n: nat)
    ensures Counted(s, Turns(s, n), Suspensions(s, n), Iterations(Turns(s, n).state))
  {
    if n > 0 {
      var m := n - 1;
      PollsAreCounted(s, m);
      CountedOnceMore(s, m);
      assert CountedTo(s, n);
    }
  }

  /** A run that the blocking engine ends in its k-th iteration is completed by
      poll number 1 + (Pending results of its operations and nonzero sleeps). */
  lemma PollsToComplete<R, A, O>(s: Setup<R, A, O>, m: nat)
    requires Turns(s, m).signal.Complete?
    ensures Suspensions(s, m) == Pendings(s, Turns(s, m).state.world.calls)
  {
    PollsAreCounted(s, m);
  }

  // ----- suspension and cancellation -----

  predicate HoldsPolledFuture<R, A, O>(a: AsyncState<R, A, O>) {
    match a.phase
    case Polling(op, _) => op.polls > 0 && !op.ready
    case Sleeping(sleep, _) => sleep.polls > 0 && !sleep.ready
    case _ => false
  }

  /** Where a poll returns Pending, the machine holds a future that has been
      polled and is not Ready, so its waker is registered. */
  lemma SuspendedOnFuture<R, A, O>(s: Setup<R, A, O>, n: nat)
    requires Turns(s, n).signal.Suspend?
    ensures HoldsPolledFuture(Turns(s, n).state)
  {
    assert n > 0 && Turns(s, n) == TakeTurn(s, Turns(s, n - 1).state);
  }

  ghost predicate ExitFired<R, A, O>(log: seq<Event<R, A, O>>) {
    exists i :: 0 <= i < |log| && log[i].OnExit?
  }

  lemma NoExitInPrefix<R, A, O>(caller: Caller<R, A, O>, log: seq<Event<R, A, O>>, whole: seq<Event<R, A, O>>)
    requires log <= whole && Scan(caller, whole) != Wrong && !Scan(caller, whole).Closed?
    ensures !ExitFired(log)
  {
    forall i | 0 <= i < |log| ensures !log[i].OnExit? {
      if log[i].OnExit? { ExitIsLast(caller, whole, i); }
    }
  }

  lemma NoExitWhileLive<R, A, O>(s: Setup<R, A, O>, t: Turn<R, A, O>, c: Cursor<R, A, O>)
    requires Live(t.state) && Mirrors(s, t, Going(c)) && WellTraced(s, Going(c))
    ensures !ExitFired(t.state.world.log)
  {
    ScanCall(s, c);
    if t.state.phase.Polling? {
      NoExitInPrefix(CallerOf(s), t.state.world.log, OpReturned(s, c).log);
    } else {
      NoExitInPrefix(CallerOf(s), t.state.world.log, c.world.log);
    }
  }

  /** The exit hook has fired if and only if the machine is done. */
  lemma ExitFiresAtCompletion<R, A, O>(s: Setup<R, A, O>, n: nat)
    ensures ExitFired(Turns(s, n).state.world.log) <==> Turns(s, n).state.phase.Completed?
  {
    AsyncRefinesSync(s, n);
    var i := Iterations(Turns(s, n).state);
    TraceGrammar(s, i);
    match Exec(s, i)
    case Going(c) => NoExitWhileLive(s, Turns(s, n), c);
    case Ended(_, _, _, _, w) =>
      assert w.log[|w.log| - 1].OnExit?;
  }

  lemma SuspendedTrace<R, A, O>(s: Setup<R, A, O>, t: Turn<R, A, O>, c: Cursor<R, A, O>)
    requires Live(t.state) && HoldsPolledFuture(t.state) && Mirrors(s, t, Going(c))
    ensures t.state.world.log < WorldOf(Iterate(s, c)).log
  {
    assert t.state.world.log == if t.state.phase.Polling? then OpReturned(s, c).log else c.world.log;
  }

  lemma SuspendedBehind<R, A, O>(s: Setup<R, A, O>, t: Turn<R, A, O>, i: nat, k: nat)
    requires Live(t.state) && HoldsPolledFuture(t.state) && Mirrors(s, t, Exec(s, i)) && i < k
    ensures t.state.world.log < WorldOf(Exec(s, k)).log
  {
    TraceGrows(s, i + 1, k);
    SuspendedTrace(s, t, Exec(s, i).c);
    assert Exec(s, i + 1) == Iterate(s, Exec(s, i).c);
  }

  /** Dropping a suspended machine cancels cleanly, whether or not the run would
      ever have ended: what it has logged is a proper prefix of the trace of the run
      left to itself, from the iteration it is in onwards, without the exit hook. */
  lemma CancellationLeavesPrefix<R, A, O>(s: Setup<R, A, O>, n: nat, k: nat)
    requires Turns(s, n).signal.Suspend? && k > Iterations(Turns(s, n).state)
    ensures Turns(s, n).state.world.log < WorldOf(Exec(s, k)).log
    ensures !ExitFired(Turns(s, n).state.world.log)
  {
    SuspendedOnFuture(s, n);
    AsyncRefinesSync(s, n);
    SuspendedBehind(s, Turns(s, n), Iterations(Turns(s, n).state), k);
    ExitFiresAtCompletion(s, n);
  }

  // ----- the machine as the source runs it -----

  datatype PollResult<+R, +A, +O> = Pending | Ready(result: Result<R, RetryError<A, O>>, stats: RetryStats)

  ghost predicate Loops<R, A, O>(s: Setup<R, A, O>, n: nat) {
    Turns(s, n).signal.Loop?
  }

  /** All turns strictly between i and j are Loop turns. */
  ghost predicate LoopsBetween<R, A, O>(s: Setup<R, A, O>, i: nat, j: nat) {
    forall n: nat :: i < n < j ==> Loops(s, n)
  }

  lemma LoopsFurther<R, A, O>(s: Setup<R, A, O>, i: nat, j: nat)
    requires LoopsBetween(s, i, j) && Loops(s, j)
    ensures LoopsBetween(s, i, j + 1)
  {
  }

  /** A poll that began after turn i has looped up to turn j. */
  ghost predicate Looping<R, A, O>(s: Setup<R, A, O>, i: nat, j: nat, limit: nat) {
    i <= j < limit && LoopsBetween(s, i, j + 1) && !Turns(s, j).signal.Complete?
  }

  /** It has ended with turn j. */
  ghost predicate Blocked<R, A, O>(s: Setup<R, A, O>, i: nat, j: nat, limit: nat) {
    i < j <= limit && LoopsBetween(s, i, j) && !Loops(s, j)
  }

  lemma NextLoops<R, A, O>(s: Setup<R, A, O>, i: nat, j: nat, limit: nat)
    requires Looping(s, i, j, limit) && !Loops(s, limit)
    ensures if Loops(s, j + 1) then Looping(s, i, j + 1, limit) else Blocked(s, i, j + 1, limit)
  {
    if Loops(s, j + 1) { LoopsFurther(s, i, j + 1); }
  }

  class AsyncRun<R, A, O> {
    const setup: Setup<R, A, O>
    var phase: Phase<O>
    var attempt: U32
    var previousDelay: Option<Duration>
    var totalWait: Duration
    var origin: Option<Duration>
    var stop: Stop
    var wait: Wait
    var world: World<R, A, O>
    ghost var turns: nat

    constructor (setup: Setup<R, A, O>)
      ensures this.setup == setup && Valid() && turns == 0 && !phase.Completed?
    {
      this.setup := setup;
      phase, attempt, previousDelay, totalWait, origin := ReadyToStart, 1, None, 0, None;
      stop, wait, world := setup.stop, setup.wait, InitialWorld(setup);
      turns := 0;
    }

    function State(): AsyncState<R, A, O>
      reads this
    {
      AsyncState(phase, attempt, previousDelay, totalWait, origin, stop, wait, world)
    }

    ghost predicate Valid()
      reads this
    {
      if origin == None then turns == 0 && State() == Initial(setup) else State() == Turns(setup, turns).state
    }

    ghost predicate Here(n: nat)
      reads this
    {
      State() == Turns(setup, n).state
    }

    /** The first poll reads the origin; later ones keep it. */
    method ReadOrigin()
      requires Valid() && !phase.Completed?
      modifies this
      ensures turns == old(turns) && !Turns(setup, turns).signal.Complete?
      ensures Here(turns) && origin.Some?
    {
      if origin == None {
        origin := Some(world.clock.now);
        world := PassTime(world, setup.env.lead);
      }
    }

    method StartAttempt()
      requires Live(State()) && phase.ReadyToStart?
      modifies this
      ensures State() == StartTurn(setup, old(State())).state && turns == old(turns)
    {
      var before := RetryState(attempt, Since(origin.value, world.clock.now), previousDelay);
      world := Called(world, before);
      var op := NewFuture(setup.env.opTicks(world.calls, before));
      phase := Polling(op, setup.env.op(world.calls, before));
    }

    method PollOperation() returns (signal: Signal<R, A, O>)
      requires Live(State()) && phase.Polling?
      modifies this
      ensures Turn(State(), signal) == PollOpTurn(setup, old(State())) && turns == old(turns)
    {
      var outcome := phase.outcome;
      var polled := PollFuture(phase.op);
      world := PassTime(world, polled.tick);
      if !polled.future.ready {
        phase := Polling(polled.future, outcome);
        return Suspend;
      }
      var elapsed := Since(origin.value, world.clock.now);
      var st := TakeStep(Progress(attempt, elapsed, previousDelay, totalWait),
                         outcome, setup.decide, stop, wait, setup.timeout);
      stop, wait, world := st.stop, st.wait, Logged(world, st.fired);
      match st.step {
        case Done(result, stats) =>
          phase := Completed;
          return Complete(result, stats);
        case Continue(delay, running) =>
          totalWait := running;
          previousDelay := Some(delay);
          if delay == 0 {
            attempt := SatInc(attempt);
            world := PassTime(world, GapTime(setup.env, world.calls, 0));
            phase := ReadyToStart;
          } else {
            phase := Sleeping(NewFuture(setup.env.gap(world.calls, delay)), delay);
          }
          return Loop;
      }
    }

    method PollSleep() returns (signal: Signal<R, A, O>)
      requires Live(State()) && phase.Sleeping?
      modifies this
      ensures Turn(State(), signal) == PollSleepTurn(setup, old(State())) && turns == old(turns)
    {
      var polled := PollFuture(phase.sleep);
      world := PassTime(Requested(world, phase.sleep, phase.delay), polled.tick);
      if !polled.future.ready {
        phase := Sleeping(polled.future, phase.delay);
        return Suspend;
      }
      attempt := SatInc(attempt);
      phase := ReadyToStart;
      return Loop;
    }

    /** One arm of the match inside the loop of `poll`. */
    method OneTurn() returns (signal: Signal<R, A, O>)
      requires Here(turns) && !Turns(setup, turns).signal.Complete?
      modifies this
      ensures turns == old(turns) + 1 && origin == old(origin)
      ensures Here(turns) && signal == Turns(setup, turns).signal
    {
      turns := turns + 1;
      match phase {
        case ReadyToStart => StartAttempt(); signal := Loop;
        case Polling(_, _) => signal := PollOperation();
        case Sleeping(_, _) => signal := PollSleep();
      }
    }

    /** One poll: turns of the machine up to and including the first that is not
        Loop. `limit` is any later turn that suspends or completes. */
    method Poll(ghost limit: nat) returns (r: PollResult<R, A, O>)
      requires Valid() && !phase.Completed?
      requires turns < limit && !Loops(setup, limit)
      modifies this
      ensures Valid() && old(turns) < turns <= limit && origin.Some?
      ensures LoopsBetween(setup, old(turns), turns)
      ensures match r
              case Pending => Turns(setup, turns).signal == Suspend
              case Ready(result, stats) => Turns(setup, turns).signal == Complete(result, stats)
      ensures phase.Completed? <==> r.Ready?
    {
      ReadOrigin();
      var signal := TurnUntilBlocked(limit);
      match signal {
        case Suspend => r := Pending;
        case Complete(result, stats) => r := Ready(result, stats);
      }
    }

    /** One more turn of the loop inside `poll`. */
    method NextTurn(ghost start: nat, ghost limit: nat) returns (signal: Signal<R, A, O>)
      requires Here(turns) && Looping(setup, start, turns, limit) && !Loops(setup, limit)
      modifies this
      ensures Here(turns) && signal == Turns(setup, turns).signal && turns == old(turns) + 1
      ensures origin == old(origin)
      ensures if signal.Loop? then Looping(setup, start, turns, limit) else Blocked(setup, start, turns, limit)
    {
      NextLoops(setup, start, turns, limit);
      signal := OneTurn();
    }

    /** The loop inside `poll`. */
    method TurnUntilBlocked(ghost limit: nat) returns (signal: Signal<R, A, O>)
      requires Here(turns) && Looping(setup, turns, turns, limit) && !Loops(setup, limit)
      modifies this
      ensures Here(turns) && signal == Turns(setup, turns).signal && Blocked(setup, old(turns), turns, limit)
      ensures origin == old(origin)
    {
      ghost var start := turns;
      signal := NextTurn(start, limit);
      while signal.Loop?
        invariant Here(turns) && signal == Turns(setup, turns).signal && origin == old(origin)
        invariant if signal.Loop? then Looping(setup, start, turns, limit) else Blocked(setup, start, turns, limit)
        decreases limit - turns
      {
        signal := NextTurn(start, limit);
      }
    }
  }

  lemma EndsAlike<R, A, O>(run: AsyncRun<R, A, O>, k: nat, result: Result<R, RetryError<A, O>>, stats: RetryStats)
    requires run.Valid() && run.origin.Some? && Exec(run.setup, k).Ended?
    requires Turns(run.setup, run.turns).signal == Complete(result, stats)
    ensures Exec(run.setup, k) == Ended(result, stats, run.stop, run.wait, run.world)
  {
    CompletesAlike(run.setup, k, run.turns);
  }

  /** One poll of a run that completes in turn m, as the blocking engine ends it. */
  method PollTowards<R, A, O>(run: AsyncRun<R, A, O>, ghost m: nat, ghost k: nat) returns (r: PollResult<R, A, O>)
    requires run.Valid() && !run.phase.Completed? && run.turns < m
    requires Turns(run.setup, m).signal.Complete? && Exec(run.setup, k).Ended?
    modifies run
    ensures old(run.turns) < run.turns
    ensures match r
            case Pending => run.Valid() && !run.phase.Completed? && run.turns < m
            case Ready(result, stats) =>
              run.phase.Completed? && Exec(run.setup, k) == Ended(result, stats, run.stop, run.wait, run.world)
  {
    r := run.Poll(m);
    if r.Ready? {
      EndsAlike(run, k, r.result, r.stats);
    }
  }

  /** An executor: polls until Ready. For every run that the blocking engine ends,
      with whatever Pending results, it obtains the same end. */
  method BlockOn<R, A, O>(setup: Setup<R, A, O>, ghost k: nat)
    returns (result: Result<R, RetryError<A, O>>, stats: RetryStats, run: AsyncRun<R, A, O>)
    requires Exec(setup, k).Ended?
    ensures fresh(run) && run.phase.Completed?
    ensures Exec(setup, k) == Ended(result, stats, run.stop, run.wait, run.world)
  {
    run := new AsyncRun(setup);
    ghost var m := AsyncCompletes(setup, k, 0);
    while true
      invariant fresh(run) && run.setup == setup && run.Valid() && !run.phase.Completed? && run.turns < m
      decreases m - run.turns
    {
      var r := PollTowards(run, m, k);
      match r {
        case Pending =>
        case Ready(r, t) =>
          return r, t, run;
      }
    }
  }

  /** Both engines on one setup: nothing observable tells them apart. */
  method Parity<R, A, O>(setup: Setup<R, A, O>, ghost k: nat)
    returns (blocking: SyncRetry<R, A, O>, blockingResult: Result<R, RetryError<A, O>>, blockingStats: RetryStats,
             polled: AsyncRun<R, A, O>, polledResult: Result<R, RetryError<A, O>>, polledStats: RetryStats)
    requires Exec(setup, k).Ended?
    ensures blockingResult == polledResult && blockingStats == polledStats
    ensures blocking.world == polled.world && blocking.stop == polled.stop && blocking.wait == polled.wait
  {
    blocking := new SyncRetry(setup);
    blockingResult, blockingStats := blocking.Run(k);
    polledResult, polledStats, polled := BlockOn(setup, k);
  }
}

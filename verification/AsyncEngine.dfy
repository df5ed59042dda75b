/** The poll-driven retry state machine (src/engine/async_engine.rs). */
module AsyncEngine {
  import opened Durations
  import opened States
  import opened Stops
  import opened Waits
  import opened Engine
  import Clocks

  // ----- futures -----

  /** An operation or sleep future: the Pending polls it still has to give, each
      with the time it lets pass, and the time before its Ready. */
  datatype Future = Future(pending: seq<nat>, last: nat, polls: nat, ready: bool)

  datatype Polled = Polled(future: Future, tick: nat)

  function NewFuture(t: Ticks): Future {
    Future(t.pending, t.last, 0, false)
  }

  /** Polling after Ready is forbidden. */
  function PollFuture(f: Future): Polled
    requires !f.ready
  {
    if f.pending == [] then Polled(f.(polls := f.polls + 1, ready := true), f.last)
    else Polled(f.(polls := f.polls + 1, pending := f.pending[1..]), f.pending[0])
  }

  function TimeLeft(f: Future): nat {
    Sum(f.pending) + f.last
  }

  // ----- the state machine as a step function -----

  datatype Phase<+O> =
    | ReadyToStart
    | Polling(op: Future, outcome: O)
    | Sleeping(sleep: Future, delay: Duration)
    | Completed

  datatype AsyncState<+R, +A, +O> = AsyncState(
    phase: Phase<O>,
    attempt: U32,
    previousDelay: Option<Duration>,
    totalWait: Duration,
    origin: Option<Duration>,
    stop: Stop,
    wait: Wait,
    world: World<R, A, O>)

  /** What one turn of the loop inside `poll` does next. */
  datatype Signal<+R, +A, +O> =
    | Loop
    | Suspend
    | Complete(result: Result<R, RetryError<A, O>>, stats: RetryStats)

  datatype Turn<+R, +A, +O> = Turn(state: AsyncState<R, A, O>, signal: Signal<R, A, O>)

  /** Execution has begun, is not over, and holds no future that was Ready. */
  predicate Live<R, A, O>(a: AsyncState<R, A, O>) {
    && a.origin.Some? && !a.phase.Completed?
    && (a.phase.Polling? ==> !a.phase.op.ready)
    && (a.phase.Sleeping? ==> !a.phase.sleep.ready)
  }

  function Initial<R, A, O>(s: Setup<R, A, O>): AsyncState<R, A, O> {
    AsyncState(ReadyToStart, 1, None, 0, None, s.stop, s.wait, InitialWorld(s))
  }

  function PassTime<R, A, O>(w: World<R, A, O>, ticks: nat): World<R, A, O> {
    w.(clock := Clocks.Advanced(w.clock, ticks))
  }

  /** The first poll reads the origin. */
  function Begin<R, A, O>(s: Setup<R, A, O>, a: AsyncState<R, A, O>): AsyncState<R, A, O> {
    a.(origin := Some(a.world.clock.now), world := PassTime(a.world, s.env.lead))
  }

  function StartTurn<R, A, O>(s: Setup<R, A, O>, a: AsyncState<R, A, O>): Turn<R, A, O>
    requires Live(a)
  {
    var before := RetryState(a.attempt, Since(a.origin.value, a.world.clock.now), a.previousDelay);
    var w := Called(a.world, before);
    var op := NewFuture(s.env.opTicks(w.calls, before));
    Turn(a.(phase := Polling(op, s.env.op(w.calls, before)), world := w), Loop)
  }

  function AfterReady<R, A, O>(s: Setup<R, A, O>, a: AsyncState<R, A, O>, outcome: O): Turn<R, A, O>
    requires a.origin.Some?
  {
    var elapsed := Since(a.origin.value, a.world.clock.now);
    var st := TakeStep(Progress(a.attempt, elapsed, a.previousDelay, a.totalWait),
                       outcome, s.decide, a.stop, a.wait, s.timeout);
    var b := a.(stop := st.stop, wait := st.wait, world := Logged(a.world, st.fired));
    match st.step
    case Done(result, stats) => Turn(b.(phase := Completed), Complete(result, stats))
    case Continue(delay, running) =>
      var d := b.(totalWait := running, previousDelay := Some(delay));
      if delay == 0 then
        Turn(d.(attempt := SatInc(a.attempt), phase := ReadyToStart,
                world := PassTime(d.world, GapTime(s.env, d.world.calls, 0))), Loop)
      else
        Turn(d.(phase := Sleeping(NewFuture(s.env.gap(d.world.calls, delay)), delay)), Loop)
  }

  function PollOpTurn<R, A, O>(s: Setup<R, A, O>, a: AsyncState<R, A, O>): Turn<R, A, O>
    requires Live(a) && a.phase.Polling?
  {
    var polled := PollFuture(a.phase.op);
    var b := a.(world := PassTime(a.world, polled.tick));
    if !polled.future.ready then Turn(b.(phase := a.phase.(op := polled.future)), Suspend)
    else AfterReady(s, b, a.phase.outcome)
  }

  /** A sleep is requested of the clock by its first poll, not by its creation. */
  function Requested<R, A, O>(w: World<R, A, O>, sleep: Future, delay: Duration): World<R, A, O> {
    if sleep.polls > 0 then w
    else World(w.clock.(waits := w.clock.waits + [delay]), w.log + [Slept(delay)], w.calls)
  }

  function PollSleepTurn<R, A, O>(s: Setup<R, A, O>, a: AsyncState<R, A, O>): Turn<R, A, O>
    requires Live(a) && a.phase.Sleeping?
  {
    var polled := PollFuture(a.phase.sleep);
    var b := a.(world := PassTime(Requested(a.world, a.phase.sleep, a.phase.delay), polled.tick));
    if !polled.future.ready then Turn(b.(phase := a.phase.(sleep := polled.future)), Suspend)
    else Turn(b.(attempt := SatInc(a.attempt), phase := ReadyToStart), Loop)
  }

  function TakeTurn<R, A, O>(s: Setup<R, A, O>, a: AsyncState<R, A, O>): (t: Turn<R, A, O>)
    requires Live(a)
    ensures if t.signal.Complete? then t.state.phase.Completed? else Live(t.state)
  {
    match a.phase
    case ReadyToStart => StartTurn(s, a)
    case Polling(_, _) => PollOpTurn(s, a)
    case Sleeping(_, _) => PollSleepTurn(s, a)
  }

  /** The machine after n turns, under an executor that polls again whenever a
      poll has returned Pending: a poll is a maximal run of Loop turns and the
      turn that ends it. */
  function Turns<R, A, O>(s: Setup<R, A, O>, n: nat): (t: Turn<R, A, O>)
    ensures if t.signal.Complete? then t.state.phase.Completed? else Live(t.state)
  {
    if n == 0 then Turn(Begin(s, Initial(s)), Loop)
    else
      var before := Turns(s, n - 1);
      if before.signal.Complete? then before else TakeTurn(s, before.state)
  }

  // ----- how a machine state relates to the blocking loop -----

  function CursorOf<R, A, O>(a: AsyncState<R, A, O>): Cursor<R, A, O> {
    Cursor(a.attempt, a.previousDelay, a.totalWait, a.stop, a.wait, a.world)
  }

  /** Inside the attempt the blocking loop makes from cursor c: the machine is
      ahead of c by the call, and behind its return by the future's time. */
  ghost predicate InAttempt<R, A, O>(s: Setup<R, A, O>, a: AsyncState<R, A, O>, c: Cursor<R, A, O>) {
    && a.phase.Polling? && CursorOf(a) == c.(world := a.world)
    && a.phase.outcome == OutcomeOf(s, c)
    && PassTime(a.world, TimeLeft(a.phase.op)) == OpReturned(s, c)
  }

  /** Asleep on the way to the blocking loop's next cursor c. */
  ghost predicate InSleep<R, A, O>(s: Setup<R, A, O>, a: AsyncState<R, A, O>, c: Cursor<R, A, O>) {
    && a.phase.Sleeping?
    && c == Cursor(SatInc(a.attempt), Some(a.phase.delay), a.totalWait, a.stop, a.wait,
                   PassTime(Requested(a.world, a.phase.sleep, a.phase.delay), TimeLeft(a.phase.sleep)))
    && a.previousDelay == Some(a.phase.delay)
  }

  /** The blocking run that a machine state is an interruption of. */
  ghost predicate Mirrors<R, A, O>(s: Setup<R, A, O>, t: Turn<R, A, O>, run: Run<R, A, O>) {
    t.state.origin == Some(s.origin) &&
    match t.state.phase
    case ReadyToStart => run == Going(CursorOf(t.state))
    case Polling(_, _) => run.Going? && InAttempt(s, t.state, run.c)
    case Sleeping(_, _) => run.Going? && InSleep(s, t.state, run.c)
    case Completed =>
      t.signal.Complete? &&
      run == Ended(t.signal.result, t.signal.stats, t.state.stop, t.state.wait, t.state.world)
  }

  /** How many iterations the blocking loop has behind it at that point. */
  function Iterations<R, A, O>(a: AsyncState<R, A, O>): int {
    a.world.calls - if a.phase.Polling? then 1 else 0
  }

  lemma StartTurnMirrors<R, A, O>(s: Setup<R, A, O>, t: Turn<R, A, O>, run: Run<R, A, O>)
    requires Live(t.state) && Mirrors(s, t, run) && t.state.phase.ReadyToStart?
    ensures Mirrors(s, StartTurn(s, t.state), run)
  {
  }

  lemma PendingOpMirrors<R, A, O>(s: Setup<R, A, O>, t: Turn<R, A, O>, run: Run<R, A, O>)
    requires Live(t.state) && Mirrors(s, t, run) && t.state.phase.Polling? && t.state.phase.op.pending != []
    ensures Mirrors(s, PollOpTurn(s, t.state), run)
  {
  }

  lemma ReadyOpMirrors<R, A, O>(s: Setup<R, A, O>, t: Turn<R, A, O>, run: Run<R, A, O>)
    requires Live(t.state) && Mirrors(s, t, run) && t.state.phase.Polling? && t.state.phase.op.pending == []
    ensures Mirrors(s, PollOpTurn(s, t.state), Iterate(s, run.c))
  {
    var a, c := t.state, run.c;
    assert PassTime(a.world, a.phase.op.last) == OpReturned(s, c);
    var st := StepOf(s, c);
    assert Iterate(s, c) == Resolve(s, c.attempt, st.step, st.stop, st.wait, Logged(OpReturned(s, c), st.fired));
  }

  lemma SleepTurnMirrors<R, A, O>(s: Setup<R, A, O>, t: Turn<R, A, O>, run: Run<R, A, O>)
    requires Live(t.state) && Mirrors(s, t, run) && t.state.phase.Sleeping?
    ensures Mirrors(s, PollSleepTurn(s, t.state), run)
  {
  }

  ghost predicate Tracks<R, A, O>(s: Setup<R, A, O>, t: Turn<R, A, O>) {
    Iterations(t.state) >= 0 && Mirrors(s, t, Exec(s, Iterations(t.state)))
  }

  ghost predicate RefinesTo<R, A, O>(s: Setup<R, A, O>, n: nat) {
    Tracks(s, Turns(s, n))
  }

  lemma RefinesOnceMore<R, A, O>(s: Setup<R, A, O>, n: nat)
    requires RefinesTo(s, n)
    ensures RefinesTo(s, n + 1)
  {
    if !Turns(s, n).signal.Complete? {
      TurnMirrors(s, Turns(s, n));
    }
  }

  /** Every state the machine reaches, however often its futures are Pending,
      mirrors the blocking run after the same number of attempts. */
  lemma {:induction false} AsyncRefinesSync<R, A, O>(s: Setup<R, A, O>, n: nat)
    ensures Iterations(Turns(s, n).state) >= 0
    ensures Mirrors(s, Turns(s, n), Exec(s, Iterations(Turns(s, n).state)))
  {
    if n > 0 {
      var m := n - 1;
      AsyncRefinesSync(s, m);
      RefinesOnceMore(s, m);
      assert RefinesTo(s, n);
    }
  }

  lemma ReadyOpCounts<R, A, O>(s: Setup<R, A, O>, a: AsyncState<R, A, O>)
    requires Live(a) && a.phase.Polling? && a.phase.op.pending == []
    ensures TakeTurn(s, a) == PollOpTurn(s, a) && Iterations(TakeTurn(s, a).state) == Iterations(a) + 1
  {
  }

  lemma ReadyOpTracks<R, A, O>(s: Setup<R, A, O>, t: Turn<R, A, O>)
    requires Live(t.state) && Tracks(s, t) && t.state.phase.Polling? && t.state.phase.op.pending == []
    ensures Tracks(s, TakeTurn(s, t.state))
  {
    var k := Iterations(t.state);
    ReadyOpMirrors(s, t, Exec(s, k));
    ReadyOpCounts(s, t.state);
    NextIteration(s, k);
  }

  lemma TurnMirrors<R, A, O>(s: Setup<R, A, O>, t: Turn<R, A, O>)
    requires Live(t.state) && Tracks(s, t)
    ensures Tracks(s, TakeTurn(s, t.state))
  {
    var run := Exec(s, Iterations(t.state));
    match t.state.phase
    case ReadyToStart => StartTurnMirrors(s, t, run);
    case Polling(op, _) =>
      if op.pending == [] { ReadyOpTracks(s, t); } else { PendingOpMirrors(s, t, run); }
    case Sleeping(_, _) => SleepTurnMirrors(s, t, run);
  }
}

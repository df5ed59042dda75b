/** Environments cover every clock: whatever a monotone clock reads before and
    after each operation, provided it honours the waits, is read in some setup. */
module Readings {
  import opened Durations
  import opened Engine

  /** Readings just before and just after the n-th operation call, n = 1, 2, ... */
  datatype Clock = Clock(before: nat -> Duration, after: nat -> Duration)

  ghost predicate Monotone(origin: Duration, clock: Clock) {
    origin <= clock.before(1) && forall n :: n > 0 ==> clock.before(n) <= clock.after(n) <= clock.before(n + 1)
  }

  function Idle(clock: Clock, n: nat): Duration {
    SatSub(clock.before(n + 1), clock.after(n))
  }

  function Realised<R, A, O>(s: Setup<R, A, O>, clock: Clock): Setup<R, A, O> {
    s.(env := Env(
      s.env.op,
      (n: nat, st) => Ticks([], SatSub(clock.after(n), clock.before(n))),
      SatSub(clock.before(1), s.origin),
      (n: nat, d: Duration) => Ticks([], Max(d, Idle(clock, n)))))
  }

  /** The clock contract along the run: each wait is reflected in the readings. */
  ghost predicate HonoursWaits<R, A, O>(s: Setup<R, A, O>, clock: Clock, n: nat) {
    forall k: nat :: k < n ==> FitsGap(s, clock, k)
  }

  ghost predicate FitsGap<R, A, O>(s: Setup<R, A, O>, clock: Clock, k: nat) {
    match Exec(s, k)
    case Going(c) => DelayOf(s, c) <= Idle(clock, k + 1)
    case _ => true
  }

  ghost predicate Reads<R, A, O>(s: Setup<R, A, O>, run: Run<R, A, O>, clock: Clock, n: nat) {
    run.Going? ==>
      && run.c.world.calls == n
      && run.c.world.clock.now == clock.before(n + 1) && OpReturned(s, run.c).clock.now == clock.after(n + 1)
  }

  lemma CursorReads<R, A, O>(s: Setup<R, A, O>, clock: Clock, c: Cursor<R, A, O>, n: nat)
    requires Monotone(s.origin, clock)
    requires c.world.calls == n && c.world.clock.now == clock.before(n + 1)
    ensures Reads(Realised(s, clock), Going(c), clock, n)
  {
  }

  lemma NextReads<R, A, O>(s: Setup<R, A, O>, clock: Clock, c: Cursor<R, A, O>, n: nat)
    requires Monotone(s.origin, clock) && Reads(Realised(s, clock), Going(c), clock, n)
    requires DelayOf(Realised(s, clock), c) <= Idle(clock, n + 1)
    ensures Reads(Realised(s, clock), Iterate(Realised(s, clock), c), clock, n + 1)
  {
    var r := Realised(s, clock);
    GoesOn(r, c);
    if Iterate(r, c).Going? {
      CursorReads(s, clock, Iterate(r, c).c, n + 1);
    }
  }

  lemma {:induction false} ReadingsAreRealised<R, A, O>(s: Setup<R, A, O>, clock: Clock, n: nat)
    requires Monotone(s.origin, clock) && HonoursWaits(Realised(s, clock), clock, n)
    ensures Coherent(Realised(s, clock).env)
    ensures Reads(Realised(s, clock), Exec(Realised(s, clock), n), clock, n)
  {
    var r := Realised(s, clock);
    if n == 0 {
      CursorReads(s, clock, Start(r), 0);
    } else {
      ReadingsAreRealised(s, clock, n - 1);
      assert FitsGap(r, clock, n - 1);
      match Exec(r, n - 1)
      case Going(c) => NextReads(s, clock, c, n - 1);
      case _ =>
    }
  }
}

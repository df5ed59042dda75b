/** `VirtualClock` and its wait future (src/clock.rs). */
module Clocks {
  import opened Durations

  /** What a clock exposes: the current time and the waits requested of it. */
  datatype ClockState = ClockState(now: Duration, waits: seq<Duration>)

  function Advanced(c: ClockState, dur: nat): ClockState {
    c.(now := SatAdd(c.now, dur))
  }

  function Waited(c: ClockState, d: Duration): ClockState {
    ClockState(SatAdd(c.now, d), c.waits + [d])
  }

  class VirtualClock {
    var now: Duration
    var waits: seq<Duration>

    constructor ()
      ensures State() == ClockState(0, [])
    {
      now, waits := 0, [];
    }

    function State(): ClockState
      reads this
    {
      ClockState(now, waits)
    }

    method Advance(dur: Duration)
      modifies this`now
      ensures State() == Advanced(old(State()), dur)
    {
      now := SatAdd(now, dur);
    }

    method RecordWait(dur: Duration)
      modifies this
      ensures State() == Waited(old(State()), dur)
    {
      Advance(dur);
      waits := waits + [dur];
    }

    /** The blocking wait of `SyncClock`. */
    method Wait(dur: Duration)
      modifies this
      ensures State() == Waited(old(State()), dur)
    {
      RecordWait(dur);
    }

    /** The wait of `AsyncClock`: nothing happens before the first poll. */
    method WaitAsync(dur: Duration) returns (wait: VirtualWait)
      ensures fresh(wait) && wait.clock == this && wait.dur == dur && !wait.advanced
    {
      wait := new VirtualWait(this, dur);
    }
  }

  class VirtualWait {
    const clock: VirtualClock
    const dur: Duration
    var advanced: bool

    constructor (clock: VirtualClock, dur: Duration)
      ensures this.clock == clock && this.dur == dur && !advanced
    {
      this.clock, this.dur, this.advanced := clock, dur, false;
    }

    /** Always ready; time moves on the first poll only. */
    method Poll() returns (ready: bool)
      modifies this`advanced, clock
      ensures ready && advanced
      ensures clock.State() == if old(advanced) then old(clock.State()) else Waited(old(clock.State()), dur)
    {
      if !advanced {
        advanced := true;
        clock.RecordWait(dur);
      }
      ready := true;
    }
  }

  datatype Use = Advance(dur: Duration) | Wait(dur: Duration)

  function Used(c: ClockState, uses: seq<Use>): ClockState {
    if uses == [] then c
    else
      var before := Used(c, uses[..|uses| - 1]);
      match uses[|uses| - 1]
      case Advance(d) => Advanced(before, d)
      case Wait(d) => Waited(before, d)
  }

  function TotalUse(uses: seq<Use>): nat {
    if uses == [] then 0 else TotalUse(uses[..|uses| - 1]) + uses[|uses| - 1].dur
  }

  function WaitsOf(uses: seq<Use>): seq<Duration> {
    if uses == [] then []
    else WaitsOf(uses[..|uses| - 1]) + match uses[|uses| - 1] case Advance(_) => [] case Wait(d) => [d]
  }

  /** However a clock has been used, it shows the saturated sum of all its advances
      and waits, and has recorded the waits in order. */
  lemma {:induction false} ClockIsCoherent(c: ClockState, uses: seq<Use>)
    ensures Used(c, uses) == ClockState(SatAdd(c.now, TotalUse(uses)), c.waits + WaitsOf(uses))
  {
    if uses != [] {
      ClockIsCoherent(c, uses[..|uses| - 1]);
    }
  }
}

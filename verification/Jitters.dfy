/** The jitter wrapper as an object that owns its generator (src/wait/jitter.rs). */
module Jitters {
  import opened Durations
  import opened States
  import opened SplitMix
  import Waits

  method RandomDurationIn(lower: Duration, upper: Duration, rng: SplitMix64) returns (d: Duration)
    modifies rng
    ensures (d, rng.state) == Waits.RandomIn(lower, upper, old(rng.state))
    ensures lower <= d <= Max(lower, upper)
  {
    var rangeNanos := SatSub(upper, lower);
    if rangeNanos == 0 {
      return lower;
    }
    var maxNanos := Min(rangeNanos, U64_MAX);
    var random := rng.NextBounded(maxNanos);
    d := SatAdd(lower, random);
  }

  class Jittered {
    var inner: Waits.Wait
    const kind: Waits.JitterKind
    var seed: U64
    var rng: SplitMix64

    /** The strategy value this object stands for. */
    function AsWait(): Waits.Wait
      reads this, rng
    {
      Waits.Jittered(inner, kind, seed, rng.state)
    }

    constructor (inner: Waits.Wait, kind: Waits.JitterKind, nonce: U64)
      ensures fresh(rng) && AsWait() == Waits.NewJittered(inner, kind, nonce)
    {
      this.inner, this.kind, this.seed := inner, kind, Waits.DEFAULT_JITTER_SEED;
      this.rng := new SplitMix64(SeededState(Waits.DEFAULT_JITTER_SEED, nonce));
    }

    /** The seed alone pins the sequence: the nonce is derived from it. */
    method WithSeed(seed: U64)
      modifies this
      ensures fresh(rng)
      ensures AsWait() == Waits.Jittered(old(inner), kind, seed, SeededState(seed, DeriveNonce(seed)))
    {
      this.seed := seed;
      var source := new SplitMix64(seed);
      var nonce := source.NextU64();
      rng := new SplitMix64(SeededState(seed, nonce));
    }

    method WithNonce(nonce: U64)
      modifies this
      ensures fresh(rng)
      ensures AsWait() == Waits.Jittered(old(inner), kind, old(seed), SeededState(old(seed), nonce))
    {
      rng := new SplitMix64(SeededState(seed, nonce));
    }

    /** A clone keeps kind and seed under a nonce of its own; its inner strategy is
        cloned first. The nonces drawn are numbered from `next` on. */
    method Clone(nonces: nat -> U64, next: nat) returns (copy: Jittered, next': nat)
      ensures fresh(copy) && fresh(copy.rng)
      ensures (copy.AsWait(), next') == Waits.CloneWait(AsWait(), nonces, next)
    {
      var (inner', mine) := Waits.CloneWait(inner, nonces, next);
      copy := new Jittered(inner', kind, nonces(mine));
      copy.seed := seed;
      copy.rng := new SplitMix64(SeededState(seed, nonces(mine)));
      next' := mine + 1;
    }

    /** One consultation: the inner strategy first, then at most one draw. */
    method NextWait(state: RetryState) returns (delay: Duration)
      modifies this, rng
      ensures rng == old(rng) && (delay, AsWait()) == Waits.NextWait(old(AsWait()), state)
    {
      var (base, inner') := Waits.NextWait(inner, state);
      inner := inner';
      match kind {
        case Additive(maxJitter) =>
          var jitter := RandomDurationIn(0, maxJitter, rng);
          delay := SatAdd(base, jitter);
        case Full =>
          delay := RandomDurationIn(0, base, rng);
        case Equal =>
          var half := base / 2;
          var jitter := RandomDurationIn(0, half, rng);
          delay := SatAdd(half, jitter);
        case Decorrelated =>
          var previous := match state.previousDelay case Some(d) => d case None => base;
          delay := RandomDurationIn(base, SatMul(previous, 3), rng);
      }
    }
  }
}

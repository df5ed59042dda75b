/** What jittered strategies draw: the durations each formula can answer, the words
    of the generator behind the answers, and the generators of clones. */
module Streams {
  import opened Durations
  import opened States
  import opened SplitMix
  import opened Waits

  // ----- what each formula can answer -----

  /** The documented lower end of a formula. */
  function From(kind: JitterKind, base: Duration): Duration {
    match kind
    case Additive(_) => base
    case Full => 0
    case Equal => base / 2
    case Decorrelated => base
  }

  /** How far above it the formula reaches. */
  function Width(kind: JitterKind, base: Duration, previous: Option<Duration>): nat {
    match kind
    case Additive(maxJitter) => maxJitter
    case Full => base
    case Equal => base / 2
    case Decorrelated => SatSub(Min(3 * (if previous.Some? then previous.value else base), MAX), base)
  }

  /** The width in whole nanoseconds, cut at what one word can hold. */
  function Cut(kind: JitterKind, base: Duration, previous: Option<Duration>): U64 {
    Min(Width(kind, base, previous), U64_MAX)
  }

  ghost predicate CanAnswer(kind: JitterKind, base: Duration, previous: Option<Duration>, d: Duration) {
    exists rng: U64 :: Jitter(kind, base, previous, rng).0 == d
  }

  /** One consultation of a formula: nothing is drawn from an empty range; otherwise
      the next word of the stream is reduced to the range and added to its lower end. */
  lemma JitterDraws(kind: JitterKind, base: Duration, previous: Option<Duration>, rng: U64)
    ensures var (delay, rng') := Jitter(kind, base, previous, rng);
            var width := Width(kind, base, previous);
            if width == 0 then delay == From(kind, base) && rng' == rng
            else delay == SatAdd(From(kind, base), Bounded(rng', Min(width, U64_MAX))) && rng' == Walk(rng, 1)
  {
  }

  /** A formula can answer exactly the durations of its documented range, cut at
      2^64 - 1 ns above the lower end. */
  lemma AnswersOfJitter(kind: JitterKind, base: Duration, previous: Option<Duration>, d: Duration)
    ensures CanAnswer(kind, base, previous, d) <==>
            From(kind, base) <= d <= SatAdd(From(kind, base), Cut(kind, base, previous))
  {
    var lower, cut := From(kind, base), Cut(kind, base, previous);
    forall rng: U64 ensures lower <= Jitter(kind, base, previous, rng).0 <= SatAdd(lower, cut) {
      JitterDraws(kind, base, previous, rng);
    }
    if lower <= d <= SatAdd(lower, cut) {
      AnswerIsDrawn(kind, base, previous, d);
    }
  }

  lemma AnswerIsDrawn(kind: JitterKind, base: Duration, previous: Option<Duration>, d: Duration)
    requires From(kind, base) <= d <= SatAdd(From(kind, base), Cut(kind, base, previous))
    ensures CanAnswer(kind, base, previous, d)
  {
    var word, cut := d - From(kind, base), Cut(kind, base, previous);
    JitterDraws(kind, base, previous, StateBefore(word));
    BoundedWord(word, cut);
    assert Jitter(kind, base, previous, StateBefore(word)).0 == d;
  }

  /** The four documented ranges, written out. */
  lemma DocumentedRanges(base: Duration, maxJitter: Duration, previous: Duration, d: Duration)
    ensures CanAnswer(Additive(maxJitter), base, None, d) <==> base <= d <= SatAdd(base, Min(maxJitter, U64_MAX))
    ensures CanAnswer(Full, base, None, d) <==> d <= Min(base, U64_MAX)
    ensures CanAnswer(Equal, base, None, d) <==> base / 2 <= d <= base / 2 + Min(base / 2, U64_MAX)
    ensures CanAnswer(Decorrelated, base, None, d) <==>
            base <= d <= Min(Min(3 * base, MAX), base + U64_MAX)
    ensures CanAnswer(Decorrelated, base, Some(previous), d) <==>
            base <= d <= Min(Max(base, Min(3 * previous, MAX)), base + U64_MAX)
  {
    AnswersOfJitter(Additive(maxJitter), base, None, d);
    AnswersOfJitter(Full, base, None, d);
    AnswersOfJitter(Equal, base, None, d);
    AnswersOfJitter(Decorrelated, base, None, d);
    AnswersOfJitter(Decorrelated, base, Some(previous), d);
  }

  // ----- jittered strategies under the builders -----

  ghost predicate BuiltCanAnswer(inner: Wait, kind: JitterKind, state: RetryState, d: Duration) {
    exists nonce: U64 :: NextWait(NewJittered(inner, kind, nonce), state).0 == d
  }

  lemma BuiltAnswer(inner: Wait, kind: JitterKind, nonce: U64, state: RetryState)
    ensures NextWait(NewJittered(inner, kind, nonce), state).0 ==
            Jitter(kind, NextWait(inner, state).0, state.previousDelay, SeededState(DEFAULT_JITTER_SEED, nonce)).0
  {
  }

  lemma BuiltReaches(inner: Wait, kind: JitterKind, state: RetryState, rng: U64, d: Duration)
    requires Jitter(kind, NextWait(inner, state).0, state.previousDelay, rng).0 == d
    ensures BuiltCanAnswer(inner, kind, state, d)
  {
    var nonce := XorWords(DEFAULT_JITTER_SEED, rng);
    SeedAndNonceRecovered(DEFAULT_JITTER_SEED, rng);
    BuiltAnswer(inner, kind, nonce, state);
    assert NextWait(NewJittered(inner, kind, nonce), state).0 == d;
  }

  /** Over all nonces a freshly jittered strategy can answer just what its formula
      can, from the inner strategy's delay and the previous delay it is shown. */
  lemma AnswersOfBuilt(inner: Wait, kind: JitterKind, state: RetryState, d: Duration)
    ensures BuiltCanAnswer(inner, kind, state, d) <==>
            CanAnswer(kind, NextWait(inner, state).0, state.previousDelay, d)
  {
    var base := NextWait(inner, state).0;
    if CanAnswer(kind, base, state.previousDelay, d) {
      var rng: U64 :| Jitter(kind, base, state.previousDelay, rng).0 == d;
      BuiltReaches(inner, kind, state, rng, d);
    }
    if BuiltCanAnswer(inner, kind, state, d) {
      var nonce: U64 :| NextWait(NewJittered(inner, kind, nonce), state).0 == d;
      BuiltAnswer(inner, kind, nonce, state);
    }
  }

  ghost predicate JitterCanAnswer(wait: Wait, maxJitter: Duration, state: RetryState, d: Duration) {
    exists nonce: U64 :: NextWait(AddJitter(wait, maxJitter, nonce), state).0 == d
  }

  /** `.jitter(max)` adds up to max to the delay of any strategy that is not capped. */
  lemma JitterIsAdded(wait: Wait, maxJitter: Duration, state: RetryState, d: Duration)
    requires !wait.Capped?
    ensures var base := NextWait(wait, state).0;
            JitterCanAnswer(wait, maxJitter, state, d) <==> base <= d <= SatAdd(base, Min(maxJitter, U64_MAX))
  {
    AnswersOfBuilt(wait, Additive(maxJitter), state, d);
    AnswersOfJitter(Additive(maxJitter), NextWait(wait, state).0, state.previousDelay, d);
    assert forall nonce: U64 :: AddJitter(wait, maxJitter, nonce) == NewJittered(wait, Additive(maxJitter), nonce);
    assert JitterCanAnswer(wait, maxJitter, state, d) <==> BuiltCanAnswer(wait, Additive(maxJitter), state, d);
  }

  /** To a capped strategy it adds under the cap: to the delay before capping. */
  lemma JitterIsAddedUnderCap(inner: Wait, max: Duration, maxJitter: Duration, nonce: U64, state: RetryState)
    ensures NextWait(AddJitter(Capped(inner, max), maxJitter, nonce), state).0 ==
            Min(NextWait(NewJittered(inner, Additive(maxJitter), nonce), state).0, max)
  {
  }

  /** Two fresh instances under different nonces never draw the same word. */
  lemma InstancesNeverAgree(inner: Wait, kind: JitterKind, nonce1: U64, nonce2: U64, n: nat)
    requires nonce1 != nonce2
    ensures Finalize(Walk(NewJittered(inner, kind, nonce1).rng, n)) !=
            Finalize(Walk(NewJittered(inner, kind, nonce2).rng, n))
  {
    DifferentNoncesNeverAgree(DEFAULT_JITTER_SEED, nonce1, nonce2, n);
  }

  // ----- the stream of one jittered node -----

  /** Whether the node draws when its inner strategy answers `base`. */
  predicate DrawsFor(node: Wait, base: Duration, state: RetryState)
    requires node.Jittered?
  {
    Width(node.kind, base, state.previousDelay) > 0
  }

  /** Whether it draws when asked at `state`, having been asked at `states`. */
  predicate DrawsAt(node: Wait, states: seq<RetryState>, state: RetryState)
    requires node.Jittered?
  {
    DrawsFor(node, NextWait(Asked(node.inner, states), state).0, state)
  }

  /** How many of the consultations drew. */
  function DrawCount(node: Wait, states: seq<RetryState>): nat
    requires node.Jittered?
  {
    if states == [] then 0
    else
      var init, last := states[..|states| - 1], states[|states| - 1];
      DrawCount(node, init) + if DrawsAt(node, init, last) then 1 else 0
  }

  /** A jittered node asks its inner strategy once and takes the next word of its own
      stream, or none when the range is empty; its delay is the lower end plus what is
      left of that word after whole ranges. */
  lemma NodeDraws(node: Wait, state: RetryState)
    requires node.Jittered?
    ensures var (base, inner') := NextWait(node.inner, state);
            if DrawsFor(node, base, state)
            then NextWait(node, state).1 == Jittered(inner', node.kind, node.seed, Walk(node.rng, 1))
                 && DelayFromWord(node, base, state, Finalize(Walk(node.rng, 1)), NextWait(node, state).0)
            else NextWait(node, state) == (From(node.kind, base), Jittered(inner', node.kind, node.seed, node.rng))
  {
    var (base, inner') := NextWait(node.inner, state);
    var (delay, rng') := Jitter(node.kind, base, state.previousDelay, node.rng);
    assert NextWait(node, state) == (delay, Jittered(inner', node.kind, node.seed, rng'));
    JitterDraws(node.kind, base, state.previousDelay, node.rng);
    RemainderIsReduced(Finalize(rng'), Cut(node.kind, base, state.previousDelay));
  }

  ghost predicate DelayFromWord(node: Wait, base: Duration, state: RetryState, word: U64, delay: Duration)
    requires node.Jittered?
  {
    exists r: nat ::
      IsRemainder(word, Cut(node.kind, base, state.previousDelay), r) && delay == SatAdd(From(node.kind, base), r)
  }

  lemma {:induction false} WalkFurther(rng: U64, m: nat, n: nat)
    ensures Walk(Walk(rng, m), n) == Walk(rng, m + n)
  {
    if n > 0 { WalkFurther(rng, m, n - 1); }
  }

  /** The node with its inner strategy and its stream moved on. */
  function Moved(node: Wait, inner: Wait, draws: nat): Wait
    requires node.Jittered?
  {
    Jittered(inner, node.kind, node.seed, Walk(node.rng, draws))
  }

  lemma MovesOn(node: Wait, inner: Wait, draws: nat, state: RetryState, drawn: nat)
    requires node.Jittered?
    requires drawn == if DrawsFor(node, NextWait(inner, state).0, state) then 1 else 0
    ensures NextWait(Moved(node, inner, draws), state).1 == Moved(node, NextWait(inner, state).1, draws + drawn)
  {
    NodeDraws(Moved(node, inner, draws), state);
    WalkFurther(node.rng, draws, drawn);
  }

  /** Over any consultations: the inner strategy is asked at each, and the generator
      has taken one word for each nonempty range and none for the others. */
  lemma {:induction false} NodeWalksItsStream(node: Wait, states: seq<RetryState>)
    requires node.Jittered?
    ensures Asked(node, states) == Moved(node, Asked(node.inner, states), DrawCount(node, states))
  {
    if states != [] {
      var init, last := states[..|states| - 1], states[|states| - 1];
      NodeWalksItsStream(node, init);
      NodeStepsOn(node, init, last, Asked(node.inner, init), DrawCount(node, init));
      assert states == init + [last];
    }
  }

  lemma NodeStepsOn(node: Wait, states: seq<RetryState>, state: RetryState, inner: Wait, draws: nat)
    requires node.Jittered? && inner == Asked(node.inner, states) && draws == DrawCount(node, states)
    requires Asked(node, states) == Moved(node, inner, draws)
    ensures Asked(node, states + [state]) ==
            Moved(node, Asked(node.inner, states + [state]), DrawCount(node, states + [state]))
  {
    AskedMore(node, states, state, Moved(node, inner, draws));
    AskedMore(node.inner, states, state, inner);
    DrawCountMore(node, states, state);
    MovesOn(node, inner, draws, state, if DrawsFor(node, NextWait(inner, state).0, state) then 1 else 0);
  }

  lemma DrawCountMore(node: Wait, states: seq<RetryState>, state: RetryState)
    requires node.Jittered?
    ensures DrawCount(node, states + [state]) == DrawCount(node, states) + if DrawsAt(node, states, state) then 1 else 0
  {
    assert (states + [state])[..|states|] == states;
  }

  /** The word behind a delay, when one is drawn. */
  function WordBehind(node: Wait, states: seq<RetryState>): U64
    requires node.Jittered?
  {
    Finalize(Walk(node.rng, DrawCount(node, states) + 1))
  }

  /** The delay that follows any consultations comes from the word of its number. */
  lemma DelayComesFromWord(node: Wait, states: seq<RetryState>, state: RetryState)
    requires node.Jittered? && DrawsAt(node, states, state)
    ensures DelayFromWord(node, NextWait(Asked(node.inner, states), state).0, state,
                          WordBehind(node, states), NextWait(Asked(node, states), state).0)
  {
    NodeWalksItsStream(node, states);
    DelayOfMoved(node, Asked(node.inner, states), DrawCount(node, states), state);
  }

  lemma DelayOfMoved(node: Wait, inner: Wait, draws: nat, state: RetryState)
    requires node.Jittered? && DrawsFor(node, NextWait(inner, state).0, state)
    ensures DelayFromWord(node, NextWait(inner, state).0, state, Finalize(Walk(node.rng, draws + 1)),
                          NextWait(Moved(node, inner, draws), state).0)
  {
    NodeDraws(Moved(node, inner, draws), state);
    WalkFurther(node.rng, draws, 1);
  }

  lemma {:induction false} DrawCountGrows(node: Wait, states: seq<RetryState>, i: nat)
    requires node.Jittered? && i <= |states|
    ensures DrawCount(node, states[..i]) <= DrawCount(node, states)
    decreases |states|
  {
    if i < |states| {
      var init, last := states[..|states| - 1], states[|states| - 1];
      DrawCountGrows(node, init, i);
      assert init[..i] == states[..i];
    } else {
      assert states[..i] == states;
    }
  }

  /** No two of up to 2^64 delays that a node draws come from the same word. */
  lemma SuccessiveWordsDiffer(node: Wait, states: seq<RetryState>, i: nat, j: nat)
    requires node.Jittered? && i < j < |states| && DrawCount(node, states) <= WORDS
    requires DrawsAt(node, states[..i], states[i]) && DrawsAt(node, states[..j], states[j])
    ensures WordBehind(node, states[..i]) != WordBehind(node, states[..j])
  {
    DrawIsCounted(node, states, i, j);
    DrawIsCounted(node, states, j, |states|);
    assert states[..|states|] == states;
    WordsDiffer(node.rng, DrawCount(node, states[..i]), DrawCount(node, states[..j]), DrawCount(node, states));
  }

  lemma WordsDiffer(rng: U64, m: nat, n: nat, total: nat)
    requires m < n < total <= WORDS
    ensures Finalize(Walk(rng, m + 1)) != Finalize(Walk(rng, n + 1))
  {
    WordsOfStreamDiffer(rng, m + 1, n + 1);
  }

  lemma WordsOfStreamDiffer(rng: U64, m: nat, n: nat)
    requires m < n < m + WORDS
    ensures Finalize(Walk(rng, m)) != Finalize(Walk(rng, n))
  {
    WalkIsInjective(rng, m, n);
    FinalizeIsInjective(Walk(rng, m), Walk(rng, n));
  }

  lemma DrawIsCounted(node: Wait, states: seq<RetryState>, i: nat, j: nat)
    requires node.Jittered? && i < j <= |states| && DrawsAt(node, states[..i], states[i])
    ensures DrawCount(node, states[..i]) < DrawCount(node, states[..j])
  {
    DrawCountMore(node, states[..i], states[i]);
    assert states[..i] + [states[i]] == states[..j][..i + 1];
    DrawCountGrows(node, states[..j], i + 1);
  }

  // ----- clones -----

  /** The seeds of a tree's jittered nodes, and where their generators stand, in the
      order in which a clone renews them. */
  function Seeds(wait: Wait): seq<U64> {
    match wait
    case Capped(inner, _) => Seeds(inner)
    case Combine(l, r) => Seeds(l) + Seeds(r)
    case Chain(first, second, _) => Seeds(first) + Seeds(second)
    case Jittered(inner, _, seed, _) => Seeds(inner) + [seed]
    case WithinBudget(inner, _) => Seeds(inner)
    case _ => []
  }

  function Generators(wait: Wait): seq<U64> {
    match wait
    case Capped(inner, _) => Generators(inner)
    case Combine(l, r) => Generators(l) + Generators(r)
    case Chain(first, second, _) => Generators(first) + Generators(second)
    case Jittered(inner, _, _, rng) => Generators(inner) + [rng]
    case WithinBudget(inner, _) => Generators(inner)
    case _ => []
  }

  /** One generator per seed, each under the nonce of its own number. */
  function Renewed(seeds: seq<U64>, nonces: nat -> U64, next: nat): seq<U64> {
    seq(|seeds|, i requires 0 <= i < |seeds| => SeededState(seeds[i], nonces(next + i)))
  }

  lemma RenewedInParts(a: seq<U64>, b: seq<U64>, nonces: nat -> U64, next: nat)
    ensures Renewed(a + b, nonces, next) == Renewed(a, nonces, next) + Renewed(b, nonces, next + |a|)
  {
  }

  lemma RenewedMore(seeds: seq<U64>, seed: U64, nonces: nat -> U64, next: nat)
    ensures Renewed(seeds + [seed], nonces, next) ==
            Renewed(seeds, nonces, next) + [SeededState(seed, nonces(next + |seeds|))]
  {
  }

  /** A clone renews every generator of the tree, each under a nonce of its own, and
      uses as many nonces as there are jittered nodes. */
  lemma {:induction false} CloneRenewsEveryGenerator(wait: Wait, nonces: nat -> U64, next: nat)
    ensures CloneWait(wait, nonces, next).1 == next + |Seeds(wait)|
    ensures Generators(CloneWait(wait, nonces, next).0) == Renewed(Seeds(wait), nonces, next)
  {
    match wait
    case Capped(inner, _) => CloneRenewsEveryGenerator(inner, nonces, next);
    case Combine(l, r) =>
      CloneRenewsEveryGenerator(l, nonces, next);
      CloneRenewsEveryGenerator(r, nonces, next + |Seeds(l)|);
      RenewedInParts(Seeds(l), Seeds(r), nonces, next);
    case Chain(first, second, _) =>
      CloneRenewsEveryGenerator(first, nonces, next);
      CloneRenewsEveryGenerator(second, nonces, next + |Seeds(first)|);
      RenewedInParts(Seeds(first), Seeds(second), nonces, next);
    case Jittered(inner, _, seed, _) =>
      CloneRenewsEveryGenerator(inner, nonces, next);
      RenewedMore(Seeds(inner), seed, nonces, next);
    case WithinBudget(inner, _) => CloneRenewsEveryGenerator(inner, nonces, next);
    case _ =>
  }

  /** Trees that differ only in where their generators stand, at any depth, have the
      same clone: a clone takes nothing from the streams of its original. */
  lemma {:induction false} CloneForgetsGenerators(wait: Wait, other: Wait, nonces: nat -> U64, next: nat)
    requires Told(wait, []) == Told(other, [])
    ensures CloneWait(wait, nonces, next) == CloneWait(other, nonces, next)
  {
    match wait
    case Capped(inner, _) => CloneForgetsGenerators(inner, other.inner, nonces, next);
    case Combine(l, r) =>
      CloneForgetsGenerators(l, other.left, nonces, next);
      CloneForgetsGenerators(r, other.right, nonces, CloneWait(l, nonces, next).1);
    case Chain(first, second, after) =>
      ToldNothing(first, second, after);
      ToldNothing(other.first, other.second, after);
      CloneForgetsGenerators(first, other.first, nonces, next);
      CloneForgetsGenerators(second, other.second, nonces, CloneWait(first, nonces, next).1);
    case Jittered(inner, _, _, _) => CloneForgetsGenerators(inner, other.inner, nonces, next);
    case WithinBudget(inner, _) => CloneForgetsGenerators(inner, other.inner, nonces, next);
    case Custom(answer, seen) => assert seen + [] == seen && other.seen + [] == other.seen;
    case _ =>
  }

  lemma GeneratorOfClone(wait: Wait, nonces: nat -> U64, next: nat, i: nat)
    requires i < |Seeds(wait)|
    ensures var renewed := Generators(CloneWait(wait, nonces, next).0);
            i < |renewed| && renewed[i] == SeededState(Seeds(wait)[i], nonces(next + i))
  {
    CloneRenewsEveryGenerator(wait, nonces, next);
  }

  /** Two clones of a tree never draw the same word from corresponding nodes, at any
      depth and at any draw, unless a node has been given the same nonce twice. */
  lemma ClonesDiverge(wait: Wait, nonces: nat -> U64, next1: nat, next2: nat, i: nat, n: nat)
    requires i < |Seeds(wait)| && nonces(next1 + i) != nonces(next2 + i)
    ensures var a, b := Generators(CloneWait(wait, nonces, next1).0), Generators(CloneWait(wait, nonces, next2).0);
            i < |a| && i < |b| && Finalize(Walk(a[i], n)) != Finalize(Walk(b[i], n))
  {
    GeneratorOfClone(wait, nonces, next1, i);
    GeneratorOfClone(wait, nonces, next2, i);
    DifferentNoncesNeverAgree(Seeds(wait)[i], nonces(next1 + i), nonces(next2 + i), n);
  }

  /** Nor does a clone draw a word that its original, built under another nonce, drew
      at the same place. */
  lemma CloneLeavesOriginal(inner: Wait, kind: JitterKind, nonce: U64, nonces: nat -> U64, next: nat, n: nat)
    requires nonces(next + |Seeds(inner)|) != nonce
    ensures var original := NewJittered(inner, kind, nonce);
            var copy := CloneWait(original, nonces, next).0;
            copy.Jittered? && Finalize(Walk(original.rng, n)) != Finalize(Walk(copy.rng, n))
  {
    CloneRenewsEveryGenerator(inner, nonces, next);
    DifferentNoncesNeverAgree(DEFAULT_JITTER_SEED, nonce, nonces(next + |Seeds(inner)|), n);
  }
}

# A retry engine, verified

`relentless` retries an operation until a classifier accepts its outcome, a stop
strategy or a timeout gives up, or a fatal outcome aborts. Between attempts it
asks a wait strategy for a delay. Two engines do this: a blocking loop, and a
poll-driven future that can be suspended in an operation or in a sleep. They
share one decision step and are otherwise written separately. This project
models both engines with the strategies, clock, hooks and arithmetic under them,
and proves what holds of every run.

`dafny verify dfyconfig.toml` checks everything.

## How the model is laid out

| file | content |
|---|---|
| `Durations`, `States` | saturating `Duration` as nanoseconds up to 2^64 * 10^9 - 1, u32 and u64 ranges, the values passed between parts |
| `Floats`, `Powers`, `WaitMath` | IEEE 754 binary64 rounding, square-and-multiply with rounded products, float to `Duration` with its casts |
| `SplitMix`, `Jitters`, `Streams` | the generator, its state shared by threads, the jitter object, what jittered strategies and their clones draw |
| `Stops`, `Waits`, `Decisions` | strategy trees and their evaluation, classifiers |
| `Clocks`, `Hooks` | `VirtualClock`, `VirtualWait`, hook chains |
| `Engine` | the decision step, the loop as a function `Exec(setup, n)` of the number of iterations, and the blocking engine `SyncRetry` proved to compute it |
| `Traces`, `Limits`, `Timing`, `Desugaring`, `Decorrelation` | properties of every run |
| `AsyncEngine`, `AsyncRuns` | the poll state machine as a function `Turns(setup, n)`, its refinement of the loop, suspension, cancellation, and the `AsyncRun` object proved to compute it |
| `Readings` | every monotone clock that honours the waits is covered by the environments of `Engine` |

A `Setup` holds the classifier, the strategies, the timeout, the clock reading at
the start and an environment. The environment says what the operation answers at
each call (which may depend on the state it is shown), how much time passes in
the operation and between attempts, and how that time is spread over the Pending
polls of the futures. Statements quantify over all of it. Only where a statement
says so is the clock assumed coherent (a wait is reflected in later readings) or
exact (as `VirtualClock` is).

The code and its documentation differ in two places.

The documentation of `Retry::timeout` (src/engine/mod.rs:236-250) calls it a
budget for the whole execution to which every wait is clamped, which suggests
that the waits of a run never add up to more than the timeout. The code keeps
that promise only while the clock can show the deadline: a clock that saturates
at `Duration::MAX`, as `VirtualClock` does, can stop short of it, and a run then
waits for longer than its timeout. `Timing.TimeoutSafetyCondition` gives the
exact condition on the clock reading at the start and the timeout, with a run
that exceeds the timeout whenever the condition fails;
`Timing.TimeoutTerminationCondition` does the same for ending at all.

`wait::exponential` is documented as initial * 2^(attempt - 1)
(src/wait/strategies.rs:108-111). The code computes in f64, so an initial delay
above 2^53 ns (about 104 days) may be rounded, and the first delay can be shorter
than it. `Waits.DoublingCondition` and `Waits.ExponentialKeepsItsStart` say exactly
when.

One law needs a hypothesis. The and-composition of stop strategies stops when the
last of its sides stops only if a side that has said stop keeps saying so.
Built-in strategies do; user strategies need not
(`Limits.ForgetfulSidesNeverMeet`).

## Model

| member | source | states |
|---|---|---|
| AsyncEngine.AsyncRefinesSync | src/engine/async_engine.rs:423-496 | whatever Pending results the operation and sleep futures give, every state the poll machine reaches is an interruption of the blocking run after the same number of attempts: same cursor, strategies, clock and trace up to the time the held future has left |
| AsyncEngine.TurnMirrors | src/engine/async_engine.rs:430-494 | one arm of the phase match keeps that correspondence although its fields are updated in another order than the loop's |
| AsyncEngine.TakeTurn | src/engine/async_engine.rs:430-494 | a live machine stays live or completes; no future is polled again after it was Ready, and no turn follows completion |
| AsyncRuns.AsyncCompletes | src/engine/async_engine.rs:430-494 | if the blocking run ends, then from any point the poll machine completes within finitely many turns |
| AsyncRuns.CompletesAlike | tests/parity.rs:224-246 | it completes with the blocking run's result, statistics, final strategies, clock and trace |
| AsyncRuns.PollsToComplete | src/engine/async_engine.rs:440-444 | the polls that return Pending are exactly the Pending results of the run's operations and nonzero sleeps; no poll is wasted on anything else |
| AsyncRuns.PollsAreCounted | src/engine/async_engine.rs:485-491 | the same account at every point of the run, finished iterations and the held future separated |
| AsyncRuns.SuspendedOnFuture | src/engine/async_engine.rs:441-443 | where poll returns Pending, the machine holds a future that has been polled and is not Ready |
| AsyncRuns.ExitFiresAtCompletion | src/engine/async_engine.rs:461-464 | the exit hook has fired if and only if the phase is Done |
| AsyncRuns.CancellationLeavesPrefix | src/engine/async_engine.rs:321-331 | a machine dropped while suspended, in a run that ends or not, has logged a proper prefix of the trace that the run left to itself has from the current iteration on, without the exit hook |
| AsyncRuns.AsyncRun.constructor | src/engine/async_engine.rs:332-349 | a fresh machine stands before its first turn and has read no origin |
| AsyncRuns.AsyncRun.ReadOrigin | src/engine/async_engine.rs:426-428 | the origin is read by the first poll only |
| AsyncRuns.AsyncRun.PollOperation | src/engine/async_engine.rs:440-484 | the field updates of the Polling arm amount to the machine's turn, Pending and Ready alike |
| AsyncRuns.AsyncRun.PollSleep | src/engine/async_engine.rs:485-491 | the attempt counter moves when the sleep is Ready and not before; the sleep is requested by its first poll |
| AsyncRuns.AsyncRun.Poll | src/engine/async_engine.rs:423-496 | a poll takes turns up to and including the first that suspends or completes, returns accordingly, and leaves the phase Done exactly when it returns Ready |
| AsyncRuns.BlockOn | tests/parity.rs:35-50 | an executor that polls until Ready obtains the blocking run's end, for every run that ends and every schedule of Pending results |
| AsyncRuns.Parity | tests/parity.rs:224-246 | driven on one setup, the two engine objects return equal results and statistics and leave equal clocks, traces and strategies |
| Engine.SyncRetry.Run | src/engine/mod.rs:364-414 | the loop over attempt, previous delay and total wait ends with the result, statistics, strategies, clock and trace that `Exec` gives |
| Engine.SyncRetry.Iteration | src/engine/mod.rs:372-412 | one pass of the loop leaves the object at the end of the run or at the start of the next attempt, slept and ready |
| Engine.SyncRetry.Attempt | src/engine/step.rs:59-150 | before hook, operation and shared step in that order, on one clock reading before and one after the operation |
| Engine.CallsSoFar | src/engine/mod.rs:368-410 | attempts are numbered by the operation calls, saturating at u32::MAX, and that is the number reported |
| Engine.EndsAtItsCalls | src/engine/mod.rs:398-398 | a run ends in the iteration that made its last call |
| Traces.TraceGrammar | src/engine/step.rs:82-148 | every run in progress has logged whole attempts (before, call, after, sleep unless zero), each outcome what the operation answers to the state it was shown, each attempt handed the delay scheduled by the one before and times that never go back; every ended run closes with one exit that agrees with verdict, result and statistics |
| Traces.ExitIsLast | src/engine/step.rs:102-134 | a well-formed trace holds an exit only at its very end |
| Traces.TraceGrows | src/engine/mod.rs:372-412 | traces are only ever extended |
| Traces.StopConsultations | src/stop/composition.rs:41-90 | every leaf of the stop tree is shown every Retry verdict once, in order: one per attempt while the run goes on, and for the last attempt exactly if it was exhausted, by the tree or by the timeout |
| Traces.WaitConsultations | src/engine/step.rs:137-143 | after n iterations the wait strategy has been asked n times, at the states the stop strategy let pass |
| Traces.WaitConsultationsAtEnd | src/engine/step.rs:137-143 | a run of k attempts has asked it k - 1 times |
| Traces.WaitLeavesAreAsked | src/wait/composition.rs:32-135 | down in the tree, every leaf of the wait strategy has been asked once at each of those states, in order, a chain passing each to the side its attempt number selects |
| Waits.EveryWaitLeafIsAsked | src/wait/composition.rs:32-135 | one consultation of the root is one consultation of every leaf its chains let through, under caps, sums and jitter |
| Traces.CustomWaitRemembers | src/engine/step.rs:139-139 | a user strategy with interior state at the root remembers exactly those states after what it remembered before |
| Traces.CustomWaitAnswers | src/engine/step.rs:137-143 | it answers from all of them, the current one included, and without a timeout that is the delay |
| Limits.LimitEndsRun | src/stop/strategies.rs:30-39 | a tree with an attempt limit (for an or-composition the least, for an and-composition the greatest of its sides) ends every run within that many calls, for every operation, wait strategy and clock |
| Limits.LimitIsExactOnFrozenClock | src/stop/composition.rs:41-90 | on a clock that never moves, an operation that is always retried is called exactly that often, and for ever without a limit |
| Limits.StoppingOnlyTruncates | src/engine/step.rs:123-135 | any stop strategy, stateful user strategies included, decides only when a run ends: until then the run is the unstopped one, random draws included, and the tree is what the verdicts have made of it |
| Limits.AnyGoesOnWithBoth | src/stop/composition.rs:41-47 | for any two strategies a run under their or-composition goes on exactly while the runs under each do |
| Limits.AllGoesOnUntilTogether | src/stop/composition.rs:84-90 | for any two strategies a run under their and-composition goes on exactly until both say stop at the same verdict |
| Limits.AllGoesOnWithEither | src/stop/composition.rs:84-90 | for two strategies that keep saying stop once they have, that is exactly while the run under either goes on |
| Limits.ForgetfulSidesNeverMeet | src/stop/composition.rs:84-90 | without that hypothesis it fails: two strategies that each stop a run by themselves, one at its first and one at its second consultation only, never stop it together |
| Limits.BuiltInLatches | src/stop/strategies.rs:35-105 | every tree of built-in strategies keeps saying stop, because clocks are monotone |
| Limits.OperatorsLatch | src/stop/composition.rs:41-90 | both operators keep that property, so any mix of such strategies has it |
| Limits.AnyRunLength | src/stop/composition.rs:41-47 | within any number of iterations, whether the sides have ended or not, the or-composition makes the minimum of the numbers of calls made under its sides, and has ended once either has |
| Limits.AllRunLength | src/stop/composition.rs:84-90 | for sides that keep saying stop the and-composition makes the maximum, and has ended once both have |
| Limits.RunLengths | src/stop/composition.rs:41-90 | for built-in trees both laws hold outright |
| Limits.StatesGrow | src/engine/mod.rs:372-412 | what the strategies are shown grows along a run in attempt and elapsed time |
| Stops.EveryLeafIsConsulted | src/stop/composition.rs:41-90 | one consultation of the root is one consultation of every leaf: no short circuit |
| Stops.BuiltInIsMonotone | src/stop/strategies.rs:35-105 | a built-in tree that stops keeps stopping at every later state |
| Stops.StopsAtLimit | src/stop/composition.rs:41-90 | at its attempt limit a tree stops whatever the clock and the custom leaves say |
| Stops.StopsOnlyAtLimit | src/stop/composition.rs:41-90 | while no time has passed a built-in tree stops at its limit and no earlier |
| Timing.WaitingIsConserved | src/engine/step.rs:144-147 | the reported total wait is the saturated sum of all scheduled delays, and the clock was asked for exactly the nonzero ones in order |
| Timing.ExactClockAddsUp | src/clock.rs:256-277 | on an exact clock the reading is the saturated sum of origin, all waits and all time in operations |
| Timing.ElapsedAddsUp | src/engine/mod.rs:364-395 | what the hook, the operation and the strategies are shown as elapsed, and the statistics report, is the waiting and operation time so far, as far as the clock can show it |
| Timing.StatesShown | src/engine/step.rs:89-91 | at every attempt hook, operation and strategies are shown its number and the delay scheduled last, none at the first |
| Timing.TimeoutBoundsWaiting | src/engine/step.rs:139-147 | with a deadline the clock can show, total wait never exceeds the timeout, on any coherent clock |
| Timing.PinnedClockOutwaitsTimeout | src/clock.rs:256-258 | beyond it, a fixed delay equal to the timeout waits for longer than the timeout |
| Timing.TimeoutSafetyCondition | src/engine/mod.rs:236-250 | for a given origin and timeout the bound holds of every run if and only if origin + timeout does not pass `Duration::MAX`, or the timeout is `Duration::MAX` |
| Timing.AttemptsStartInTime | src/engine/step.rs:123-143 | on an exact clock every attempt starts within the timeout |
| Timing.OverrunIsLastOperation | src/engine/mod.rs:236-250 | total elapsed time exceeds the timeout by at most the duration of the last operation |
| Timing.TimeoutEndsRun | src/engine/step.rs:123-143 | a timeout t that the clock can show ends every run whose delays never go below m > 0 within ceil(t / m) + 1 attempts, for every operation, classifier, stop strategy and coherent clock |
| Timing.UnshowableDeadlineNeverComes | src/clock.rs:256-258 | a timeout beyond what the clock can show never ends a run, on any clock |
| Timing.TimeoutTerminationCondition | src/engine/mod.rs:236-250 | a run that only its timeout can end, with such delays on a coherent clock, ends if and only if origin + timeout does not pass `Duration::MAX` |
| Timing.LandsOnDeadline | src/engine/step.rs:123-143 | on an exact clock with instant operations such a run, with any strategy that never answers less than m > 0, has elapsed time, total wait and the sum of recorded waits all exactly t |
| Timing.IntervalGivesFloor | src/wait/composition.rs:32-135 | a tree whose intervals start at m or above never answers less than m, however often it has been asked |
| Timing.AnswersGiveFloor | src/engine/step.rs:139-139 | nor does a stateful user strategy whose answers do not |
| Timing.BackoffsHaveFloors | src/wait/strategies.rs:36-139 | fixed and linear backoff never go below their first delay, exponential backoff not below its start as an f64 holds it, which is the start up to 2^53 ns |
| Timing.FixedDelayCount | src/engine/step.rs:123-143 | with a fixed delay d it makes exactly ceil(t / d) + 1 calls |
| Desugaring.TimeoutDesugars | src/engine/step.rs:124-143 | a run with timeout t is the run without one under stop S-or-`elapsed(t)` and wait min(W, t - elapsed): same trace, clock, result, statistics and strategy consultations at every iteration |
| Decorrelation.DecorrelatedDelays | src/wait/jitter.rs:277-284 | through the engine's feedback the k-th delay is at most base * 3^k, the cap and the remaining budget, and at least the least of base, cap and remaining budget, for every seed, operation and clock |
| Decorrelation.BackoffStep | src/wait/jitter.rs:321-323 | one consultation stays between the base and three times the previous delay, within the cap |
| Decorrelation.BackoffStaysBounded | src/engine/mod.rs:405-410 | the bound is an invariant of the run |
| Readings.ReadingsAreRealised | src/clock.rs:49-64 | any sequence of readings that is monotone and reflects each wait of the run is what some coherent environment reads |
| Clocks.ClockIsCoherent | src/clock.rs:233-278 | after any mix of advances and waits the reading is the saturated sum of all of them and the record the waits in order |
| Clocks.VirtualClock.constructor | src/clock.rs:247-249 | a new clock reads zero and has recorded nothing |
| Clocks.VirtualClock.Advance | src/clock.rs:256-258 | moves the reading, saturating, and records nothing |
| Clocks.VirtualClock.RecordWait | src/clock.rs:273-277 | moves the reading and records the wait together |
| Clocks.VirtualClock.WaitAsync | src/clock.rs:293-304 | creating a wait changes nothing |
| Clocks.VirtualWait.Poll | src/clock.rs:318-328 | time moves on the first poll only, and every poll is Ready |
| Hooks.RegistrationOrder | src/engine/hooks.rs:112-142 | hooks registered one by one fire as a flat list in registration order |
| Hooks.EveryHookSeesEveryEvent | src/engine/hooks.rs:69-92 | over a run each registered hook receives every event of its point once, in order, whatever is registered beside it |
| Hooks.HookLog.Call | src/engine/hooks.rs:69-92 | dispatch through a chain fires first, then second |
| Decisions.ClassifiersAgree | src/decision.rs:77-312 | `.when(p)` retries exactly the outcomes p wants and `.until(p)` exactly the others, the default exactly the errors; of the rest a success is returned and an error is fatal, and no outcome is lost or altered |
| Decisions.WhenDecidesRuns | src/decision.rs:265-282 | a run under `.when(p)` ends with the first outcome p does not want, with its value or aborted with its error |
| WaitMath.PowNonnegative | src/wait/math.rs:50-78 | in IEEE 754 binary64 with rounding to nearest even, square-and-multiply returns the rounded power computed without any limit on the exponent when that is within the f64 range, and infinity exactly otherwise, although the squared factor may overflow first |
| WaitMath.MulOfOverflow | src/wait/math.rs:63-76 | overflow commutes with multiplying doubles from 1 on |
| WaitMath.DefaultBaseOverflows | src/wait/math.rs:64-67 | the power of the default base is infinite from exponent 1024 on and not before |
| WaitMath.LargestF64 | src/wait/math.rs:65-67 | the threshold of overflow is a double and no double of its binade lies above it |
| Floats.LeastDouble | src/wait/math.rs:32-32 | 2^-1074 is a double and 2^-1075 rounds to zero |
| WaitMath.BaseIsClamped | src/wait/math.rs:6-11 | a finite base from 1 on is kept, every other becomes 1 |
| Waits.RebasedDelay | src/wait/strategies.rs:126-139 | so backoff under `.base(b)` grows by b if that is finite and at least 1, and stays at its start otherwise |
| Powers.RoundedPowerMonotone | src/wait/math.rs:58-77 | the rounded powers never shrink as the exponent grows, for every base |
| Powers.RoundedPowerIsNear | src/wait/math.rs:58-77 | the rounded power lies between the powers of the base perturbed by a factor of 1 - 2^-53 and 1 + 2^-53 |
| Powers.RoundedPowerIsExact | src/wait/math.rs:58-77 | it is the true power wherever the true powers up to it are doubles |
| Powers.PowersOfTwoAreExact | src/wait/strategies.rs:106-118 | for the default base it is always the true power |
| WaitMath.SatMulF64IsFloor | src/wait/math.rs:22-44 | for a finite multiplier from 0 on the result is min(MAX, floor(p)), p the rounded product of the rounded duration |
| WaitMath.SatMulF64OfOverflow | src/wait/math.rs:25-38 | the same formula holds for a multiplier that has overflowed, as if f64 had no largest value; a zero duration stays zero |
| WaitMath.SatMulF64OfSpecial | src/wait/math.rs:25-38 | infinity saturates a nonzero duration; NaN and negative infinity give zero |
| WaitMath.ScaledIsExact | src/wait/math.rs:32-43 | where duration and product need no more than 53 bits nothing is rounded |
| WaitMath.ScaledIsNear | src/wait/math.rs:32-43 | in general the product is off by at most two roundings |
| WaitMath.ThresholdIsAboveMax | src/wait/math.rs:33-36 | `Duration::MAX` rounds up to 2^64 * 10^9 |
| WaitMath.FromNanosIsFloor | src/wait/math.rs:33-43 | below that threshold the casts to u64 seconds and u32 nanoseconds lose nothing |
| Floats.NearestMonotone | src/wait/math.rs:32-32 | rounding to the nearest double is monotone |
| Floats.NearestIsNear | src/wait/math.rs:32-32 | and off by a factor of at most 2^-53 from 1 on |
| WaitMath.SatMulF64OfNegative | src/wait/math.rs:28-38 | a negative multiplier gives zero |
| Waits.ExponentialIsIdeal | src/wait/strategies.rs:133-139 | exponential backoff is min(MAX, growth), growth being what its rounded products give when neither f64 nor Duration has a largest value |
| Waits.DoublingCondition | src/wait/strategies.rs:108-118 | with the default base the documented delay initial * 2^(attempt - 1), saturated, is met at every attempt if and only if the initial delay fits an f64 exactly, as all up to 2^53 ns do, or is MAX |
| Waits.DoublingIsExact | src/wait/strategies.rs:133-139 | in any case growth with the default base is the initial delay as an f64 holds it, doubled exactly at each attempt |
| Waits.GrowthIsNear | src/wait/strategies.rs:133-139 | for every base growth is initial * base^(attempt - 1) with every factor off by at most 2^-53 |
| Waits.ExponentialIsMonotone | src/wait/strategies.rs:133-139 | it never shrinks from one attempt to a later one, for every base and rounding included; its least delay is the rounded initial delay |
| Waits.ExponentialKeepsItsStart | src/wait/strategies.rs:133-139 | it stays at or above its initial delay if and only if that does not round down |
| Waits.LargeStartIsRoundedDown | src/wait/math.rs:32-32 | 2^53 + 1 ns is the least initial delay for which it does not, nor meets its formula |
| Waits.SaturationCommutes | src/wait/composition.rs:32-135 | for every jitter-free tree, saturating at each node equals saturating the unbounded value once; evaluation changes nothing in the tree |
| Waits.CombineIsCommutativeMonoid | src/wait/composition.rs:75-81 | `+` of any trees, jittered ones included, is commutative and associative with the zero delay as unit in spite of saturation |
| Waits.NextWaitInInterval | src/wait/jitter.rs:263-286 | every delay of every tree, in every state and generator state, lies in the recursively computed interval |
| Waits.JitterInRange | src/wait/jitter.rs:263-286 | the four jitter formulas keep their documented ranges |
| Streams.AnswersOfJitter | src/wait/jitter.rs:263-286 | for every kind, base and previous delay the durations a formula can answer are exactly those of its documented range, cut at 2^64 - 1 ns above its lower end |
| Streams.DocumentedRanges | src/wait/jitter.rs:104-117 | the four ranges written out: [base, base + max], [0, base], [base / 2, 2 * (base / 2)] and [base, max(base, 3 * previous)] |
| Streams.AnswersOfBuilt | src/wait/jitter.rs:195-219 | over all nonces a freshly jittered strategy can answer just those, from its inner delay and the previous delay it is shown |
| Streams.JitterIsAdded | src/wait/jitter.rs:205-207 | `.jitter(max)` on a strategy that is not capped can answer exactly its delay plus 0 to max |
| Streams.JitterIsAddedUnderCap | src/wait/composition.rs:147-155 | on a capped strategy it adds to the delay before capping |
| Streams.NodeDraws | src/wait/jitter.rs:332-341 | one consultation asks the inner strategy once and takes the next word of the stream, or none if the range is empty; the delay is the lower end plus the remainder of that word |
| Streams.NodeWalksItsStream | src/wait/jitter.rs:263-286 | over any consultations the generator has taken one word for each nonempty range and none for the others |
| Streams.DelayComesFromWord | src/wait/jitter.rs:332-341 | each drawn delay comes from the word of its number in the stream |
| Streams.SuccessiveWordsDiffer | src/wait/jitter.rs:54-75 | no two of up to 2^64 delays a node draws come from the same word |
| Streams.InstancesNeverAgree | src/wait/jitter.rs:195-203 | two fresh instances under different nonces differ at every draw |
| Waits.IntervalIsStable | src/wait/jitter.rs:263-286 | consulting a tree moves its generators but not its interval |
| Waits.JitterNeverBreachesCap | src/wait/composition.rs:137-155 | additive, full and equal jitter applied after `.cap(max)` never exceed max |
| Waits.UnnormalisedJitterBreachesCap | src/wait/composition.rs:138-146 | without the normalisation additive jitter over any capped strategy breaches the cap in some generator state, if and only if the capped delay and the longest draw exceed it together and it is below MAX |
| Waits.DrawableDurations | src/wait/jitter.rs:330-341 | the durations that can be drawn are exactly those of the range within 2^64 - 1 ns of its lower end |
| Waits.StateBeforeWord | src/wait/jitter.rs:70-75 | every word is the next output of a state that can be computed from it |
| Jitters.Jittered.NextWait | src/wait/jitter.rs:263-286 | the object's consultation, drawing from its generator in place, is the strategy's |
| Jitters.Jittered.WithSeed | src/wait/jitter.rs:232-236 | the seed alone pins the sequence, whatever seed or nonce came before |
| Jitters.Jittered.WithNonce | src/wait/jitter.rs:246-249 | replaces the nonce and keeps the seed |
| Jitters.Jittered.Clone | src/wait/jitter.rs:252-261 | a clone is the tree with a fresh nonce in every jittered node, the inner ones first, and a generator of its own |
| Waits.CloneIsTheSameStrategy | src/wait/jitter.rs:252-261 | a cloned tree has the same shape, kinds, seeds, memories and bounds, whatever the nonces |
| Streams.CloneRenewsEveryGenerator | src/wait/jitter.rs:252-261 | every jittered node of a clone, at any depth, has its seed under a nonce of its own number, and as many nonces are used as there are such nodes |
| Streams.CloneForgetsGenerators | src/wait/jitter.rs:252-261 | trees that differ only in where their generators stand have the same clone |
| Streams.ClonesDiverge | src/wait/jitter.rs:125-127 | corresponding nodes of two clones under different nonces differ at every draw |
| Streams.CloneLeavesOriginal | src/wait/jitter.rs:125-127 | so do a clone and its original |
| Jitters.RandomDurationIn | src/wait/jitter.rs:332-341 | a draw lies between the bounds and moves the generator at most once; an empty range draws nothing |
| SplitMix.FinalizeIsPermutation | src/wait/jitter.rs:70-75 | the output mix is a bijection of u64, with its inverse |
| SplitMix.WalkIsInjective | src/wait/jitter.rs:54-60 | no state recurs within 2^64 draws |
| SplitMix.WalkCoversAllWords | src/wait/jitter.rs:54-60 | from any seed the walk visits every state |
| SplitMix.WalkClosedForm | src/wait/jitter.rs:54-60 | n advances add n times the increment, modulo 2^64 |
| SplitMix.InterleavingSharesOneStream | src/wait/jitter.rs:36-40 | under every interleaving of atomic advances and later mixing by any number of threads, the draws are those of the sequential stream, each handed to one thread and none lost |
| SplitMix.ConcurrentDrawsAreDistinct | src/wait/jitter.rs:36-40 | no two of up to 2^64 concurrent draws are equal |
| SplitMix.EveryDrawIsObtained | src/wait/jitter.rs:36-40 | a thread that draws obtains the next word of the stream, whatever other threads do between its addition and the end of its mix |
| SplitMix.DifferentNoncesNeverAgree | src/wait/jitter.rs:94-102 | copies of one seed under different nonces differ at every draw |
| SplitMix.SplitMix64.NextU64 | src/wait/jitter.rs:70-75 | advances the state once and returns its mix |
| SplitMix.SplitMix64.NextBounded | src/wait/jitter.rs:78-85 | one advance, and what is left of the word after whole ranges of max + 1, for the whole-word bound too |
| SplitMix.ReducedIsTheRemainder | src/wait/jitter.rs:83-84 | for every word and bound that is one value only: the r up to max with word = q * (max + 1) + r |
| SplitMix.SeedAndNonceRecovered | src/wait/jitter.rs:94-96 | seed and nonce are combined without loss: each is recovered from the state and the other |
| SplitMix.NonceIsFirstWord | src/wait/jitter.rs:98-102 | the derived nonce is the first word of a generator started at the seed |

## Left out

- Engine.SyncRetry.Run: takes a ghost number of iterations by which the run has ended, because a run that never ends has no result to state; what holds of runs that never end is stated by the lemmas over every number of iterations.
- AsyncRuns.AsyncRun.Poll: takes a ghost turn that suspends or completes, because one poll of a run that never ends and never suspends does not return.
- Signed zeros of f64 are one zero, and the comparison, cast and product of f64 values are written out from IEEE 754 and the rules of Rust's `as`, not taken from a library model.
- SplitMix.SplitMix64.NextBounded: that the modulo makes the draw slightly non-uniform is not stated; nor is any other statistical quality of jitter.
- SplitMix.InterleavingSharesOneStream: `fetch_add` is taken as atomic; the `Cell` fallback is the case of one thread.
- Jitters.Jittered.Clone: the nonces are any u64 values; the process-wide nonce counter and system time that produce them are not part of this model, and a user strategy is taken to copy what it remembers.
- Engine.SyncRetry.Attempt: in it, and in AsyncRun, the clock is a value moved by the environment, not a `VirtualClock` object; `Timing.ExactClockIsVirtual` and `Readings.ReadingsAreRealised` connect the two.
- Hooks.HookLog.Call: the engines log the events of the three hook points, and hook chains are modelled beside them on any sequence of events; hooks take no state of the engine and cannot panic.
- Outcome implementations for `Option`, `ControlFlow` and plain values, and the predicate factories: each is a single branch.
- Runtime clock adapters (Tokio, Embassy, Gloo, futures-timer) and `SystemClock`: foreign timers; the clock contract stands for them.
- Builders, `RetryPolicy`, extension traits, boxing and forwarding through references: field copies.
- Pinning and wakers: a future is a script of Pending results ending in Ready.
- Panics of operations and hooks, and the panic of a poll after completion, which is a precondition of `Poll`; `stop::attempts(0)` likewise has no value.
- `Display`, `Debug` and `Error` implementations and the accessors of `RetryError`: one-branch facts.

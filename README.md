# Gain automation: the parameter ramp engine

This project models the parameter ramp engine of the hansen-audio gain
automation plugin and proves properties of it. The plugin turns a block's
sample-accurate automation of its gain parameter into one gain per sample.

The engine has two layers:

- **ParamRamp** (module `Ramp`) holds a value `x` and a target `dst`. Each
  `tick` moves `x` toward `dst` by `delta`, and `x` lands exactly on `dst`
  once it is within `delta` of it. `delta` is `|dst - src| / numSamples`,
  and a sample count of 0 is replaced by 1. `isDone` is the exact test
  `x == dst`. The plugin's inline copy at
  `source/gainautomatorprocessor.cpp:20-76` is the same code, so the same
  module models it.
- **ParamValueQueueProcessor** owns one ramp and walks a sparse list of
  breakpoints (sample offset, value). Whenever the ramp is done, it builds
  the next ramp from breakpoints `i` and `i + 1`. There are two versions:
  - The library version (module `Sequencer`) reads its breakpoints through
    a callback and keeps a `moreRamps` flag. Once a query fails, it freezes
    and asks for nothing more. The callback is the sequence of points it
    answers: a query at index `i` succeeds exactly when `0 <= i < |src|`.
  - The older version (module `VstSequencer`) reads a host parameter queue
    directly. Its inline copy at `source/gainautomatorprocessor.cpp:81-157`
    is the same code. It checks `isValidQueue` on every tick. It clamps the
    segment index to the point count and the second lookup to the last
    point. After the last point it keeps asking the queue again on every
    tick.

Each processor is written two ways:

- a value-level specification: a state datatype with functions for the
  constructor, `initRamp`, `updateRamp` and `tick`;
- a class with the source's fields, whose methods are proved against that
  specification.

A ghost log of the indices passed to the callback (or to `getPoint`) stands
in for the test's call counter. The number of calls is the log's length.

Around the engine, two versions of the plugin processor are modelled:

- The older `process` (module `GainAutomatorInline`) keeps the **last**
  queue for the gain parameter. It then ticks a fresh processor, seeded
  with the gain carried over from the previous block, `numSamples` times.
- The newer `process` (module `GainAutomator`) keeps the **first** matching
  queue. It reads the queue through the bounds-checked adapter
  `get_queue_value`, and scales sample `i` by the gain held before that
  sample's `advance()`.

The gain parameter's id comes from a header that is not part of this
model, so it is a parameter, `gainId`.

The newer processor drives `ptb::ramp_processor`, declared in a header that
is not part of this model. It is modelled, as a stated assumption, as the
library `ParamValueQueueProcessor`, with `advance()` being `tick()`, run
over the points the adapter hands out before its first failure
(`PresentPrefix`). `AdapterAgreesWithPrefix` and `Sequencer.QueriedInRange`
show that this prefix answers every query the processor can make exactly
as the adapter does.

Module `Equivalence` proves that over a queue with every point present,
the two processor versions return the same value on every tick. They
differ only in how often they query the source.

Module `SequencerCases` states the library's test cases as lemmas, with
exact tick values and exact query counts:

- an invalid source gives 1 query;
- a single point gives 2 queries;
- one ramp gives 2 queries;
- two chained ramps give 6 queries.

## Model

| member | source | states |
|---|---|---|
| Ramp.Dezip | external/paramtoolbox/source/paramramp.cpp:11-22 | for a non-negative step the new value lies between x and dst, and the remaining distance shrinks by delta, or becomes 0 once it was within delta |
| Ramp.CalcDelta | external/paramtoolbox/source/paramramp.cpp:26-29 | delta times n is the distance between cur and dst; delta is non-negative for n > 0 |
| Ramp.MakeRamp | external/paramtoolbox/source/paramramp.cpp:38-45 | the ramp starts at src aiming at dst; its sample count is never 0; delta times that count covers the distance; a non-negative count gives a non-negative delta |
| Ramp.ZeroSamplesAsOne | external/paramtoolbox/source/paramramp.cpp:43-44 | a ramp over 0 samples is the ramp over 1 sample; every other count, negative ones included, is kept |
| Ramp.Step | external/paramtoolbox/source/paramramp.cpp:48-52 | a tick changes only x, and for a non-negative delta x never overshoots dst |
| Ramp.StepsStayBetween | external/paramtoolbox/source/paramramp.cpp:48-52 | after any number of ticks, x lies between the start value and dst, and dst and delta are unchanged |
| Ramp.DoneStaysDone | external/paramtoolbox/source/paramramp.cpp:55-58 | a done ramp is a fixed point: further ticks leave the whole state unchanged |
| Ramp.LinearRamp | external/paramtoolbox/source/paramramp.cpp:38-52 | a ramp from a to b over n >= 1 samples is at a + k(b - a)/n after k <= n ticks, and is done exactly when k == n (or a == b) |
| Ramp.StepsCountDown | external/paramtoolbox/source/paramramp.cpp:11-22 | a ramp m signed steps away from dst is m - k steps away after k ticks |
| Ramp.ParamRamp.constructor | external/paramtoolbox/source/paramramp.cpp:38-45 | the fields are those of MakeRamp(src, dst, numSamples) |
| Ramp.ParamRamp.Tick | external/paramtoolbox/source/paramramp.cpp:48-52 | the new state is one Step of the old one, and the value returned is the new x |
| Ramp.ParamRamp.GetValue | source/gainautomatorprocessor.cpp:66 | returns x and reads nothing else |
| Ramp.ParamRamp.IsDone | external/paramtoolbox/source/paramramp.cpp:55-58 | true exactly when x == dst; it changes nothing |
| Sequencer.Query | external/paramtoolbox/include/ha/ptb/paramvaluequeueprocessor.h:20-21 | a query succeeds exactly for an index in range, and then yields that point |
| Sequencer.Initial | external/paramtoolbox/include/ha/ptb/paramvaluequeueprocessor.h:32-35 | before the constructor body runs: currSegment 0, moreRamps true, no queries, and a done flat ramp at init |
| Sequencer.InitRampState | external/paramtoolbox/source/paramvaluequeueprocessor.cpp:47-66 | queries index, then index + 1 only if the first succeeded; a first failure keeps the ramp; a second failure gives the flat ramp at the first value; two points give the ramp between them over their offset distance; moreRamps is true exactly when both succeeded |
| Sequencer.OutputsAt | external/paramtoolbox/source/paramvaluequeueprocessor.cpp:20-31 | the j-th value ticks return is the ramp value after j + 1 ticks |
| Sequencer.IterateAdd | external/paramtoolbox/source/paramvaluequeueprocessor.cpp:20-31 | ticking a + b times is ticking a times, then b times |
| Sequencer.OutputsSplit | external/paramtoolbox/source/paramvaluequeueprocessor.cpp:20-31 | the values of a + b ticks are those of the first a, then those of the next b |
| Sequencer.ConstructReachable | external/paramtoolbox/source/paramvaluequeueprocessor.cpp:12-17 | the constructor starts at segment 0 in a reachable state |
| Sequencer.TickReachable | external/paramtoolbox/source/paramvaluequeueprocessor.cpp:20-31 | tick keeps the invariant: the segment is in range; moreRamps holds exactly while a next point exists; the callback has been asked for 0, 1, 1, 2, ..., j, j + 1 |
| Sequencer.IterateReachable | external/paramtoolbox/source/paramvaluequeueprocessor.cpp:20-31 | the invariant holds after any number of ticks |
| Sequencer.QueryCount | external/paramtoolbox/source/paramvaluequeueprocessor.cpp:47-66 | the callback has been called twice per segment reached, minus one when the first query of the current segment failed |
| Sequencer.QueriedInRange | external/paramtoolbox/source/paramvaluequeueprocessor.cpp:47-66 | a processor never asks for an index below 0 or past the first failing index |
| Sequencer.IterateMonotone | external/paramtoolbox/source/paramvaluequeueprocessor.cpp:40-44 | currSegment never decreases and the query log only grows |
| Sequencer.FrozenAfterExhaustion | external/paramtoolbox/source/paramvaluequeueprocessor.cpp:22-23 | once moreRamps is false, ticks change no state, make no query and keep returning the ramp's value |
| Sequencer.DoneRampAdvances | external/paramtoolbox/source/paramvaluequeueprocessor.cpp:25-28 | a tick with a done ramp moves to the next segment; a segment with equal end values is done as soon as it is built |
| Sequencer.RampPhase | external/paramtoolbox/source/paramvaluequeueprocessor.cpp:25-30 | while the ramp is short of its target, ticks only tick the ramp and make no query |
| Sequencer.SegmentAt | external/paramtoolbox/source/paramvaluequeueprocessor.cpp:20-31 | k <= n ticks into a segment from a != b over n samples, the value is a + k(b - a)/n |
| Sequencer.SegmentOutputs | external/paramtoolbox/source/paramvaluequeueprocessor.cpp:20-31 | a built segment from a to b over n samples returns a + (k + 1)(b - a)/n for k < n, ends done on b, and queries nothing |
| Sequencer.ParamValueQueueProcessor.constructor | external/paramtoolbox/source/paramvaluequeueprocessor.cpp:12-17 | the state is the flat ramp at init followed by initRamp(0) |
| Sequencer.ParamValueQueueProcessor.Tick | external/paramtoolbox/source/paramvaluequeueprocessor.cpp:20-31 | the new state is TickState of the old one, and the value returned is the ramp's new x |
| Sequencer.ParamValueQueueProcessor.GetValue | external/paramtoolbox/source/paramvaluequeueprocessor.cpp:34-37 | returns the ramp's value and changes nothing |
| Sequencer.ParamValueQueueProcessor.CallQueue | external/paramtoolbox/include/ha/ptb/paramvaluequeueprocessor.h:20-21 | logs the index; succeeds exactly when the source has a point there, and then returns it |
| Sequencer.ParamValueQueueProcessor.UpdateRamp | external/paramtoolbox/source/paramvaluequeueprocessor.cpp:40-44 | increments currSegment and initialises that segment |
| Sequencer.ParamValueQueueProcessor.InitRamp | external/paramtoolbox/source/paramvaluequeueprocessor.cpp:47-66 | the new state is InitRampState of the old one |
| SequencerCases.InvalidQueueCase | external/paramtoolbox/test/paramvaluequeueprocessor_test.cpp:24-39 | a source with no point: value 0.5, three ticks of 0.5, one query |
| SequencerCases.SinglePointCase | external/paramtoolbox/test/paramvaluequeueprocessor_test.cpp:42-67 | the single point 0.75: value 0.75 at once, four ticks of 0.75, queries 0 and 1 only |
| SequencerCases.OneRampCase | external/paramtoolbox/test/paramvaluequeueprocessor_test.cpp:70-96 | points (0, 0.6), (4, 1.0): ticks 0.7, 0.8, 0.9, 1.0 after two queries |
| SequencerCases.ChainFirstSegment | external/paramtoolbox/test/paramvaluequeueprocessor_test.cpp:116-121 | the first four ticks of the chained test rise to 1.0 with queries 0 and 1 |
| SequencerCases.ChainSecondSegment | external/paramtoolbox/test/paramvaluequeueprocessor_test.cpp:123-128 | the next five fall to 0.5, querying 1 and 2 |
| SequencerCases.ChainEnd | external/paramtoolbox/test/paramvaluequeueprocessor_test.cpp:130-134 | then the value stays 0.5, after the query of 2 and the failed query of 3, and the state never changes again |
| SequencerCases.TwoRampsCase | external/paramtoolbox/test/paramvaluequeueprocessor_test.cpp:98-135 | points (0, 0.6), (4, 1.0), (9, 0.5): the twelve tick values, exactly six queries, and no change afterwards |
| VstQueue.GetPoint | source/paramvaluequeueprocessor.cpp:57-59 | getPoint only succeeds for an index in range, with the point stored there |
| VstQueue.FullQueue | source/paramvaluequeueprocessor.cpp:57-64 | a host queue with every point of a breakpoint list, in order |
| VstSequencer.NextSegment | source/paramvaluequeueprocessor.cpp:37-41 | the next segment is currSegment + 1, clamped to the point count |
| VstSequencer.SecondIndex | source/paramvaluequeueprocessor.cpp:63 | the second lookup is index + 1, clamped to the last point |
| VstSequencer.InitRampState | source/paramvaluequeueprocessor.cpp:51-70 | a failed getPoint on either lookup keeps the ramp; at the last point the ramp is flat; otherwise the ramp between the two points over their offset distance; the lookups made are logged |
| VstSequencer.OutputsAt | source/paramvaluequeueprocessor.cpp:23-34 | the j-th value ticks return is the ramp value after j + 1 ticks |
| VstSequencer.InvalidQueueHolds | source/paramvaluequeueprocessor.cpp:14-26 | a null or empty queue: the constructor skips initRamp, and every tick returns init and changes nothing |
| VstSequencer.TickKeepsSegmentInRange | source/paramvaluequeueprocessor.cpp:37-48 | a tick never lowers currSegment and never takes it past the point count |
| VstSequencer.SegmentInRange | source/paramvaluequeueprocessor.cpp:37-48 | the same over any number of ticks |
| VstSequencer.IterateLast | source/paramvaluequeueprocessor.cpp:23-34 | the state after j + 1 ticks is one tick after the state after j ticks |
| VstSequencer.ExhaustedKeepsQuerying | source/paramvaluequeueprocessor.cpp:28-33 | after the last point a done ramp keeps its value, and every tick asks getPoint again for the index one past the last point |
| VstSequencer.ParamValueQueueProcessor.constructor | source/paramvaluequeueprocessor.cpp:14-20 | the state is the flat ramp at init, then initRamp(0) if the queue is valid |
| VstSequencer.ParamValueQueueProcessor.Tick | source/paramvaluequeueprocessor.cpp:23-34 | the new state is TickState of the old one, and the value returned is the ramp's new x |
| VstSequencer.ParamValueQueueProcessor.CallGetPoint | source/paramvaluequeueprocessor.cpp:57-64 | logs the index; succeeds exactly when getPoint does, and then returns that point |
| VstSequencer.ParamValueQueueProcessor.UpdateRamp | source/paramvaluequeueprocessor.cpp:44-48 | the new state is UpdateRampState of the old one |
| VstSequencer.ParamValueQueueProcessor.InitRamp | source/paramvaluequeueprocessor.cpp:51-70 | the new state is InitRampState of the old one |
| Equivalence.ConstructSim | source/paramvaluequeueprocessor.cpp:14-20 | the two constructors start in corresponding states over a full queue |
| Equivalence.TickSim | source/paramvaluequeueprocessor.cpp:23-34 | a tick of each keeps them in corresponding states |
| Equivalence.RunSim | source/paramvaluequeueprocessor.cpp:23-34 | from corresponding states both return the same values for any number of ticks |
| Equivalence.VstMatchesLibrary | source/paramvaluequeueprocessor.cpp:14-70 | over a queue with every point present, the older processor returns exactly what the library processor returns, tick for tick |
| Equivalence.VstTwoRampsCase | external/paramtoolbox/test/paramvaluequeueprocessor_test.cpp:98-135 | the older processor gives the chained test's twelve values too |
| GainAutomatorInline.LastQueueWithId | source/gainautomatorprocessor.cpp:215-229 | the result carries the id; it is none exactly when no entry matches; otherwise it is a matching entry with no match after it |
| GainAutomatorInline.FindGainQueue | source/gainautomatorprocessor.cpp:215-229 | the search loop yields the last matching queue, or none without a change list |
| GainAutomatorInline.BlockGainIsLastTick | source/gainautomatorprocessor.cpp:234-239 | the gain after a non-empty block is the value of the block's last tick |
| GainAutomatorInline.EmptyQueueKeepsGain | source/gainautomatorprocessor.cpp:143-152 | a gain queue with no points keeps the carried gain through any block |
| GainAutomatorInline.SeedForgotten | source/gainautomatorprocessor.cpp:87-93 | once the first two lookups succeed, the block's gain does not depend on the carried gain |
| GainAutomatorInline.GainAutomatorProcessor.constructor | source/gainautomatorprocessor.h:41 | the gain starts at 1 |
| GainAutomatorInline.GainAutomatorProcessor.Process | source/gainautomatorprocessor.cpp:211-242 | without a gain queue the gain is unchanged; otherwise it becomes the last of numSamples ticks of a processor seeded with the old gain, and stays unchanged when numSamples <= 0 |
| GainAutomator.QueueValue | source/gain_automator_processor.cpp:22-40 | no point for a null queue or an index at or past the point count; otherwise what getPoint gives |
| GainAutomator.GetQueueValue | source/gain_automator_processor.cpp:22-40 | true exactly when a point exists, and then it writes that point's offset and value; on every failure it leaves both outputs as they were |
| GainAutomator.FirstGap | source/gain_automator_processor.cpp:27-32 | the number of points present before the first missing one |
| GainAutomator.PresentPrefix | source/gain_automator_processor.cpp:110-114 | the points the adapter hands out, index by index, up to its first failure |
| GainAutomator.AdapterAgreesWithPrefix | source/gain_automator_processor.cpp:110-114 | on every index up to the first failing one, the adapter answers as the prefix does |
| GainAutomator.FullQueuePrefix | source/gain_automator_processor.cpp:22-40 | over a queue with every point present, the prefix is the whole queue |
| GainAutomator.FirstQueueWithId | source/gain_automator_processor.cpp:43-63 | the result carries the id; it is none exactly when no entry matches; otherwise it is a matching entry with no match before it |
| GainAutomator.FindParamValueQueue | source/gain_automator_processor.cpp:43-63 | none for a null change list; otherwise the first matching queue, the loop stopping there |
| GainAutomator.FirstIsLastWhenUnique | source/gain_automator_processor.cpp:50-59 | with at most one matching queue, the first-match and last-match searches agree |
| GainAutomator.FirstDiffersFromLast | source/gain_automator_processor.cpp:50-59 | with two different matching queues, the two searches pick different ones |
| GainAutomator.GainAtIsOutputs | source/gain_automator_processor.cpp:121-135 | the gain held before sample i > 0 is the value of the i-th advance |
| GainAutomator.GainAutomatorProcessor.Process | source/gain_automator_processor.cpp:107-138 | without buses nothing is written and the gain is unchanged; otherwise sample i is the input times the gain held before the i-th advance, where sample 0 uses the carried gain, and the gain ends at the value of the last advance |
| GainAutomator.GainAutomatorProcessor.ApplyGain | source/gain_automator_processor.cpp:121-135 | the sample loop: scale by the gain held, then advance |

## Left out

- Float rounding: values are real numbers. IEEE behaviour of `fabs`, of
  the division in `calcDelta`, and of the double-to-float narrowing in
  `get_queue_value` is not modelled. The tests compare floats
  approximately; the lemmas state the exact real values.
- Ramp.Dezip: the overshoot and distance guarantees are stated only for a
  non-negative delta. A segment whose second offset precedes its first
  gives a negative delta, whose behaviour the code leaves unspecified.
- Ramp.Step: "never overshoots" is stated only for a non-negative delta,
  for the same reason.
- Ramp.StepsStayBetween: requires a non-negative delta, for the same reason.
- Ramp.DoneStaysDone: requires a non-negative delta. With a negative delta a
  done ramp moves away from its target.
- 32-bit integers: offsets, indices, durations and sample counts are
  unbounded integers. The `int32` overflow of `samples--` at the smallest
  value and of `currSegment++` is not modelled.
- Audio buses and channels: the newer `process` is modelled on one channel
  given as a sequence, with the block length being its length. The
  null-bus check becomes the flag `hasBuses`. The per-channel null-pointer
  checks and the second channel are not modelled.
- The plugin lifecycle (`initialize`, `terminate`, `setActive`,
  `setupProcessing`, `canProcessSampleSize`, `setState`, `getState`) is
  SDK glue with no logic of its own here.
- The controllers and the class ids are outside the engine.
- `ptb::ramp_processor` is declared in a header that is not part of this
  model. It is assumed to be the library processor (see above).
- The gain parameter id header is not part of this model, so the id is a
  parameter.
- The initial gain of the newer
  processor comes from gain_automator_processor.h, which is not part of
  this model, so no constructor is given.
- The library processor's callback can be any function with state. Here it
  is a fixed list of points, so a callback whose answers change over time
  is not modelled.
- ParamRamp::getValue is declared in paramramp.h, which is not part of
  this model. It is taken from the inline copy, where it returns `x`.
- The processors hold their ramp by value and assign a new one. Here the
  ramp is an object that `initRamp` replaces with a fresh one; no aliasing
  arises.
- The exact `getPoint` count of the older processor on the chained test is
  not stated. ExhaustedKeepsQuerying gives the general rule: one more call
  per tick after the last point.

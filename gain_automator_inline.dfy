// GainAutomatorProcessor::process of source/gainautomatorprocessor.cpp: pick
// the gain parameter's queue out of the block's parameter changes, then run a
// fresh VST-queue ParamValueQueueProcessor seeded with the gain carried over
// from the previous block for numSamples ticks. No audio is written.
// The parameter id kParamGainId is defined in a header that is not part of
// this model; it is the parameter gainId here.
module GainAutomatorInline {
  import opened Breakpoints
  import opened VstQueue
  import V = VstSequencer

  /** The last non-null queue of qs whose id is id, or None if there is none. */
  function LastQueueWithId(qs: ParameterChanges, id: int): (r: Option<ParamValueQueue>)
    ensures r.Some? ==> HasId(r, id)
    ensures r.None? <==> forall i :: 0 <= i < |qs| ==> !HasId(qs[i], id)
    ensures r.Some? ==>
              exists i :: 0 <= i < |qs| && qs[i] == r && forall j :: i < j < |qs| ==> !HasId(qs[j], id)
    decreases |qs|
  {
    if |qs| == 0 then None
    else if HasId(qs[|qs| - 1], id) then qs[|qs| - 1]
    else LastQueueWithId(qs[..|qs| - 1], id)
  }

  /** The gain queue process ends up with: none without a change list. */
  function GainQueue(changes: Option<ParameterChanges>, gainId: int): Option<ParamValueQueue>
  {
    if changes.None? then None else LastQueueWithId(changes.value, gainId)
  }

  /** The gain after a block of numSamples samples that started at gain with
      queue q: unchanged without a queue or without samples, and otherwise the
      value of the last tick. */
  function BlockGain(q: Option<ParamValueQueue>, gain: real, numSamples: int): real
  {
    if q.None? || numSamples <= 0 then gain
    else V.Iterate(q, V.Construct(q, gain), numSamples).ramp.x
  }

  /** The search loop of process: it scans every entry and keeps overwriting,
      so the last match wins. */
  method FindGainQueue(changes: Option<ParameterChanges>, gainId: int) returns (gainQueue: Option<ParamValueQueue>)
    ensures gainQueue == GainQueue(changes, gainId)
  {
    gainQueue := None;
    if changes.Some? {
      var qs := changes.value;
      var index := 0;
      while index < |qs|
        invariant 0 <= index <= |qs|
        invariant gainQueue == LastQueueWithId(qs[..index], gainId)
      {
        assert qs[..index + 1][..index] == qs[..index];
        var paramQueue := qs[index];
        if paramQueue.Some? {
          if paramQueue.value.paramId == gainId {
            gainQueue := paramQueue;
          }
        }
        index := index + 1;
      }
      assert qs[..|qs|] == qs;
    }
  }

  /** The block gain is the last value the block's ticks return. */
  lemma BlockGainIsLastTick(q: Option<ParamValueQueue>, gain: real, numSamples: int)
    requires q.Some? && numSamples > 0
    ensures BlockGain(q, gain, numSamples) == V.Outputs(q, V.Construct(q, gain), numSamples)[numSamples - 1]
  {
    V.OutputsAt(q, V.Construct(q, gain), numSamples, numSamples - 1);
  }

  /** An empty gain queue keeps the carried gain through any block. */
  lemma EmptyQueueKeepsGain(q: Option<ParamValueQueue>, gain: real, numSamples: int)
    requires q.Some? && GetPointCount(q.value) == 0
    ensures BlockGain(q, gain, numSamples) == gain
  {
    if numSamples > 0 {
      V.InvalidQueueHolds(q, gain, numSamples);
    }
  }

  /** The carried gain only matters until the first segment is read: when the
      first two lookups succeed, the block's gain does not depend on it. */
  lemma SeedForgotten(q: Option<ParamValueQueue>, g1: real, g2: real, numSamples: int)
    requires q.Some? && V.IsValidQueue(q) && numSamples > 0
    requires GetPoint(q.value, 0).Some? && GetPoint(q.value, V.SecondIndex(q.value, 0)).Some?
    ensures BlockGain(q, g1, numSamples) == BlockGain(q, g2, numSamples)
  {
    assert V.Construct(q, g1).ramp == V.Construct(q, g2).ramp;
    assert V.Construct(q, g1) == V.Construct(q, g2);
  }

  class GainAutomatorProcessor {
    var gainValue: real

    /** The gain starts at unity. */
    constructor ()
      ensures gainValue == 1.0
    {
      gainValue := 1.0;
    }

    /** process: find the gain queue; without one, return with the gain as it
        was; otherwise tick a processor seeded with the gain numSamples times,
        keeping each value returned. */
    method Process(changes: Option<ParameterChanges>, gainId: int, numSamples: int)
      modifies this
      ensures gainValue == BlockGain(GainQueue(changes, gainId), old(gainValue), numSamples)
    {
      var gainQueue := FindGainQueue(changes, gainId);
      if gainQueue.None? {
        return;
      }
      ghost var start := V.Construct(gainQueue, gainValue);
      var gainProc := new V.ParamValueQueueProcessor(gainQueue, gainValue);
      var samples := numSamples;
      ghost var done: nat := 0;
      while samples > 0
        invariant fresh(gainProc) && fresh(gainProc.ramp)
        invariant gainProc.queue == gainQueue
        invariant samples > 0 ==> done == numSamples - samples
        invariant samples <= 0 ==> done == if numSamples <= 0 then 0 else numSamples
        invariant gainProc.State() == V.Iterate(gainQueue, start, done)
        invariant gainValue == if done == 0 then old(gainValue) else gainProc.ramp.x
      {
        samples := samples - 1;
        V.IterateLast(gainQueue, start, done);
        gainValue := gainProc.Tick();
        done := done + 1;
      }
    }
  }
}

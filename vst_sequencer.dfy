// The older ParamValueQueueProcessor that reads a Vst::IParamValueQueue
// directly (source/paramvaluequeueprocessor.cpp; the class written inline in
// source/gainautomatorprocessor.cpp is the same code). It has no moreRamps
// flag: it checks the queue on every tick, clamps the segment index to the
// point count and the second lookup to the last point.
module VstSequencer {
  import opened Breakpoints
  import opened Ramp
  import opened VstQueue

  /** isValidQueue: a non-null queue with at least one point. */
  predicate IsValidQueue(queue: Option<ParamValueQueue>)
  {
    if queue.None? then false
    else if GetPointCount(queue.value) == 0 then false
    else true
  }

  /** nextSegment: std::min(getPointCount(), currSegment + 1). */
  function NextSegment(q: ParamValueQueue, currSegment: int): (r: int)
    ensures r <= GetPointCount(q) && r <= currSegment + 1
    ensures r == GetPointCount(q) || r == currSegment + 1
  {
    var next := currSegment + 1;
    if next < GetPointCount(q) then next else GetPointCount(q)
  }

  /** The index of initRamp's second lookup: index + 1, clamped to the last point. */
  function SecondIndex(q: ParamValueQueue, index: int): (r: int)
    ensures r <= index + 1 && r <= GetPointCount(q) - 1
    ensures r == index + 1 || r == GetPointCount(q) - 1
  {
    var next := index + 1;
    if GetPointCount(q) - 1 < next then GetPointCount(q) - 1 else next
  }

  /** The processor's fields, plus a log of the indices passed to getPoint. */
  datatype VstState = VstState(ramp: RampState, currSegment: int, pointLog: seq<int>)

  /** initRamp(index): either failed getPoint returns early and leaves the ramp as
      it was; two points give the ramp between them over their offset distance.
      At the last point the second lookup re-reads that point, so the ramp is flat. */
  function InitRampState(q: ParamValueQueue, s: VstState, index: int): (t: VstState)
    ensures t.currSegment == s.currSegment
    ensures GetPoint(q, index).None? ==>
              t.ramp == s.ramp && t.pointLog == s.pointLog + [index]
    ensures GetPoint(q, index).Some? ==>
              t.pointLog == s.pointLog + [index, SecondIndex(q, index)]
    ensures GetPoint(q, index).Some? && GetPoint(q, SecondIndex(q, index)).None? ==>
              t.ramp == s.ramp
    ensures GetPoint(q, index).Some? && index == GetPointCount(q) - 1 ==>
              var v := GetPoint(q, index).value.value;
              t.ramp == MakeRamp(v, v, 0)
    ensures GetPoint(q, index).Some? && index + 1 < GetPointCount(q) && GetPoint(q, index + 1).Some? ==>
              var p0 := GetPoint(q, index).value;
              var p1 := GetPoint(q, index + 1).value;
              t.ramp == MakeRamp(p0.value, p1.value, p1.offset - p0.offset)
  {
    var first := GetPoint(q, index);
    if first.None? then
      s.(pointLog := s.pointLog + [index])
    else
      var next := SecondIndex(q, index);
      var second := GetPoint(q, next);
      var log := s.pointLog + [index, next];
      if second.None? then
        s.(pointLog := log)
      else
        var duration := second.value.offset - first.value.offset;
        s.(ramp := MakeRamp(first.value.value, second.value.value, duration), pointLog := log)
  }

  /** The constructor: the flat ramp at init, then initRamp(0) if the queue is valid. */
  function Construct(queue: Option<ParamValueQueue>, init: real): VstState
  {
    var s := VstState(MakeRamp(init, init, 0), 0, []);
    if IsValidQueue(queue) then InitRampState(queue.value, s, 0) else s
  }

  /** updateRamp: clamp-advance the segment and initialise it. */
  function UpdateRampState(q: ParamValueQueue, s: VstState): VstState
  {
    var next := NextSegment(q, s.currSegment);
    InitRampState(q, s.(currSegment := next), next)
  }

  /** tick: an invalid queue leaves everything as it is; otherwise re-initialise
      when the ramp is done, then tick the ramp. The value returned is ramp.x. */
  function TickState(queue: Option<ParamValueQueue>, s: VstState): VstState
  {
    if !IsValidQueue(queue) then s
    else
      var u := if Done(s.ramp) then UpdateRampState(queue.value, s) else s;
      u.(ramp := Step(u.ramp))
  }

  /** The state after k ticks. */
  function Iterate(queue: Option<ParamValueQueue>, s: VstState, k: nat): VstState
    decreases k
  {
    if k == 0 then s else Iterate(queue, TickState(queue, s), k - 1)
  }

  /** The values returned by k successive ticks: the j-th is the value after j + 1 ticks. */
  function Outputs(queue: Option<ParamValueQueue>, s: VstState, k: nat): (r: seq<real>)
    ensures |r| == k
    decreases k
  {
    if k == 0 then [] else [TickState(queue, s).ramp.x] + Outputs(queue, TickState(queue, s), k - 1)
  }

  /** The j-th value returned is the ramp value after j + 1 ticks. */
  lemma {:induction false} OutputsAt(queue: Option<ParamValueQueue>, s: VstState, k: nat, j: nat)
    requires j < k
    ensures Outputs(queue, s, k)[j] == Iterate(queue, s, j + 1).ramp.x
    decreases j
  {
    if j > 0 {
      OutputsAt(queue, TickState(queue, s), k - 1, j - 1);
    }
  }

  /** A null or empty queue: the constructor skips initRamp, and every tick
      returns init and changes nothing. */
  lemma {:induction false} InvalidQueueHolds(queue: Option<ParamValueQueue>, init: real, k: nat)
    requires !IsValidQueue(queue)
    ensures Construct(queue, init) == VstState(MakeRamp(init, init, 0), 0, [])
    ensures Iterate(queue, Construct(queue, init), k) == Construct(queue, init)
    ensures Outputs(queue, Construct(queue, init), k) == seq(k, _ => init)
    decreases k
  {
    if k > 0 {
      InvalidQueueHolds(queue, init, k - 1);
      var s := Construct(queue, init);
      assert Iterate(queue, s, k) == Iterate(queue, s, k - 1);
    }
  }

  /** currSegment starts at 0, never decreases, and never passes the point count. */
  lemma TickKeepsSegmentInRange(queue: Option<ParamValueQueue>, s: VstState)
    requires IsValidQueue(queue) && 0 <= s.currSegment <= GetPointCount(queue.value)
    ensures var t := TickState(queue, s);
            s.currSegment <= t.currSegment <= GetPointCount(queue.value)
  {
  }

  lemma {:induction false} SegmentInRange(queue: Option<ParamValueQueue>, s: VstState, k: nat)
    requires IsValidQueue(queue) && 0 <= s.currSegment <= GetPointCount(queue.value)
    ensures s.currSegment <= Iterate(queue, s, k).currSegment <= GetPointCount(queue.value)
    decreases k
  {
    if k > 0 {
      TickKeepsSegmentInRange(queue, s);
      SegmentInRange(queue, TickState(queue, s), k - 1);
    }
  }

  /** The state after j + 1 ticks is one tick after the state after j ticks. */
  lemma {:induction false} IterateLast(queue: Option<ParamValueQueue>, s: VstState, j: nat)
    ensures Iterate(queue, s, j + 1) == TickState(queue, Iterate(queue, s, j))
    decreases j
  {
    if j > 0 {
      IterateLast(queue, TickState(queue, s), j - 1);
    }
  }

  /** After the last point, with a done ramp the value stays put, but unlike the
      library processor every tick asks getPoint again, for the index one past
      the last point, and fails. */
  lemma {:induction false} ExhaustedKeepsQuerying(queue: Option<ParamValueQueue>, s: VstState, k: nat)
    requires IsValidQueue(queue)
    requires GetPointCount(queue.value) - 1 <= s.currSegment <= GetPointCount(queue.value)
    requires Done(s.ramp) && s.ramp.delta >= 0.0
    ensures Iterate(queue, s, k).ramp == s.ramp
    ensures Outputs(queue, s, k) == seq(k, _ => s.ramp.x)
    ensures Iterate(queue, s, k).pointLog == s.pointLog + seq(k, _ => GetPointCount(queue.value))
    decreases k
  {
    if k > 0 {
      var n := GetPointCount(queue.value);
      var t := TickState(queue, s);
      assert t == s.(currSegment := n, pointLog := s.pointLog + [n]);
      ExhaustedKeepsQuerying(queue, t, k - 1);
      assert s.pointLog + [n] + seq(k - 1, _ => n) == s.pointLog + seq(k, _ => n);
      assert Outputs(queue, s, k) == [s.ramp.x] + Outputs(queue, t, k - 1);
    }
  }

  /** ParamValueQueueProcessor over a Vst::IParamValueQueue pointer. */
  class ParamValueQueueProcessor {
    const queue: Option<ParamValueQueue>
    var ramp: ParamRamp
    var currSegment: int
    ghost var pointLog: seq<int>

    ghost function State(): VstState
      reads this, ramp
    {
      VstState(ramp.State(), currSegment, pointLog)
    }

    constructor (queue: Option<ParamValueQueue>, init: real)
      ensures this.queue == queue && fresh(ramp)
      ensures State() == Construct(queue, init)
    {
      this.queue := queue;
      ramp := new ParamRamp(init, init, 0);
      currSegment := 0;
      pointLog := [];
      new;
      if IsValidQueue(queue) {
        InitRamp(0);
      }
    }

    method Tick() returns (v: real)
      modifies this, ramp
      ensures ramp == old(ramp) || fresh(ramp)
      ensures State() == TickState(queue, old(State()))
      ensures v == ramp.x
    {
      if !IsValidQueue(queue) {
        v := ramp.GetValue();
        return;
      }
      if ramp.IsDone() {
        UpdateRamp();
      }
      v := ramp.Tick();
    }

    /** queue->getPoint(index, offset, value) == kResultOk. */
    method CallGetPoint(index: int) returns (ok: bool, offset: int, value: real)
      requires queue.Some?
      modifies this`pointLog
      ensures pointLog == old(pointLog) + [index]
      ensures ok == GetPoint(queue.value, index).Some?
      ensures ok ==> GetPoint(queue.value, index).value == Breakpoint(offset, value)
    {
      pointLog := pointLog + [index];
      var p := GetPoint(queue.value, index);
      ok, offset, value := false, 0, 0.0;
      if p.Some? {
        ok, offset, value := true, p.value.offset, p.value.value;
      }
    }

    method UpdateRamp()
      requires queue.Some?
      modifies this
      ensures ramp == old(ramp) || fresh(ramp)
      ensures State() == UpdateRampState(queue.value, old(State()))
    {
      currSegment := NextSegment(queue.value, currSegment);
      InitRamp(currSegment);
    }

    method InitRamp(index: int)
      requires queue.Some?
      modifies this
      ensures ramp == old(ramp) || fresh(ramp)
      ensures State() == InitRampState(queue.value, old(State()), index)
    {
      var ok0, offset0, val0 := CallGetPoint(index);
      if !ok0 {
        return;
      }
      var next := SecondIndex(queue.value, index);
      var ok1, offset1, val1 := CallGetPoint(next);
      if !ok1 {
        return;
      }
      var duration := offset1 - offset0;
      ramp := new ParamRamp(val0, val1, duration);
    }
  }
}

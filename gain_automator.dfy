// GainAutomatorProcessor::process of source/gain_automator_processor.cpp: the
// gain queue is the FIRST matching queue, read through the bounds-checked
// adapter get_queue_value, and every sample is scaled by the gain held before
// that sample's advance().
//
// process drives a ptb::ramp_processor, declared in a header that is not part
// of this model. Here it is taken, as a stated assumption, to be the library
// ParamValueQueueProcessor of module Sequencer (advance() being its tick()),
// run over the points get_queue_value hands out: the lemmas
// AdapterAgreesWithPrefix and Sequencer.QueriedInRange show that the prefix of
// present points answers every query that processor makes exactly as the
// adapter does.
module GainAutomator {
  import opened Breakpoints
  import opened VstQueue
  import L = Sequencer
  import GainAutomatorInline

  /** get_queue_value as a value: no point for a null queue, for an index at or
      past the point count, or where getPoint fails. */
  function QueueValue(queue: Option<ParamValueQueue>, index: int): (r: Option<Breakpoint>)
    ensures queue.None? ==> r.None?
    ensures queue.Some? && index >= GetPointCount(queue.value) ==> r.None?
    ensures queue.Some? && index < GetPointCount(queue.value) ==> r == GetPoint(queue.value, index)
  {
    if queue.None? then None
    else if index < GetPointCount(queue.value) then GetPoint(queue.value, index)
    else None
  }

  /** get_queue_value: on success it writes the point into offset and value and
      returns true; on every failure it returns false and leaves both as they
      were. */
  method GetQueueValue(queue: Option<ParamValueQueue>, index: int, offsetIn: int, valueIn: real)
    returns (ok: bool, offset: int, value: real)
    ensures ok <==> QueueValue(queue, index).Some?
    ensures ok ==> QueueValue(queue, index) == Some(Breakpoint(offset, value))
    ensures !ok ==> offset == offsetIn && value == valueIn
  {
    offset, value := offsetIn, valueIn;
    if queue.None? {
      return false, offset, value;
    }
    if index < GetPointCount(queue.value) {
      var tmpValue := 0.0;
      var tmpOffset := 0;
      var p := GetPoint(queue.value, index);
      if p.None? {
        return false, offset, value;
      }
      tmpOffset, tmpValue := p.value.offset, p.value.value;
      offset := tmpOffset;
      value := tmpValue;
      return true, offset, value;
    }
    return false, offset, value;
  }

  /** The number of points before the first missing one. */
  function FirstGap(ps: seq<Option<Breakpoint>>): (n: nat)
    ensures n <= |ps|
    ensures forall i :: 0 <= i < n ==> ps[i].Some?
    ensures n < |ps| ==> ps[n].None?
  {
    if |ps| == 0 || ps[0].None? then 0 else 1 + FirstGap(ps[1..])
  }

  /** The points the adapter hands out before its first failure. */
  function PresentPrefix(queue: Option<ParamValueQueue>): (r: seq<Breakpoint>)
    ensures queue.Some? ==> |r| <= GetPointCount(queue.value)
    ensures forall i :: 0 <= i < |r| ==> QueueValue(queue, i) == Some(r[i])
    ensures QueueValue(queue, |r|).None?
  {
    if queue.None? then []
    else
      var ps := queue.value.points;
      var n := FirstGap(ps);
      seq(n, i requires 0 <= i < n => ps[i].value)
  }

  /** The adapter and the prefix agree on every index from 0 up to the first
      failing one, which are all the indices the library processor asks for
      (Sequencer.QueriedInRange). */
  lemma AdapterAgreesWithPrefix(queue: Option<ParamValueQueue>, i: int)
    requires 0 <= i <= |PresentPrefix(queue)|
    ensures QueueValue(queue, i) == L.Query(PresentPrefix(queue), i)
  {
  }

  /** Over a queue with every point present, the prefix is the whole queue. */
  lemma FullQueuePrefix(id: int, src: seq<Breakpoint>)
    ensures PresentPrefix(Some(FullQueue(id, src))) == src
  {
    var q := FullQueue(id, src);
    var r := PresentPrefix(Some(q));
    assert |r| == |src|;
    forall i | 0 <= i < |src|
      ensures r[i] == src[i]
    {
      assert QueueValue(Some(q), i) == Some(src[i]);
    }
  }

  /** The first non-null queue of qs whose id is id, or None if there is none. */
  function FirstQueueWithId(qs: ParameterChanges, id: int): (r: Option<ParamValueQueue>)
    ensures r.Some? ==> HasId(r, id)
    ensures r.None? <==> forall i :: 0 <= i < |qs| ==> !HasId(qs[i], id)
    ensures r.Some? ==>
              exists i :: 0 <= i < |qs| && qs[i] == r && forall j :: 0 <= j < i ==> !HasId(qs[j], id)
  {
    if |qs| == 0 then None
    else if HasId(qs[0], id) then qs[0]
    else FirstQueueWithId(qs[1..], id)
  }

  /** findParamValueQueue: null for a null change list; otherwise it scans
      the entries and stops at the first match. */
  method FindParamValueQueue(id: int, paramChanges: Option<ParameterChanges>)
    returns (queue: Option<ParamValueQueue>)
    ensures paramChanges.None? ==> queue.None?
    ensures paramChanges.Some? ==> queue == FirstQueueWithId(paramChanges.value, id)
  {
    queue := None;
    if paramChanges.None? {
      return queue;
    }
    var qs := paramChanges.value;
    var index := 0;
    while index < |qs|
      invariant 0 <= index <= |qs|
      invariant queue.None?
      invariant FirstQueueWithId(qs, id) == FirstQueueWithId(qs[index..], id)
    {
      var paramQueue := qs[index];
      if paramQueue.Some? {
        if paramQueue.value.paramId == id {
          queue := paramQueue;
          break;
        }
      }
      assert qs[index..][1..] == qs[index + 1..];
      index := index + 1;
    }
  }

  /** With at most one matching queue, the first-match search here and the
      last-match search of the older processor pick the same queue. */
  lemma FirstIsLastWhenUnique(qs: ParameterChanges, id: int)
    requires forall i, j :: 0 <= i < |qs| && 0 <= j < |qs| && HasId(qs[i], id) && HasId(qs[j], id) ==> i == j
    ensures FirstQueueWithId(qs, id) == GainAutomatorInline.LastQueueWithId(qs, id)
  {
    var f := FirstQueueWithId(qs, id);
    var l := GainAutomatorInline.LastQueueWithId(qs, id);
    if f.Some? {
      var i :| 0 <= i < |qs| && qs[i] == f && forall j :: 0 <= j < i ==> !HasId(qs[j], id);
      var k :| 0 <= k < |qs| && qs[k] == l && forall j :: k < j < |qs| ==> !HasId(qs[j], id);
      assert i == k;
    }
  }

  /** With two different queues for the gain, the two processors disagree. */
  lemma FirstDiffersFromLast(id: int, p: ParamValueQueue, r: ParamValueQueue)
    requires p.paramId == id && r.paramId == id && p != r
    ensures FirstQueueWithId([Some(p), Some(r)], id) == Some(p)
    ensures GainAutomatorInline.LastQueueWithId([Some(p), Some(r)], id) == Some(r)
  {
    assert [Some(p), Some(r)][..1] == [Some(p)];
  }

  /** The gain held before sample i of a block that starts at gain over source
      src: the carried gain for sample 0, then the value of the i-th advance. */
  function GainAt(src: L.Source, gain: real, i: nat): real
  {
    if i == 0 then gain else L.Iterate(src, L.Construct(src, gain), i).ramp.x
  }

  /** Sample i > 0 is scaled by the value the i-th advance returned, and the
      block's final gain, GainAt of the block length, is the last value. */
  lemma GainAtIsOutputs(src: L.Source, gain: real, n: nat, i: nat)
    requires 0 < i <= n
    ensures GainAt(src, gain, i) == L.Outputs(src, L.Construct(src, gain), n)[i - 1]
  {
    L.OutputsAt(src, L.Construct(src, gain), n, i - 1);
  }

  /** The processor of source/gain_automator_processor.cpp with its one field.
      Its initial gain comes from gain_automator_processor.h, which is not part
      of this model, so no constructor is given. */
  class GainAutomatorProcessor {
    var gainValue: real

    /** process on one channel: input is the input channel, and hasBuses says
        whether the host passed both input and output buses. Returns the
        output channel, or [] when nothing is written. */
    method Process(paramChanges: Option<ParameterChanges>, gainId: int, input: seq<real>, hasBuses: bool)
      returns (output: seq<real>)
      modifies this
      ensures !hasBuses ==> output == [] && gainValue == old(gainValue)
      ensures hasBuses ==>
                var src := PresentPrefix(if paramChanges.None? then None
                                         else FirstQueueWithId(paramChanges.value, gainId));
                && |output| == |input|
                && (forall i :: 0 <= i < |input| ==> output[i] == input[i] * GainAt(src, old(gainValue), i))
                && gainValue == GainAt(src, old(gainValue), |input|)
    {
      var queue := FindParamValueQueue(gainId, paramChanges);
      var src := PresentPrefix(queue);
      var gainProc := new L.ParamValueQueueProcessor(src, gainValue);
      if !hasBuses {
        return [];
      }
      output := ApplyGain(gainProc, input, src, gainValue);
    }

    /** The sample loop: scale sample i by the gain held, then advance. */
    method ApplyGain(gainProc: L.ParamValueQueueProcessor, input: seq<real>, ghost src: L.Source, ghost gain0: real)
      returns (output: seq<real>)
      requires gainProc.queue == src && gainProc.State() == L.Construct(src, gain0) && gainValue == gain0
      modifies this, gainProc, gainProc.ramp
      ensures |output| == |input|
      ensures forall i :: 0 <= i < |input| ==> output[i] == input[i] * GainAt(src, gain0, i)
      ensures gainValue == GainAt(src, gain0, |input|)
    {
      ghost var start := gainProc.State();
      output := [];
      var i := 0;
      while i < |input|
        invariant 0 <= i <= |input|
        invariant gainProc.ramp == old(gainProc.ramp) || fresh(gainProc.ramp)
        invariant gainProc.State() == L.Iterate(src, start, i)
        invariant gainValue == GainAt(src, gain0, i)
        invariant |output| == i
        invariant forall j :: 0 <= j < i ==> output[j] == input[j] * GainAt(src, gain0, j)
      {
        output := output + [input[i] * gainValue];
        L.IterateAdd(src, start, i, 1);
        gainValue := gainProc.Tick();
        i := i + 1;
      }
    }
  }
}

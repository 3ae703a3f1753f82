// The library's ParamValueQueueProcessor (external/paramtoolbox): it owns one
// ramp and walks a breakpoint source segment by segment. The source is the
// callback queue(index, offset, value) -> bool; here it is the sequence of
// points it answers, so a query at index i succeeds exactly when 0 <= i < |src|.
// The spec functions below describe the processor state as a value; the class
// at the end is the processor itself, proved against them.
module Sequencer {
  import opened Breakpoints
  import opened Ramp

  type Source = seq<Breakpoint>

  /** One call of the callback: the point at index, or a failure. */
  function Query(src: Source, index: int): (r: Option<Breakpoint>)
    ensures r.Some? <==> 0 <= index < |src|
    ensures r.Some? ==> r.value == src[index]
  {
    if 0 <= index < |src| then Some(src[index]) else None
  }

  /** The processor's fields, plus the log of the indices passed to the callback
      (the number of calls is the length of the log). */
  datatype ProcState = ProcState(ramp: RampState, currSegment: int, moreRamps: bool, queried: seq<int>)

  /** The state before the constructor body runs: the ramp {init, init, 0},
      currSegment 0 and moreRamps true. */
  function Initial(init: real): (s: ProcState)
    ensures s.currSegment == 0 && s.moreRamps && s.queried == []
    ensures s.ramp.x == init && Done(s.ramp) && s.ramp.delta == 0.0
  {
    ProcState(MakeRamp(init, init, 0), 0, true, [])
  }

  /** initRamp(index): query index, then index + 1. A first failure leaves the
      ramp as it was; a second failure holds the first value flat; two points
      give the ramp between them over their offset distance. moreRamps records
      whether both queries succeeded. */
  function InitRampState(src: Source, s: ProcState, index: int): (t: ProcState)
    ensures t.currSegment == s.currSegment
    ensures t.moreRamps <==> 0 <= index && index + 1 < |src|
    ensures t.queried == s.queried + (if 0 <= index < |src| then [index, index + 1] else [index])
    ensures !(0 <= index < |src|) ==> t.ramp == s.ramp
    ensures 0 <= index && index + 1 == |src| ==>
              t.ramp == MakeRamp(src[index].value, src[index].value, 0)
    ensures 0 <= index && index + 1 < |src| ==>
              t.ramp == MakeRamp(src[index].value, src[index + 1].value,
                                 src[index + 1].offset - src[index].offset)
  {
    var first := Query(src, index);
    var log := s.queried + [index];
    if first.None? then
      s.(moreRamps := false, queried := log)
    else
      var second := Query(src, index + 1);
      if second.None? then
        s.(ramp := MakeRamp(first.value.value, first.value.value, 0), moreRamps := false,
           queried := log + [index + 1])
      else
        var duration := second.value.offset - first.value.offset;
        s.(ramp := MakeRamp(first.value.value, second.value.value, duration), moreRamps := true,
           queried := log + [index + 1])
  }

  /** The constructor: the flat ramp at init, then initRamp(0). */
  function Construct(src: Source, init: real): ProcState
  {
    InitRampState(src, Initial(init), 0)
  }

  /** updateRamp: move to the next segment and initialise it. */
  function UpdateRampState(src: Source, s: ProcState): ProcState
  {
    InitRampState(src, s.(currSegment := s.currSegment + 1), s.currSegment + 1)
  }

  /** tick: frozen once moreRamps is false; otherwise re-initialise when the ramp
      is done, then tick the ramp. The value tick returns is the new ramp.x. */
  function TickState(src: Source, s: ProcState): ProcState
  {
    if !s.moreRamps then s
    else
      var u := if Done(s.ramp) then UpdateRampState(src, s) else s;
      u.(ramp := Step(u.ramp))
  }

  /** The state after k ticks. */
  function Iterate(src: Source, s: ProcState, k: nat): ProcState
    decreases k
  {
    if k == 0 then s else Iterate(src, TickState(src, s), k - 1)
  }

  /** The values returned by k successive ticks: the j-th is the value after j + 1 ticks. */
  function Outputs(src: Source, s: ProcState, k: nat): (r: seq<real>)
    ensures |r| == k
    decreases k
  {
    if k == 0 then [] else [TickState(src, s).ramp.x] + Outputs(src, TickState(src, s), k - 1)
  }

  /** The j-th value returned is the ramp value after j + 1 ticks. */
  lemma {:induction false} OutputsAt(src: Source, s: ProcState, k: nat, j: nat)
    requires j < k
    ensures Outputs(src, s, k)[j] == Iterate(src, s, j + 1).ramp.x
    decreases j
  {
    if j > 0 {
      OutputsAt(src, TickState(src, s), k - 1, j - 1);
    }
  }

  /** Ticking a + b times is ticking a times, then b times. */
  lemma {:induction false} IterateAdd(src: Source, s: ProcState, a: nat, b: nat)
    ensures Iterate(src, s, a + b) == Iterate(src, Iterate(src, s, a), b)
    decreases a
  {
    if a > 0 {
      IterateAdd(src, TickState(src, s), a - 1, b);
    }
  }

  /** The values of a + b ticks are those of the first a, then those of the next b. */
  lemma {:induction false} OutputsSplit(src: Source, s: ProcState, a: nat, b: nat)
    ensures Outputs(src, s, a + b) == Outputs(src, s, a) + Outputs(src, Iterate(src, s, a), b)
    decreases a
  {
    if a > 0 {
      var t := TickState(src, s);
      OutputsSplit(src, t, a - 1, b);
      assert Outputs(src, s, a + b) == [t.ramp.x] + Outputs(src, t, a - 1 + b);
      assert Outputs(src, s, a) == [t.ramp.x] + Outputs(src, t, a - 1);
    }
  }

  /** Indices the callback has been asked for when the current segment is j:
      0, 1, 1, 2, ..., j, j + 1, where the final j + 1 is missing when the query
      at j itself failed. */
  function Trace(j: nat, firstOk: bool): (r: seq<int>)
  {
    Pairs(j) + [j] + (if firstOk then [j + 1] else [])
  }

  function Pairs(j: nat): (r: seq<int>)
    ensures |r| == 2 * j
  {
    if j == 0 then [] else Pairs(j - 1) + [j - 1, j]
  }

  /** What holds in every state a processor can reach. */
  ghost predicate Reachable(src: Source, s: ProcState)
  {
    && 0 <= s.currSegment
    && (s.currSegment < |src| || s.currSegment == 0)
    && (s.moreRamps <==> s.currSegment + 1 < |src|)
    && s.queried == Trace(s.currSegment, s.currSegment < |src|)
  }

  /** The constructor establishes the invariant. */
  lemma ConstructReachable(src: Source, init: real)
    ensures Reachable(src, Construct(src, init))
    ensures Construct(src, init).currSegment == 0
  {
  }

  /** tick preserves it: the callback is asked for contiguous indices, each new
      segment i for i then i + 1, and nothing once a query has failed. */
  lemma TickReachable(src: Source, s: ProcState)
    requires Reachable(src, s)
    ensures Reachable(src, TickState(src, s))
  {
    var t := TickState(src, s);
    if s.moreRamps && Done(s.ramp) {
      var j := s.currSegment;
      assert t.currSegment == j + 1;
      assert t.queried == Pairs(j) + [j] + [j + 1] + [j + 1, j + 2];
      assert Pairs(j + 1) == Pairs(j) + [j, j + 1];
      assert t.queried == Pairs(j + 1) + [j + 1] + [j + 2];
    }
  }

  /** The number of callback calls in a reachable state: two per segment reached,
      minus one when the first query of the current segment failed. */
  lemma QueryCount(src: Source, s: ProcState)
    requires Reachable(src, s)
    ensures |s.queried| == 2 * s.currSegment + (if s.currSegment < |src| then 2 else 1)
  {
  }

  /** Every index in Pairs(j) lies in 0..j. */
  lemma {:induction false} PairsInRange(j: nat)
    ensures forall i :: 0 <= i < |Pairs(j)| ==> 0 <= Pairs(j)[i] <= j
  {
    if j > 0 {
      PairsInRange(j - 1);
    }
  }

  /** A reachable processor has only ever asked for indices 0..|src|: it never
      asks past the first index at which the callback failed. */
  lemma QueriedInRange(src: Source, s: ProcState)
    requires Reachable(src, s)
    ensures forall i :: 0 <= i < |s.queried| ==> 0 <= s.queried[i] <= |src|
  {
    PairsInRange(s.currSegment);
  }

  /** Reachable states stay reachable over any number of ticks. */
  lemma {:induction false} IterateReachable(src: Source, s: ProcState, k: nat)
    requires Reachable(src, s)
    ensures Reachable(src, Iterate(src, s, k))
    decreases k
  {
    if k > 0 {
      TickReachable(src, s);
      IterateReachable(src, TickState(src, s), k - 1);
    }
  }

  /** currSegment never decreases and the log only grows. */
  lemma {:induction false} IterateMonotone(src: Source, s: ProcState, k: nat)
    ensures Iterate(src, s, k).currSegment >= s.currSegment
    ensures s.queried <= Iterate(src, s, k).queried
    decreases k
  {
    if k > 0 {
      IterateMonotone(src, TickState(src, s), k - 1);
    }
  }

  /** Once moreRamps is false the processor is frozen: ticks leave the whole state,
      including the query log, unchanged and keep returning the ramp's value. */
  lemma {:induction false} FrozenAfterExhaustion(src: Source, s: ProcState, k: nat)
    requires !s.moreRamps
    ensures Iterate(src, s, k) == s
    ensures Outputs(src, s, k) == seq(k, _ => s.ramp.x)
    decreases k
  {
    if k > 0 {
      FrozenAfterExhaustion(src, s, k - 1);
      assert Iterate(src, s, k) == Iterate(src, s, k - 1);
    }
  }

  /** A done ramp makes the next tick build the next segment, and a segment whose
      two values are equal is done as soon as it is built, whatever its length. */
  lemma DoneRampAdvances(src: Source, s: ProcState)
    requires s.moreRamps && Done(s.ramp)
    ensures TickState(src, s).currSegment == s.currSegment + 1
    ensures var i := s.currSegment + 1;
            0 <= i && i + 1 < |src| && src[i].value == src[i + 1].value ==>
              Done(UpdateRampState(src, s).ramp) && TickState(src, s).ramp.x == src[i].value
  {
  }

  /** While the ramp is short of its target, ticks only tick the ramp: no
      queries, and the segment stays where it is. */
  lemma {:induction false} RampPhase(src: Source, s: ProcState, k: nat)
    requires s.moreRamps
    requires forall j :: 0 <= j < k ==> !Done(Steps(s.ramp, j))
    ensures Iterate(src, s, k) == s.(ramp := Steps(s.ramp, k))
    decreases k
  {
    if k > 0 {
      assert !Done(Steps(s.ramp, 0));
      var t := TickState(src, s);
      assert t == s.(ramp := Step(s.ramp));
      forall j | 0 <= j < k - 1
        ensures !Done(Steps(t.ramp, j))
      {
        assert Steps(s.ramp, j + 1) == Steps(t.ramp, j);
      }
      RampPhase(src, t, k - 1);
    }
  }

  /** k <= n ticks into a segment from a != b to b over n >= 1 samples, the processor
      has only ticked its ramp and is at a + k (b - a) / n. */
  lemma SegmentAt(src: Source, s: ProcState, a: real, b: real, n: int, k: nat)
    requires s.moreRamps && s.ramp == MakeRamp(a, b, n) && n >= 1 && a != b && k <= n
    ensures Iterate(src, s, k) == s.(ramp := Steps(s.ramp, k))
    ensures Iterate(src, s, k).ramp.x == Lerp(a, b, n, k)
  {
    forall j | 0 <= j < k
      ensures !Done(Steps(s.ramp, j))
    {
      LinearRamp(a, b, n, j);
    }
    RampPhase(src, s, k);
    LinearRamp(a, b, n, k);
  }

  /** A segment from a to b over n >= 1 samples, once built, yields the n values
      a + (k + 1) (b - a) / n for k = 0..n-1, lands exactly on b after the n-th
      tick, and queries nothing meanwhile. */
  lemma SegmentOutputs(src: Source, s: ProcState, a: real, b: real, n: int)
    requires s.moreRamps && s.ramp == MakeRamp(a, b, n) && n >= 1 && a != b
    ensures Iterate(src, s, n) == s.(ramp := Steps(s.ramp, n))
    ensures Iterate(src, s, n).ramp.x == b && Done(Iterate(src, s, n).ramp)
    ensures forall k :: 0 <= k < n ==> Outputs(src, s, n)[k] == Lerp(a, b, n, k + 1)
  {
    var outs := Outputs(src, s, n);
    forall k | 0 <= k < n
      ensures outs[k] == Lerp(a, b, n, k + 1)
    {
      var j := k + 1;
      OutputsAt(src, s, n, k);
      SegmentAt(src, s, a, b, n, j);
    }
    SegmentAt(src, s, a, b, n, n);
    LinearRamp(a, b, n, n);
  }

  /** ParamValueQueueProcessor: the ramp it owns, the segment index, the
      moreRamps flag, and a ghost log of the callback's indices. */
  class ParamValueQueueProcessor {
    const queue: Source
    var ramp: ParamRamp
    var currSegment: int
    var moreRamps: bool
    ghost var queried: seq<int>

    ghost function State(): ProcState
      reads this, ramp
    {
      ProcState(ramp.State(), currSegment, moreRamps, queried)
    }

    constructor (queue: Source, init: real)
      ensures this.queue == queue && fresh(ramp)
      ensures State() == Construct(queue, init)
    {
      this.queue := queue;
      ramp := new ParamRamp(init, init, 0);
      currSegment := 0;
      moreRamps := true;
      queried := [];
      new;
      InitRamp(0);
    }

    method Tick() returns (v: real)
      modifies this, ramp
      ensures ramp == old(ramp) || fresh(ramp)
      ensures State() == TickState(queue, old(State()))
      ensures v == ramp.x
    {
      if !moreRamps {
        v := ramp.GetValue();
        return;
      }
      if ramp.IsDone() {
        UpdateRamp();
      }
      v := ramp.Tick();
    }

    function GetValue(): (v: real)
      reads this, ramp
      ensures v == State().ramp.x
    {
      ramp.GetValue()
    }

    /** The callback: on success it writes the point's offset and value. */
    method CallQueue(index: int) returns (ok: bool, offset: int, value: real)
      modifies this`queried
      ensures queried == old(queried) + [index]
      ensures ok == Query(queue, index).Some?
      ensures ok ==> Query(queue, index).value == Breakpoint(offset, value)
    {
      queried := queried + [index];
      ok, offset, value := false, 0, 0.0;
      if 0 <= index < |queue| {
        ok, offset, value := true, queue[index].offset, queue[index].value;
      }
    }

    method UpdateRamp()
      modifies this
      ensures ramp == old(ramp) || fresh(ramp)
      ensures State() == UpdateRampState(queue, old(State()))
    {
      currSegment := currSegment + 1;
      InitRamp(currSegment);
    }

    method InitRamp(index: int)
      modifies this
      ensures ramp == old(ramp) || fresh(ramp)
      ensures State() == InitRampState(queue, old(State()), index)
    {
      var ok0, offset0, val0 := CallQueue(index);
      moreRamps := ok0;
      if !moreRamps {
        return;
      }
      var ok1, offset1, val1 := CallQueue(index + 1);
      moreRamps := ok1;
      if !moreRamps {
        ramp := new ParamRamp(val0, val0, 0);
        return;
      }
      var duration := offset1 - offset0;
      ramp := new ParamRamp(val0, val1, duration);
    }
  }
}

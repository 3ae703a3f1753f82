// The two versions of ParamValueQueueProcessor agree on what they output: over
// a queue that has every point, the VST-queue version (clamped indices, no
// moreRamps flag) returns the same value as the library version (moreRamps
// flag) on every tick. They differ only in how often they query the source.
module Equivalence {
  import opened Breakpoints
  import opened Ramp
  import opened VstQueue
  import L = Sequencer
  import V = VstSequencer
  import SequencerCases

  /** How a library state l and a VST-queue state v correspond: the same ramp;
      while the library has more ramps, the same segment; once it has frozen,
      the VST version sits on the last point or one past it with the same done,
      non-negative-step ramp. */
  ghost predicate Sim(src: L.Source, l: L.ProcState, v: V.VstState)
  {
    && l.ramp == v.ramp
    && (l.moreRamps ==>
          l.currSegment == v.currSegment && 0 <= l.currSegment && l.currSegment + 1 < |src|)
    && (!l.moreRamps ==>
          Done(l.ramp) && l.ramp.delta >= 0.0 &&
          (|src| > 0 ==> |src| - 1 <= v.currSegment <= |src|))
  }

  lemma ConstructSim(id: int, src: L.Source, init: real)
    ensures Sim(src, L.Construct(src, init), V.Construct(Some(FullQueue(id, src)), init))
  {
  }

  lemma TickSim(id: int, src: L.Source, l: L.ProcState, v: V.VstState)
    requires Sim(src, l, v)
    ensures Sim(src, L.TickState(src, l), V.TickState(Some(FullQueue(id, src)), v))
  {
    var q := FullQueue(id, src);
    if l.moreRamps && Done(l.ramp) {
      var i := l.currSegment + 1;
      assert V.NextSegment(q, v.currSegment) == i;
      if i + 1 < |src| {
        assert V.SecondIndex(q, i) == i + 1;
      } else {
        assert V.SecondIndex(q, i) == i;
      }
    } else if !l.moreRamps && |src| > 0 {
      assert V.NextSegment(q, v.currSegment) == |src|;
      assert Step(v.ramp) == v.ramp;
    }
  }

  lemma {:induction false} RunSim(id: int, src: L.Source, l: L.ProcState, v: V.VstState, k: nat)
    requires Sim(src, l, v)
    ensures L.Outputs(src, l, k) == V.Outputs(Some(FullQueue(id, src)), v, k)
    decreases k
  {
    if k > 0 {
      var q := Some(FullQueue(id, src));
      TickSim(id, src, l, v);
      RunSim(id, src, L.TickState(src, l), V.TickState(q, v), k - 1);
    }
  }

  /** Over a queue with every point of src, the VST-queue processor seeded with
      init returns, tick for tick, exactly what the library processor over src
      returns. */
  lemma VstMatchesLibrary(id: int, src: L.Source, init: real, k: nat)
    ensures V.Outputs(Some(FullQueue(id, src)), V.Construct(Some(FullQueue(id, src)), init), k)
         == L.Outputs(src, L.Construct(src, init), k)
  {
    ConstructSim(id, src, init);
    RunSim(id, src, L.Construct(src, init), V.Construct(Some(FullQueue(id, src)), init), k);
  }

  /** Hence the VST-queue processor passes the chained-ramps test too. */
  lemma VstTwoRampsCase(id: int)
    ensures var src := [Breakpoint(0, 0.6), Breakpoint(4, 1.0), Breakpoint(9, 0.5)];
            var q := Some(FullQueue(id, src));
            V.Outputs(q, V.Construct(q, 0.6), 12)
              == [0.7, 0.8, 0.9, 1.0, 0.9, 0.8, 0.7, 0.6, 0.5, 0.5, 0.5, 0.5]
  {
    var src := [Breakpoint(0, 0.6), Breakpoint(4, 1.0), Breakpoint(9, 0.5)];
    SequencerCases.TwoRampsCase(0);
    VstMatchesLibrary(id, src, 0.6, 12);
  }
}

// The library processor's test cases (paramvaluequeueprocessor_test.cpp), as
// lemmas about the spec functions: exact values and exact query counts.
module SequencerCases {
  import opened Breakpoints
  import opened Ramp
  import opened Sequencer

  /** A source whose very first query fails: the seed is held, one query made. */
  lemma InvalidQueueCase()
    ensures var s := Construct([], 0.5);
            && s.ramp.x == 0.5
            && Outputs([], s, 3) == [0.5, 0.5, 0.5]
            && |Iterate([], s, 3).queried| == 1
  {
    var s := Construct([], 0.5);
    FrozenAfterExhaustion([], s, 3);
  }

  /** A single point 0.75 with seed 0.5: the value is 0.75 at once and on every
      tick, and exactly two queries are made (index 0, then the failed index 1). */
  lemma SinglePointCase()
    ensures var src := [Breakpoint(0, 0.75)];
            var s := Construct(src, 0.5);
            && s.ramp.x == 0.75
            && Outputs(src, s, 4) == [0.75, 0.75, 0.75, 0.75]
            && Iterate(src, s, 4).queried == [0, 1]
  {
    var src := [Breakpoint(0, 0.75)];
    var s := Construct(src, 0.5);
    FrozenAfterExhaustion(src, s, 4);
  }

  /** Points (0, 0.6) and (4, 1.0) with seed 0.6: four ticks give 0.7, 0.8, 0.9,
      1.0, after two queries. */
  lemma OneRampCase()
    ensures var src := [Breakpoint(0, 0.6), Breakpoint(4, 1.0)];
            var s := Construct(src, 0.6);
            && s.ramp.x == 0.6
            && Outputs(src, s, 4) == [0.7, 0.8, 0.9, 1.0]
            && |Iterate(src, s, 4).queried| == 2
  {
    var src := [Breakpoint(0, 0.6), Breakpoint(4, 1.0)];
    var s := Construct(src, 0.6);
    assert s.ramp == MakeRamp(0.6, 1.0, 4) && s.moreRamps;
    SegmentOutputs(src, s, 0.6, 1.0, 4);
  }

  /** The source of the chained-ramps test. */
  function ChainSource(): Source
  {
    [Breakpoint(0, 0.6), Breakpoint(4, 1.0), Breakpoint(9, 0.5)]
  }

  /** Its first segment, 0.6 up to 1.0 over four samples. */
  lemma ChainFirstSegment()
    ensures var s := Construct(ChainSource(), 0.6);
            && s.ramp.x == 0.6 && s.queried == [0, 1]
            && Outputs(ChainSource(), s, 4) == [0.7, 0.8, 0.9, 1.0]
            && var t := Iterate(ChainSource(), s, 4);
               t.currSegment == 0 && t.moreRamps && Done(t.ramp) && t.ramp.x == 1.0 && t.queried == [0, 1]
  {
    var src := ChainSource();
    var s := Construct(src, 0.6);
    assert s.ramp == MakeRamp(0.6, 1.0, 4) && s.moreRamps;
    SegmentOutputs(src, s, 0.6, 1.0, 4);
  }

  /** Its second segment: the next tick builds 1.0 down to 0.5 over 9 - 4
      samples, with two more queries. */
  lemma ChainSecondSegment(s: ProcState)
    requires s.currSegment == 0 && s.moreRamps && Done(s.ramp) && s.queried == [0, 1]
    ensures Outputs(ChainSource(), s, 5) == [0.9, 0.8, 0.7, 0.6, 0.5]
    ensures var t := Iterate(ChainSource(), s, 5);
            t.currSegment == 1 && t.moreRamps && Done(t.ramp) && t.ramp.x == 0.5 && t.queried == [0, 1, 1, 2]
  {
    var src := ChainSource();
    var u := UpdateRampState(src, s);
    assert u.ramp == MakeRamp(1.0, 0.5, 5) && u.moreRamps && u.queried == [0, 1, 1, 2];
    assert TickState(src, s) == TickState(src, u);
    assert Iterate(src, s, 5) == Iterate(src, u, 5);
    assert Outputs(src, s, 5) == Outputs(src, u, 5);
    SegmentOutputs(src, u, 1.0, 0.5, 5);
  }

  /** Then only the last point is left: a flat ramp at 0.5, the failed query
      of index 3, and no change afterwards. */
  lemma ChainEnd(s: ProcState, k: nat)
    requires s.currSegment == 1 && s.moreRamps && Done(s.ramp) && s.ramp.x == 0.5 && s.queried == [0, 1, 1, 2]
    ensures Outputs(ChainSource(), s, 3) == [0.5, 0.5, 0.5]
    ensures Iterate(ChainSource(), s, 3).queried == [0, 1, 1, 2, 2, 3]
    ensures Iterate(ChainSource(), s, 1 + k) == Iterate(ChainSource(), s, 1)
  {
    var src := ChainSource();
    var t := TickState(src, s);
    assert t.ramp == MakeRamp(0.5, 0.5, 0) && !t.moreRamps;
    assert t.queried == [0, 1, 1, 2, 2, 3];
    assert Iterate(src, s, 1) == t;
    assert Outputs(src, s, 1) == [0.5];
    FrozenAfterExhaustion(src, t, 2);
    FrozenAfterExhaustion(src, t, k);
    IterateAdd(src, s, 1, 2);
    IterateAdd(src, s, 1, k);
    OutputsSplit(src, s, 1, 2);
  }

  /** Points (0, 0.6), (4, 1.0), (9, 0.5) with seed 0.6: up to 1.0 in four ticks,
      down to 0.5 in five, then 0.5 for ever, after exactly six queries. */
  lemma TwoRampsCase(k: nat)
    ensures var src := ChainSource();
            var s := Construct(src, 0.6);
            && s.ramp.x == 0.6
            && Outputs(src, s, 12) == [0.7, 0.8, 0.9, 1.0, 0.9, 0.8, 0.7, 0.6, 0.5, 0.5, 0.5, 0.5]
            && Iterate(src, s, 4).ramp.x == 1.0
            && Iterate(src, s, 12).queried == [0, 1, 1, 2, 2, 3]
            && Iterate(src, s, 10 + k) == Iterate(src, s, 10)
  {
    var src := ChainSource();
    var s0 := Construct(src, 0.6);
    ChainFirstSegment();
    var s4 := Iterate(src, s0, 4);
    ChainSecondSegment(s4);
    IterateAdd(src, s0, 4, 5);
    OutputsSplit(src, s0, 4, 5);
    var s9 := Iterate(src, s0, 9);
    ChainEnd(s9, k);
    IterateAdd(src, s0, 9, 3);
    IterateAdd(src, s0, 9, 1);
    IterateAdd(src, s0, 9, 1 + k);
    OutputsSplit(src, s0, 9, 3);
    ChainValues(Outputs(src, s0, 4), Outputs(src, s4, 5), Outputs(src, s9, 3));
  }

  /** The three stretches of the chained-ramps test, run together. */
  lemma ChainValues(a: seq<real>, b: seq<real>, c: seq<real>)
    requires a == [0.7, 0.8, 0.9, 1.0] && b == [0.9, 0.8, 0.7, 0.6, 0.5] && c == [0.5, 0.5, 0.5]
    ensures a + b + c == [0.7, 0.8, 0.9, 1.0, 0.9, 0.8, 0.7, 0.6, 0.5, 0.5, 0.5, 0.5]
  {
  }
}

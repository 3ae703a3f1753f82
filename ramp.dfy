// The leaf of the ramp engine: a value x that moves toward a target dst by at
// most delta per tick and snaps exactly onto dst once it is within delta.
// The same ramp appears twice in the code base (the library's ParamRamp and
// the copy written inline in source/gainautomatorprocessor.cpp); both are this
// module.
module Ramp {

  function Abs(r: real): real { if r < 0.0 then -r else r }

  /** m lies on the closed segment between a and b, in either direction. */
  predicate Between(a: real, m: real, b: real) { a <= m <= b || b <= m <= a }

  /** One de-zipper step of x toward dst. For a non-negative step it never passes
      dst, and the remaining distance shrinks by delta, or drops to zero when it
      was already within delta. */
  function Dezip(x: real, delta: real, dst: real): (r: real)
    ensures delta >= 0.0 ==> Between(x, r, dst)
    ensures delta >= 0.0 ==>
              Abs(dst - r) == if Abs(dst - x) > delta then Abs(dst - x) - delta else 0.0
  {
    var diff := dst - x;
    if diff > delta then x + delta
    else if diff < -delta then x - delta
    else dst
  }

  /** The per-tick step: n of them cover the distance from cur to dst. */
  function CalcDelta(cur: real, dst: real, n: int): (d: real)
    requires n != 0
    ensures d * (n as real) == Abs(dst - cur)
    ensures n > 0 ==> d >= 0.0
  {
    Abs(dst - cur) / (n as real)
  }

  /** The fields of a ParamRamp, as a value. */
  datatype RampState = RampState(x: real, dst: real, delta: real, numSamples: int)

  /** What the ParamRamp constructor builds: a sample count of 0 becomes 1. */
  function MakeRamp(src: real, dst: real, numSamples: int): (r: RampState)
    ensures r.x == src && r.dst == dst
    ensures r.numSamples != 0 && r.delta * (r.numSamples as real) == Abs(dst - src)
    ensures numSamples >= 0 ==> r.delta >= 0.0
  {
    var n := if numSamples == 0 then 1 else numSamples;
    RampState(src, dst, CalcDelta(src, dst, n), n)
  }

  /** What ParamRamp::tick does to the state. Only x changes. */
  function Step(r: RampState): (t: RampState)
    ensures t.dst == r.dst && t.delta == r.delta && t.numSamples == r.numSamples
    ensures r.delta >= 0.0 ==> Between(r.x, t.x, r.dst)
  {
    r.(x := Dezip(r.x, r.delta, r.dst))
  }

  /** ParamRamp::isDone: exact equality, reachable because ticks snap onto dst. */
  predicate Done(r: RampState) { r.x == r.dst }

  /** The state after k ticks. */
  function Steps(r: RampState, k: nat): RampState
    decreases k
  {
    if k == 0 then r else Steps(Step(r), k - 1)
  }

  /** Only 0 is coerced: a ramp over 0 samples is the ramp over 1 sample, and a
      negative count is kept as it is. */
  lemma ZeroSamplesAsOne(src: real, dst: real, n: int)
    ensures MakeRamp(src, dst, 0) == MakeRamp(src, dst, 1)
    ensures n != 0 ==> MakeRamp(src, dst, n).numSamples == n
  {
  }

  /** Ticks never overshoot: every later value lies between the start and dst. */
  lemma {:induction false} StepsStayBetween(r: RampState, k: nat)
    requires r.delta >= 0.0
    ensures Steps(r, k).dst == r.dst && Steps(r, k).delta == r.delta
    ensures Between(r.x, Steps(r, k).x, r.dst)
    decreases k
  {
    if k > 0 {
      StepsStayBetween(Step(r), k - 1);
    }
  }

  /** A done ramp is a fixed point: further ticks change nothing. */
  lemma {:induction false} DoneStaysDone(r: RampState, k: nat)
    requires Done(r) && r.delta >= 0.0
    ensures Steps(r, k) == r
    decreases k
  {
    if k > 0 {
      assert Step(r) == r;
      DoneStaysDone(Step(r), k - 1);
    }
  }

  /** m copies of s added up: the product m * s, built without multiplying. */
  function Times(m: nat, s: real): real
    decreases m
  {
    if m == 0 then 0.0 else Times(m - 1, s) + s
  }

  lemma {:induction false} TimesSign(m: nat, s: real)
    ensures s >= 0.0 ==> Times(m, s) >= 0.0
    ensures s <= 0.0 ==> Times(m, s) <= 0.0
    ensures m > 0 && s != 0.0 ==> Times(m, s) != 0.0
    decreases m
  {
    if m > 0 {
      TimesSign(m - 1, s);
    }
  }

  lemma {:induction false} TimesSplit(i: nat, j: nat, s: real)
    ensures Times(i + j, s) == Times(i, s) + Times(j, s)
    decreases j
  {
    if j > 0 {
      TimesSplit(i, j - 1, s);
    }
  }

  lemma {:induction false} TimesIsProduct(m: nat, s: real)
    ensures Times(m, s) == (m as real) * s
    decreases m
  {
    if m > 0 {
      TimesIsProduct(m - 1, s);
      assert ((m - 1) as real) * s + s == (m as real) * s;
    }
  }

  /** One tick of a ramp that is m >= 1 signed steps s away from dst leaves it
      m - 1 steps away. */
  lemma StepCountsDown(r: RampState, s: real, m: nat)
    requires r.delta > 0.0 && (s == r.delta || s == -r.delta)
    requires m >= 1 && r.x == r.dst - Times(m, s)
    ensures Step(r).x == r.dst - Times(m - 1, s)
  {
    TimesSign(m - 1, s);
  }

  /** Counting down: a ramp m signed steps s away from dst is m - k steps away
      after k ticks. */
  lemma {:induction false} StepsCountDown(r: RampState, s: real, m: nat, k: nat)
    requires r.delta > 0.0 && (s == r.delta || s == -r.delta)
    requires r.x == r.dst - Times(m, s)
    requires k <= m
    ensures Steps(r, k).dst == r.dst && Steps(r, k).delta == r.delta
    ensures Steps(r, k).x == r.dst - Times(m - k, s)
    decreases k
  {
    if k > 0 {
      StepCountsDown(r, s, m);
      StepsCountDown(Step(r), s, m - 1, k - 1);
    }
  }

  /** The point k n-ths of the way from a to b. */
  function Lerp(a: real, b: real, n: int, k: int): real
    requires n != 0
  {
    a + (k as real) * ((b - a) / (n as real))
  }

  /** A ramp from a to b over n >= 1 samples is linear: after k <= n ticks it is
      at a + k (b - a) / n, and it is done after exactly n ticks and not before
      (unless a == b, when it is done from the start). */
  lemma {:induction false} LinearRamp(a: real, b: real, n: int, k: nat)
    requires n >= 1 && k <= n
    ensures Steps(MakeRamp(a, b, n), k).x == Lerp(a, b, n, k)
    ensures Done(Steps(MakeRamp(a, b, n), k)) <==> (k == n || a == b)
  {
    var r := MakeRamp(a, b, n);
    var q := (b - a) / (n as real);
    if a == b {
      DoneStaysDone(r, k);
      assert q == 0.0;
    } else {
      SignedStep(a, b, n);
      StepsCountDown(r, q, n, k);
      TimesSplit(k, n - k, q);
      TimesSign(n - k, q);
      assert Steps(r, k).x == a + Times(k, q);
      TimesLerp(a, b, n, k);
    }
  }

  /** k steps of (b - a) / n from a is Lerp(a, b, n, k). */
  lemma TimesLerp(a: real, b: real, n: int, k: nat)
    requires n >= 1
    ensures a + Times(k, (b - a) / (n as real)) == Lerp(a, b, n, k)
  {
    TimesIsProduct(k, (b - a) / (n as real));
  }

  /** A ramp from a != b over n >= 1 samples starts n signed steps of
      (b - a) / n away from b, and that step is its delta up to sign. */
  lemma SignedStep(a: real, b: real, n: int)
    requires n >= 1 && a != b
    ensures var r := MakeRamp(a, b, n);
            var q := (b - a) / (n as real);
            r.delta > 0.0 && (q == r.delta || q == -r.delta) && r.x == r.dst - Times(n, q)
  {
    var r := MakeRamp(a, b, n);
    var q := (b - a) / (n as real);
    assert (n as real) * q == b - a;
    assert r.delta * (n as real) == Abs(b - a);
    TimesIsProduct(n, q);
  }

  /** ParamRamp, with the fields the constructor sets and tick updates in place. */
  class ParamRamp {
    var x: real
    var dst: real
    var delta: real
    var numSamples: int

    ghost function State(): RampState
      reads this
    {
      RampState(x, dst, delta, numSamples)
    }

    constructor (src: real, dst: real, numSamples: int)
      ensures State() == MakeRamp(src, dst, numSamples)
    {
      x, this.dst, this.numSamples := src, dst, numSamples;
      new;
      this.numSamples := if this.numSamples == 0 then 1 else this.numSamples;
      delta := CalcDelta(x, this.dst, this.numSamples);
    }

    method Tick() returns (v: real)
      modifies this
      ensures State() == Step(old(State()))
      ensures v == x
    {
      x := Dezip(x, delta, dst);
      v := x;
    }

    function GetValue(): (v: real)
      reads this
      ensures v == State().x
    {
      x
    }

    predicate IsDone()
      reads this
      ensures IsDone() <==> Done(State())
    {
      x == dst
    }
  }
}

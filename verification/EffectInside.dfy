/**
  When asking again costs no transfer. Nothing is assumed about how the ring was
  filled: the condition is read off the entries it holds.
*/
module EffectInside {
  import opened Words
  import opened Effect
  import opened EffectPulse
  import opened EffectRing
  import opened EffectAgreement
  import opened EffectDither

  // ---- every entry was computed from the one before it ----------------------------------

  /** The engine computes this entry for a tick from this carry, for some generator state. */
  ghost predicate Computed(slots: seq<Slot>, t: Tune, c: Carry, tick: int, e: Entry) {
    exists dither: u32, idle: int, base: int :: Tick(slots, t, c, dither, idle, tick, base).entry == e
  }

  /** The first `n` live entries form a chain, and so do their ranges. */
  ghost predicate Chained(fx: Fx, slots: seq<Slot>, n: int) {
    && (forall k :: 1 <= k < n && k < |fx.live| ==>
          Computed(slots, fx.tune, fx.live[k - 1].carry, fx.base + k, fx.live[k]))
    && (forall k :: 0 <= k < |fx.live| ==> CarryOk(fx.live[k].carry))
    && CarryOk(fx.carry)
  }

  ghost predicate CarryOk(c: Carry) {
    0 <= c.acc <= 100 && 0 <= c.burst <= 14
  }

  /** In the loop: chained up to the position, which only a verification leaves behind the end. */
  ghost predicate LoopChained(w: Window, tick: int) {
    var pos := w.idx + w.skip;
    && Chained(w.fx, w.fx.slots, pos) && CarryOk(w.fx.carry)
    && (w.verify || pos == |w.fx.live|)
    && (0 < pos <= |w.fx.live| ==> w.fx.carry == w.fx.live[pos - 1].carry)
  }

  lemma TickOk(slots: seq<Slot>, t: Tune, c: Carry, dither: u32, idle: int, tick: int, base: int)
    requires CarryOk(c)
    ensures CarryOk(Tick(slots, t, c, dither, idle, tick, base).entry.carry)
  {
    hide AxisSum, Intensity, Filter, Pulse;
    var sx := AxisSum(slots, 0, t.strength, tick);
    var sy := AxisSum(slots, 1, t.strength, tick);
    IntensityNonNegative(t, c.fx, c.fy, sx, sy);
    PulseOk(t, c.(fx := Filter(c.fx, sx), fy := Filter(c.fy, sy)), dither, Intensity(t, c.fx, c.fy, sx, sy), base);
  }

  lemma PulseOk(t: Tune, c: Carry, dither: u32, intensity: int, base: int)
    requires CarryOk(c) && 0 <= intensity
    ensures CarryOk(Pulse(t, c, dither, intensity, base).carry)
  {
    hide Stir, StirAgain, Threshold;
  }

  /** What one evaluation step computes. */
  lemma ComputeLinks(fx: Fx, tick: int, base: int)
    requires CarryOk(fx.carry)
    ensures var (r, e) := Compute(fx, tick, base);
            Computed(fx.slots, fx.tune, fx.carry, tick, e) && CarryOk(e.carry) && r.carry == e.carry
  {
    hide Tick;
    TickOk(fx.slots, fx.tune, fx.carry, fx.dither, fx.idle, tick, base);
  }

  lemma CarryOnly(fx: Fx, r: Fx, n: int)
    requires Chained(fx, fx.slots, n) && CarryOk(r.carry)
    requires r == fx.(carry := r.carry, dither := r.dither, idle := r.idle)
    ensures Chained(r, r.slots, n)
  {
    hide Computed, CarryOk;
  }

  /** Putting a computed entry at position `n`, over what was stored there or after all that is stored. */
  lemma Put(fx: Fx, e: Entry, n: nat)
    requires Chained(fx, fx.slots, n) && n < |fx.live| && CarryOk(e.carry)
    requires n > 0 ==> Computed(fx.slots, fx.tune, fx.live[n - 1].carry, fx.base + n, e)
    ensures Chained(fx.(live := fx.live[n := e]), fx.slots, n + 1)
    ensures Chained(fx.(live := fx.live[..n] + [e]), fx.slots, n + 1)
  {
    hide Computed, CarryOk;
  }

  lemma Grow(fx: Fx, e: Entry)
    requires RingOk(fx) && Chained(fx, fx.slots, |fx.live|) && CarryOk(e.carry)
    requires |fx.live| > 0 ==> Computed(fx.slots, fx.tune, fx.live[|fx.live| - 1].carry, fx.base + |fx.live|, e)
    ensures var r := Append(fx, e); Chained(r, fx.slots, |r.live|) && r.slots == fx.slots
  {
    hide Computed, CarryOk;
    var n := |fx.live|;
    var r := Append(fx, e);
    forall k | 1 <= k < |r.live|
      ensures Computed(fx.slots, fx.tune, r.live[k - 1].carry, r.base + k, r.live[k])
    {
      if n == RING && k < RING - 1 {
        assert r.live[k] == fx.live[k + 1] && r.live[k - 1] == fx.live[k];
        assert Computed(fx.slots, fx.tune, fx.live[k].carry, fx.base + (k + 1), fx.live[k + 1]);
      }
    }
  }

  lemma AfterGrown(tick: int, s: Window, fx: Fx, e: Entry)
    requires RingOk(fx) && Chained(fx, fx.slots, |fx.live|) && CarryOk(e.carry) && fx.carry == e.carry
    requires |fx.live| > 0 ==> Computed(fx.slots, fx.tune, fx.live[|fx.live| - 1].carry, fx.base + |fx.live|, e)
    requires s.fx == Append(fx, e) && s.idx + s.skip == |s.fx.live|
    ensures LoopChained(s, tick)
  {
    Grow(fx, e);
    AppendEnds(fx, e);
    hide Computed, CarryOk, Chained, Append;
  }

  lemma GrownLinks(w: Window, tick: int)
    requires WindowOk(w, tick) && w.idx < w.end && LoopChained(w, tick) && w.idx + w.skip == |w.fx.live|
    ensures LoopChained(Step(w, tick), tick)
  {
    hide *;
    GrownStart(w, tick);
    ComputeLinks(w.fx, tick + w.idx, tick);
    var c := Compute(w.fx, tick + w.idx, tick);
    CarryOnly(w.fx, c.0, |w.fx.live|);
    StepGrown(w, tick);
    GrownEnd(w, tick);
    AfterGrown(tick, Step(w, tick), c.0, c.1);
  }

  lemma GrownStart(w: Window, tick: int)
    requires WindowOk(w, tick) && LoopChained(w, tick) && w.idx + w.skip == |w.fx.live|
    ensures var n := |w.fx.live|;
            && Chained(w.fx, w.fx.slots, n) && CarryOk(w.fx.carry) && RingOk(w.fx)
            && w.fx.base + n == tick + w.idx
            && (n > 0 ==> w.fx.carry == w.fx.live[n - 1].carry)
  {
    hide Chained, CarryOk;
  }

  lemma GrownEnd(w: Window, tick: int)
    requires WindowOk(w, tick) && w.idx < w.end && w.idx + w.skip == |w.fx.live|
    ensures var s := Step(w, tick); s.idx + s.skip == |s.fx.live|
    ensures RingOk(Compute(w.fx, tick + w.idx, tick).0)
  {
    hide Compute, Append;
  }

  lemma AppendEnds(fx: Fx, e: Entry)
    requires RingOk(fx)
    ensures var r := Append(fx, e);
            && r.live != [] && r.live[|r.live| - 1] == e && r.carry == fx.carry
            && r.base + |r.live| == fx.base + |fx.live| + 1
  {
  }

  /** The step over a stored entry, by the two ways it can go. */
  lemma StepOverStored(w: Window, tick: int)
    requires WindowOk(w, tick) && w.idx < w.end && w.idx + w.skip < |w.fx.live| && w.verify
    ensures var n := w.idx + w.skip;
            var (fx, e) := Compute(w.fx, tick + w.idx, tick);
            var s := Step(w, tick);
            && s.idx + s.skip == n + 1 && (s.verify || |s.fx.live| == n + 1)
            && ((s.fx == fx.(live := fx.live[n := e]) && s.verify == w.verify)
                || s.fx == fx.(live := fx.live[..n] + [e]))
  {
    hide Compute;
  }

  lemma AfterStored(tick: int, s: Window, fx: Fx, e: Entry, n: nat)
    requires Chained(fx, fx.slots, n) && n < |fx.live| && CarryOk(e.carry) && fx.carry == e.carry
    requires n > 0 ==> Computed(fx.slots, fx.tune, fx.live[n - 1].carry, fx.base + n, e)
    requires s.idx + s.skip == n + 1
    requires s.fx == fx.(live := fx.live[n := e]) || s.fx == fx.(live := fx.live[..n] + [e])
    requires s.verify || |s.fx.live| == n + 1
    ensures LoopChained(s, tick)
  {
    Put(fx, e, n);
    hide Computed, CarryOk, Chained;
  }

  lemma StoredLinks(w: Window, tick: int)
    requires WindowOk(w, tick) && w.idx < w.end && LoopChained(w, tick) && w.idx + w.skip < |w.fx.live|
    ensures LoopChained(Step(w, tick), tick)
  {
    hide *;
    var n := w.idx + w.skip;
    StoredStart(w, tick);
    ComputeLinks(w.fx, tick + w.idx, tick);
    var c := Compute(w.fx, tick + w.idx, tick);
    CarryOnly(w.fx, c.0, n);
    StepOverStored(w, tick);
    AfterStored(tick, Step(w, tick), c.0, c.1, n);
  }

  lemma StoredStart(w: Window, tick: int)
    requires WindowOk(w, tick) && LoopChained(w, tick) && w.idx + w.skip < |w.fx.live|
    ensures var n := w.idx + w.skip;
            && Chained(w.fx, w.fx.slots, n) && w.verify && CarryOk(w.fx.carry)
            && n >= 0 && w.fx.base + n == tick + w.idx
            && (n > 0 ==> w.fx.carry == w.fx.live[n - 1].carry)
  {
    hide Chained, CarryOk;
  }

  lemma StepLinks(w: Window, tick: int)
    requires WindowOk(w, tick) && w.idx < w.end && LoopChained(w, tick)
    ensures LoopChained(Step(w, tick), tick)
  {
    hide LoopChained, Step;
    if w.idx + w.skip < |w.fx.live| {
      StoredLinks(w, tick);
    } else {
      GrownLinks(w, tick);
    }
  }

  lemma {:induction false} LoopLinks(w: Window, tick: int)
    requires WindowOk(w, tick) && LoopChained(w, tick)
    ensures LoopChained(Loop(w, tick), tick)
    decreases w.verify, w.end - w.idx
  {
    hide LoopChained, Step;
    if w.idx < w.end {
      StepLinks(w, tick);
      LoopLinks(Step(w, tick), tick);
    }
  }

  lemma EvaluateLinks(fx: Fx, lookahead: bool, tick: int)
    requires RingOk(fx) && Chained(fx, Sampled(fx), |fx.live|)
    ensures var r := Evaluate(fx, lookahead, tick, []).fx; Chained(r, Sampled(r), |r.live|)
  {
    hide *;
    BeginLinks(fx, lookahead, tick);
    var w := Begin(fx, lookahead, tick);
    LoopLinks(w, tick);
    EvaluateSamples(fx, lookahead, tick);
    LoopEnds(fx, lookahead, tick);
  }

  /** The chain at the loop's end is the whole ring's. */
  lemma LoopEnds(fx: Fx, lookahead: bool, tick: int)
    requires RingOk(fx) && LoopChained(Loop(Begin(fx, lookahead, tick), tick), tick)
    requires Begin(fx, lookahead, tick).fx.slots == Sampled(fx)
    ensures var r := Evaluate(fx, lookahead, tick, []).fx; Chained(r, Sampled(fx), |r.live|)
  {
    hide Chained, Begin, UpdateConditions, CarryOk;
    var w := Begin(fx, lookahead, tick);
    assert Loop(w, tick).fx.slots == w.fx.slots;
    hide Loop;
  }

  lemma BeginLinks(fx: Fx, lookahead: bool, tick: int)
    requires RingOk(fx) && Chained(fx, Sampled(fx), |fx.live|)
    ensures var w := Begin(fx, lookahead, tick);
            LoopChained(w, tick) && w.fx.slots == Sampled(fx)
  {
    hide Computed, CarryOk, UpdateConditions;
  }

  /** Whatever was asked before, and however loud the effects: every entry follows from the one before it. */
  lemma {:induction false} RunsKeepTheChain(fx: Fx, calls: seq<Call>)
    requires RingOk(fx) && Chained(fx, Sampled(fx), |fx.live|)
    ensures var r := RunCalls(fx, calls); Chained(r, Sampled(r), |r.live|)
    ensures RunCalls(fx, calls).tune == fx.tune && Sampled(RunCalls(fx, calls)) == Sampled(fx)
    decreases |calls|
  {
    if calls != [] {
      EvaluateLinks(fx, calls[0].lookahead, calls[0].tick);
      EvaluateSamples(fx, calls[0].lookahead, calls[0].tick);
      hide Evaluate, Chained, Sampled;
      RunsKeepTheChain(Evaluate(fx, calls[0].lookahead, calls[0].tick, []).fx, calls[1..]);
    }
  }

  // ---- a steady stretch verifies ------------------------------------------------------------

  /** The carry as the modulator receives it, the filters already moved on. */
  function Fed(slots: seq<Slot>, t: Tune, c: Carry, tick: int): Carry {
    c.(fx := Filter(c.fx, AxisSum(slots, 0, t.strength, tick)), fy := Filter(c.fy, AxisSum(slots, 1, t.strength, tick)))
  }

  /** A tick is the modulator's answer to the plain intensity. */
  lemma TickPulse(slots: seq<Slot>, t: Tune, c: Carry, dither: u32, idle: int, tick: int, base: int)
    returns (fed: Carry)
    ensures fed.acc == c.acc && fed.burst == c.burst
    ensures fed == Fed(slots, t, c, tick)
    ensures var r := Tick(slots, t, c, dither, idle, tick, base);
            var p := Pulse(t, fed, dither, r.entry.intensity, base);
            && r.entry.intensity == Plain(slots, t, c, tick).intensity
            && r.entry.pulse == p.pulse && r.entry.carry == p.carry && r.dither == p.dither
  {
    hide AxisSum, Intensity, Filter, Pulse;
    fed := Fed(slots, t, c, tick);
  }

  lemma SteadyIsInherited(c: Carry, fed: Carry, intensity: int)
    requires fed.acc == c.acc && fed.burst == c.burst
    ensures Steady(fed, intensity) == Steady(c, intensity)
  {
  }

  /** After a steady tick's carry, any generator state gives the stored entry again. */
  lemma SteadyTick(slots: seq<Slot>, t: Tune, c: Carry, e: Entry, dither: u32, idle: int, tick: int, base: int)
    requires Computed(slots, t, c, tick, e) && !t.active && CarryOk(c) && Steady(c, e.intensity)
    ensures Tick(slots, t, c, dither, idle, tick, base).entry == e
  {
    var d: u32, i: int, b: int :| Tick(slots, t, c, d, i, tick, b).entry == e;
    PlainNonNegative(slots, t, c, tick);
    hide Tick, Plain, Pulse, Fed, Steady;
    var fed := TickPulse(slots, t, c, dither, idle, tick, base);
    var stored := TickPulse(slots, t, c, d, i, tick, b);
    SteadyIsInherited(c, fed, e.intensity);
    SteadyPulse(t, fed, dither, d, e.intensity, base, b);
  }

  lemma PlainNonNegative(slots: seq<Slot>, t: Tune, c: Carry, tick: int)
    ensures 0 <= Plain(slots, t, c, tick).intensity
  {
    hide AxisSum, Intensity, Filter;
    IntensityNonNegative(t, c.fx, c.fy, AxisSum(slots, 0, t.strength, tick), AxisSum(slots, 1, t.strength, tick));
  }

  /** From position `n` on the generator has no say in the stored ticks. */
  ghost predicate SteadyFrom(fx: Fx, n: int)
    requires 1 <= n <= |fx.live|
  {
    !fx.tune.active && forall k :: n <= k < |fx.live| ==> Steady(fx.live[k - 1].carry, fx.live[k].intensity)
  }

  /** One step over a steady entry stores it again as it was. */
  lemma SteadyStep(w: Window, tick: int)
    requires WindowOk(w, tick) && w.idx < w.end && w.verify && w.idx + w.skip < |w.fx.live|
    requires 1 <= w.idx + w.skip && Chained(w.fx, w.fx.slots, |w.fx.live|) && SteadyFrom(w.fx, w.idx + w.skip)
    requires w.fx.carry == w.fx.live[w.idx + w.skip - 1].carry
    ensures Step(w, tick) == Window(Compute(w.fx, tick + w.idx, tick).0, w.idx + 1, w.end, w.skip, true)
    ensures Compute(w.fx, tick + w.idx, tick).1 == w.fx.live[w.idx + w.skip]
  {
    hide Tick, Steady;
    var n := w.idx + w.skip;
    assert Computed(w.fx.slots, w.fx.tune, w.fx.carry, tick + w.idx, w.fx.live[n]);
    hide Chained, Computed, CarryOk;
    CarryIsOk(w.fx, n - 1);
    SteadyTick(w.fx.slots, w.fx.tune, w.fx.carry, w.fx.live[n], w.fx.dither, w.fx.idle, tick + w.idx, tick);
    assert Compute(w.fx, tick + w.idx, tick).1 == w.fx.live[n];
    hide Compute;
    StepStored(w, tick);
  }

  lemma CarryIsOk(fx: Fx, k: nat)
    requires Chained(fx, fx.slots, |fx.live|) && k < |fx.live|
    ensures CarryOk(fx.live[k].carry)
  {
  }

  lemma {:induction false} SteadyLoop(w: Window, tick: int)
    requires WindowOk(w, tick) && w.verify
    requires 1 <= w.idx + w.skip && Chained(w.fx, w.fx.slots, |w.fx.live|) && SteadyFrom(w.fx, w.idx + w.skip)
    requires w.fx.carry == w.fx.live[w.idx + w.skip - 1].carry
    ensures Loop(w, tick).verify && Loop(w, tick).fx.live == w.fx.live
    decreases w.end - w.idx
  {
    if w.idx < w.end {
      hide Steady;
      SteadyStep(w, tick);
      var s := Step(w, tick);
      assert s.fx.live == w.fx.live && s.fx.carry == w.fx.live[w.idx + w.skip].carry;
      CarryOnly(w.fx, s.fx, |w.fx.live|);
      hide Compute, Step, Chained;
      SteadyLoop(s, tick);
    }
  }

  /**
    The rule for sending nothing: a lookahead strictly inside the ring, from where on
    the generator has no say in the stored ticks, answers "nothing changed" and leaves
    every entry as it was.
  */
  lemma InsideRing(fx: Fx, tick: int, payload: seq<bool>)
    requires RingOk(fx) && Chained(fx, Sampled(fx), |fx.live|)
    requires 1 <= tick - fx.base < |fx.live| && SteadyFrom(fx, tick - fx.base)
    ensures var r := Evaluate(fx, true, tick, payload); !r.changed && r.fx.live == fx.live
  {
    var w := Begin(fx, true, tick);
    assert Chained(w.fx, w.fx.slots, |w.fx.live|) by { hide Computed, CarryOk, UpdateConditions; }
    hide Chained, UpdateConditions, Steady;
    SteadyLoop(w, tick);
    hide Loop;
  }

  // ---- a quiet stretch is steady ------------------------------------------------------------

  /** From position `n` on the stored entries ask for at most 100, and no burst runs into them. */
  ghost predicate QuietFrom(fx: Fx, n: int)
    requires 1 <= n <= |fx.live|
  {
    && !fx.tune.active && fx.live[n - 1].carry.burst == 0
    && forall k :: n <= k < |fx.live| ==> fx.live[k].intensity <= 100
  }

  /** An entry of at most 100 after a carry without a burst is the plain one. */
  lemma QuietIsPlain(slots: seq<Slot>, t: Tune, c: Carry, tick: int, e: Entry)
    requires Computed(slots, t, c, tick, e) && !t.active && CarryOk(c) && c.burst == 0 && e.intensity <= 100
    ensures e == Plain(slots, t, c, tick) && e.carry.burst == 0
  {
    var dither: u32, idle: int, base: int :| Tick(slots, t, c, dither, idle, tick, base).entry == e;
    hide Tick;
    var fed := TickPulse(slots, t, c, dither, idle, tick, base);
    TickIsPlain(slots, t, c, dither, idle, tick, base);
    PlainInRange(slots, t, c, tick);
    hide Plain;
  }

  /** No burst starts in a quiet stretch. */
  lemma {:induction false} QuietCarry(fx: Fx, slots: seq<Slot>, n: int, k: int)
    requires Chained(fx, slots, |fx.live|) && 1 <= n <= |fx.live| && QuietFrom(fx, n) && n - 1 <= k < |fx.live|
    ensures fx.live[k].carry.burst == 0
    decreases k
  {
    if k >= n {
      QuietCarry(fx, slots, n, k - 1);
      QuietIsPlain(slots, fx.tune, fx.live[k - 1].carry, fx.base + k, fx.live[k]);
    }
  }

  lemma QuietIsSteady(fx: Fx, slots: seq<Slot>, n: int)
    requires Chained(fx, slots, |fx.live|) && 1 <= n <= |fx.live| && QuietFrom(fx, n)
    ensures SteadyFrom(fx, n)
  {
    forall k | n <= k < |fx.live|
      ensures Steady(fx.live[k - 1].carry, fx.live[k].intensity)
    {
      QuietCarry(fx, slots, n, k - 1);
    }
  }

  lemma EmptyChain(fx: Fx)
    requires fx.live == [] && CarryOk(fx.carry)
    ensures Chained(fx, Sampled(fx), |fx.live|)
  {
  }

  /**
    After any calls, with any effects: if the entry before a tick strictly inside the
    ring carries no burst, and the entries from there on ask for at most 100, a
    lookahead at that tick sends nothing.
  */
  lemma StrictlyInsideNothingIsSent(start: Fx, calls: seq<Call>, tick: int, payload: seq<bool>)
    requires RingOk(start) && start.live == [] && CarryOk(start.carry)
    requires var fx := RunCalls(start, calls);
             1 <= tick - fx.base < |fx.live| && QuietFrom(fx, tick - fx.base)
    ensures var fx := RunCalls(start, calls);
            var r := Evaluate(fx, true, tick, payload);
            !r.changed && r.fx.live == fx.live
  {
    hide *;
    EmptyChain(start);
    RunsKeepTheChain(start, calls);
    var fx := RunCalls(start, calls);
    QuietIsSteady(fx, Sampled(fx), tick - fx.base);
    InsideRing(fx, tick, payload);
  }
}

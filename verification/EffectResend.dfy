/**
  What the dither generator, which no ring entry stores, can do to a lookahead, and a
  run of the engine in which it makes an unchanged effect go out again.
*/
module EffectResend {
  import opened Words
  import opened Effect
  import opened EffectRing
  import opened EffectAgreement
  import opened EffectInside
  import opened EffectDither
  import opened EffectSetup

  // ---- a lookahead at a tick the generator decides ------------------------------------------

  /** A lookahead whose first tick comes out differently sends the window again. */
  lemma FirstTickDecides(fx: Fx, tick: int)
    requires RingOk(fx) && 1 <= tick - fx.base < |fx.live|
    ensures var n := tick - fx.base;
            var e := Tick(Sampled(fx), fx.tune, fx.live[n - 1].carry, fx.dither, fx.idle, tick, tick).entry;
            var changed := Evaluate(fx, true, tick, []).changed;
            && (e.pulse != fx.live[n].pulse ==> changed)
            && (n == |fx.live| - 1 ==> (changed <==> e.pulse != fx.live[n].pulse))
  {
    hide Tick, UpdateConditions;
    var w := Begin(fx, true, tick);
    assert w.verify && w.idx == 0 && w.skip == tick - fx.base && w.fx.live == fx.live;
    var s := Step(w, tick);
    var e := Compute(w.fx, tick, tick).1;
    assert s.verify <==> e.pulse == fx.live[w.skip].pulse;
    if !s.verify {
      hide Step;
      assert !Loop(w, tick).verify;
    } else if w.skip == |fx.live| - 1 {
      assert s.idx == s.end;
      hide Step;
      assert Loop(w, tick) == s;
    }
  }

  /** A stored entry's pulse is the modulator's, for the generator state and window it was computed with. */
  lemma StoredPulse(fx: Fx, n: int) returns (dither: u32, base: int)
    requires Chained(fx, Sampled(fx), |fx.live|) && 1 <= n < |fx.live|
    ensures var fed := Fed(Sampled(fx), fx.tune, fx.live[n - 1].carry, fx.base + n);
            && fx.live[n].pulse == Pulse(fx.tune, fed, dither, fx.live[n].intensity, base).pulse
            && fx.live[n].intensity == Plain(Sampled(fx), fx.tune, fx.live[n - 1].carry, fx.base + n).intensity
            && fed.acc == fx.live[n - 1].carry.acc && fed.burst == fx.live[n - 1].carry.burst >= 0
  {
    var slots, t, c, tick := Sampled(fx), fx.tune, fx.live[n - 1].carry, fx.base + n;
    assert Computed(slots, t, c, tick, fx.live[n]) && CarryOk(c);
    var d: u32, idle: int, b: int :| Tick(slots, t, c, d, idle, tick, b).entry == fx.live[n];
    dither, base := d, b;
    hide Tick, Pulse, Plain, Fed, Chained;
    var fed := TickPulse(slots, t, c, d, idle, tick, b);
  }

  lemma DitherIsFree(fx: Fx, d: u32)
    requires RingOk(fx)
    ensures var f := fx.(dither := d);
            && RingOk(f) && Sampled(f) == Sampled(fx) && f.tune == fx.tune && f.live == fx.live
            && f.base == fx.base && f.idle == fx.idle && f.dither == d
  {
  }

  /** The first tick of a lookahead, for a given generator state. */
  lemma FirstTickPulse(fx: Fx, tick: int, d: u32, fed: Carry)
    requires RingOk(fx) && 1 <= tick - fx.base < |fx.live| && Chained(fx, Sampled(fx), |fx.live|)
    requires fed == Fed(Sampled(fx), fx.tune, fx.live[tick - fx.base - 1].carry, tick)
    ensures RingOk(fx.(dither := d))
    ensures var n := tick - fx.base;
            var pulse := Pulse(fx.tune, fed, d, fx.live[n].intensity, tick).pulse;
            var changed := Evaluate(fx.(dither := d), true, tick, []).changed;
            && (pulse != fx.live[n].pulse ==> changed)
            && (n == |fx.live| - 1 ==> (changed <==> pulse != fx.live[n].pulse))
  {
    hide *;
    var n := tick - fx.base;
    var dither, base := StoredPulse(fx, n);
    DitherIsFree(fx, d);
    var again := TickPulse(Sampled(fx), fx.tune, fx.live[n - 1].carry, d, fx.idle, tick, tick);
    FirstTickDecides(fx.(dither := d), tick);
  }

  /** For some generator state a lookahead at this tick sends the window again. */
  ghost predicate MayBeResent(fx: Fx, tick: int)
    requires RingOk(fx)
  {
    exists d: u32 :: Evaluate(fx.(dither := d), true, tick, []).changed
  }

  lemma ChainIgnoresDither(fx: Fx, d: u32, n: int)
    requires RingOk(fx) && Chained(fx, Sampled(fx), |fx.live|) && 1 <= n <= |fx.live| && SteadyFrom(fx, n)
    ensures var f := fx.(dither := d);
            RingOk(f) && Chained(f, Sampled(f), |f.live|) && SteadyFrom(f, n)
  {
    hide Computed, CarryOk, Steady, UpdateConditions;
  }

  /** A steady stretch is not sent again for any generator state. */
  lemma SteadyIsNeverResent(fx: Fx, tick: int)
    requires RingOk(fx) && Chained(fx, Sampled(fx), |fx.live|)
    requires 1 <= tick - fx.base < |fx.live| && SteadyFrom(fx, tick - fx.base)
    ensures !MayBeResent(fx, tick)
  {
    hide Chained, SteadyFrom, Evaluate, RingOk, Sampled;
    forall d: u32
      ensures RingOk(fx.(dither := d)) && !Evaluate(fx.(dither := d), true, tick, []).changed
    {
      ChainIgnoresDither(fx, d, tick - fx.base);
      InsideRing(fx.(dither := d), tick, []);
    }
  }

  /**
    A lookahead at a tick that swings is answered "changed" for some generator state;
    at the last tick of the ring that is exactly when it can be.
  */
  lemma ResendsExactlyWhenSwinging(fx: Fx, tick: int)
    requires RingOk(fx) && Chained(fx, Sampled(fx), |fx.live|) && !fx.tune.active
    requires 1 <= tick - fx.base < |fx.live| && 0 <= fx.live[tick - fx.base].intensity < TWO_31
    ensures var n := tick - fx.base;
            var swings := Swings(fx.live[n - 1].carry, fx.live[n].intensity);
            (swings ==> MayBeResent(fx, tick)) && (n == |fx.live| - 1 ==> (MayBeResent(fx, tick) <==> swings))
  {
    var n := tick - fx.base;
    if Swings(fx.live[n - 1].carry, fx.live[n].intensity) {
      SwingingMayBeResent(fx, tick);
    } else if n == |fx.live| - 1 {
      forall d: u32
        ensures !Evaluate(fx.(dither := d), true, tick, []).changed
      {
        SteadyIsNotResent(fx, tick, d);
      }
    }
    hide Evaluate, Chained, Swings;
  }

  lemma SwingIsInherited(c: Carry, fed: Carry, intensity: int)
    requires fed.acc == c.acc && fed.burst == c.burst
    ensures Swings(fed, intensity) <==> Swings(c, intensity)
  {
  }

  lemma SwingingMayBeResent(fx: Fx, tick: int)
    requires RingOk(fx) && Chained(fx, Sampled(fx), |fx.live|) && !fx.tune.active
    requires 1 <= tick - fx.base < |fx.live| && 0 <= fx.live[tick - fx.base].intensity < TWO_31
    requires Swings(fx.live[tick - fx.base - 1].carry, fx.live[tick - fx.base].intensity)
    ensures MayBeResent(fx, tick)
  {
    hide Pulse, Evaluate, Swings, Chained, Fed, Sampled, RingOk, Plain;
    var n := tick - fx.base;
    var fed := Fed(Sampled(fx), fx.tune, fx.live[n - 1].carry, tick);
    var dither, base := StoredPulse(fx, n);
    SwingIsInherited(fx.live[n - 1].carry, fed, fx.live[n].intensity);
    var passing, muting := BothDraws(fx.tune, fed, fx.live[n].intensity, tick);
    FirstTickPulse(fx, tick, passing, fed);
    FirstTickPulse(fx, tick, muting, fed);
  }

  lemma SteadyIsNotResent(fx: Fx, tick: int, d: u32)
    requires RingOk(fx) && Chained(fx, Sampled(fx), |fx.live|) && !fx.tune.active
    requires 1 <= tick - fx.base == |fx.live| - 1 && 0 <= fx.live[tick - fx.base].intensity < TWO_31
    requires !Swings(fx.live[tick - fx.base - 1].carry, fx.live[tick - fx.base].intensity)
    ensures RingOk(fx.(dither := d)) && !Evaluate(fx.(dither := d), true, tick, []).changed
  {
    hide *;
    var n := tick - fx.base;
    var fed := Fed(Sampled(fx), fx.tune, fx.live[n - 1].carry, tick);
    var dither, base := StoredPulse(fx, n);
    SwingIsInherited(fx.live[n - 1].carry, fed, fx.live[n].intensity);
    SteadyUnlessSwinging(fx.tune, fed, d, dither, fx.live[n].intensity, tick, base);
    FirstTickPulse(fx, tick, d, fed);
  }

  // ---- a run of the engine that swings ------------------------------------------------------

  /** A constant full-scale effect on both axes in slot 0, nothing else programmed. */
  function OneConstant(): (r: seq<Slot>)
    ensures |r| == SLOTS
  {
    Busy(1, SLOTS, FX_CLAMP)
  }

  lemma ConstantSum(axis: nat, strength: int, tick: nat)
    ensures AxisSum(OneConstant(), axis, strength, tick) == 127
  {
    BusySums(1, SLOTS, FX_CLAMP, axis, strength, tick);
  }

  lemma ConstantSampled(strength: int)
    ensures UpdateConditions(OneConstant(), strength, 0, 0) == OneConstant()
  {
    BusySampled(1, SLOTS, FX_CLAMP, strength, 0, 0);
  }

  /** The engine as a device starts, the effect just programmed. */
  function Started(): (fx: Fx)
    ensures RingOk(fx)
  {
    Fx(OneConstant(), INITIAL, 0, 0, Carry(0, 0, 0, 0, 0), 0, 0, [], 0)
  }

  /** The carries of the first ticks. */
  function LoudCarry(k: nat): Carry
    requires k <= 4
  {
    match k
    case 0 => Carry(0, 0, 0, 0, 0)
    case 1 => Carry(127, 127, 100, 8, 0)
    case 2 => Carry(232, 232, 100, 7, 0)
    case 3 => Carry(320, 320, 100, 6, 0)
    case _ => Carry(393, 393, 100, 5, 0)
  }

  function LoudIntensity(k: nat): int
    requires k <= 4
  {
    match k
    case 0 => 348
    case 1 => 330
    case 2 => 313
    case 3 => 295
    case _ => 279
  }

  lemma LoudIntensities(k: nat)
    requires k <= 4
    ensures Intensity(INITIAL, LoudCarry(k).fx, LoudCarry(k).fy, 127, 127) == LoudIntensity(k)
  {
    var f := LoudCarry(k).fx;
    assert SoftOr(127, 127) == 174;
    var d := Moved(f, 127);
    assert d == (match k case 0 => 127 case 1 => 106 case 2 => 89 case 3 => 74 case _ => 62);
    assert SoftOr(d, d) == LoudIntensity(k) - 174;
    hide SoftOr, Moved;
    assert Mixed(INITIAL, 174, LoudIntensity(k) - 174) == LoudIntensity(k);
  }

  /** In the window that starts at 0, generator state 0 stays 0. */
  lemma PulseAtZero(c: Carry, d: u32, intensity: int, base: int)
    requires d == 0 && base == 0 && 0 <= c.acc <= 100 && 0 <= c.burst && 200 <= intensity < TWO_31
    ensures var p := Pulse(INITIAL, c, d, intensity, base);
            var burst := (if c.burst == 0 then 9 else c.burst) - 1;
            && p.dither == 0 && p.carry == c.(acc := 100, burst := burst)
            && p.pulse == !(burst < 6 && burst < TruncDiv(intensity - 100, 20))
  {
    hide Stir, StirAgain, Threshold, TruncDiv;
    Draws(d, base);
    FullThreshold(intensity, 0);
  }

  /** The draws these two windows start with. */
  lemma Draws(d: u32, base: int)
    requires d == 0
    ensures base == 0 ==> Stir(d, base) == 0 && StirAgain(0, base) == 0
    ensures base == 4 ==> Stir(d, base) == 4 && StirAgain(4, base) == 8
  {
    hide StirAgain, Stir, Wrap;
    if base == 0 || base == 4 {
      FirstDrawSmall(d, base);
      SecondDraw(base, base);
      SmallWraps(base);
    }
  }

  lemma FirstDrawSmall(d: u32, base: int)
    requires d == 0 && 0 <= base <= 4
    ensures Stir(d, base) == base
  {
  }

  lemma SmallWraps(b: int)
    requires 0 <= b <= 4
    ensures Wrap(b) == b && Wrap(b + b) == b + b && Wrap(0 + b) == b
  {
  }

  lemma FullThreshold(intensity: int, q: u32)
    requires 200 <= intensity < TWO_31
    ensures q == 0 ==> Threshold(intensity, q) == TruncDiv(intensity - 100, 20)
    ensures q == 8 && intensity == 279 ==> Threshold(intensity, q) == 2
  {
    var t := TruncDiv(intensity - 100, 20);
    assert 0 <= t < TWO_31;
    hide TruncDiv;
    assert Wrap(t) == t;
    hide Wrap;
    if q == 0 {
      assert t / (q % 3 + 1) == t;
    } else if q == 8 && intensity == 279 {
      assert t == 8 by { assert TruncDiv(179, 20) == 8 by { EightTwenties(); } }
      assert q % 3 == 2;
    }
  }

  lemma EightTwenties()
    ensures TruncDiv(179, 20) == 8
  {
  }

  /** The modulator in the window that starts at 0, from generator state 0: the generator stays at 0. */
  lemma LoudPulse(k: nat, c: Carry, d: u32, base: int)
    requires k <= 4 && d == 0 && base == 0 && c.acc == LoudCarry(k).acc && c.burst == LoudCarry(k).burst
    ensures var p := Pulse(INITIAL, c, d, LoudIntensity(k), base);
            && p.dither == 0
            && (k < 4 ==> p.carry == c.(acc := LoudCarry(k + 1).acc, burst := LoudCarry(k + 1).burst))
            && (k == 4 ==> !p.pulse)
  {
    hide Pulse, Stir, StirAgain, Threshold;
    PulseAtZero(c, d, LoudIntensity(k), base);
  }

  /** The same tick in the window that starts at 4 keeps its pulse. */
  lemma LoudPulseAgain(c: Carry, d: u32, intensity: int, base: int)
    requires c.acc == 100 && c.burst == 5 && intensity == 279 && d == 0 && base == 4
    ensures Pulse(INITIAL, c, d, intensity, base).pulse
  {
    hide Stir, StirAgain, Threshold;
    Draws(d, base);
    FullThreshold(intensity, 8);
  }

  lemma LoudFilters(k: nat)
    requires k < 4
    ensures Filter(LoudCarry(k).fx, 127) == LoudCarry(k + 1).fx && Filter(LoudCarry(k).fy, 127) == LoudCarry(k + 1).fy
  {
  }

  lemma LoudFed(k: nat)
    requires k <= 4
    ensures var fed := Fed(OneConstant(), INITIAL, LoudCarry(k), k);
            && fed == LoudCarry(k).(fx := Filter(LoudCarry(k).fx, 127), fy := Filter(LoudCarry(k).fy, 127))
            && Plain(OneConstant(), INITIAL, LoudCarry(k), k).intensity == LoudIntensity(k)
  {
    ConstantSum(0, 100, k);
    ConstantSum(1, 100, k);
    LoudIntensities(k);
    hide OneConstant, AxisSum, Intensity, Filter, LoudCarry, LoudIntensity;
  }

  /** One of the first ticks in the window that starts at 0. */
  lemma LoudTick(k: nat, d: u32, idle: int, base: int)
    requires k <= 4 && d == 0 && base == 0
    ensures var t := Tick(OneConstant(), INITIAL, LoudCarry(k), d, idle, k, base);
            && t.dither == 0
            && (k < 4 ==> t.entry.carry == LoudCarry(k + 1))
            && (k == 4 ==> !t.entry.pulse)
  {
    hide *;
    var fed := TickPulse(OneConstant(), INITIAL, LoudCarry(k), d, idle, k, base);
    LoudFed(k);
    LoudPulse(k, fed, d, base);
    if k < 4 {
      LoudFilters(k);
      LoudCounter(k);
    }
  }

  lemma LoudCounter(k: nat)
    requires k < 4
    ensures LoudCarry(k + 1).counter == LoudCarry(k).counter
  {
  }

  lemma LoudTickAgain(d: u32, idle: int, tick: int)
    requires d == 0 && tick == 4
    ensures Tick(OneConstant(), INITIAL, LoudCarry(4), d, idle, tick, tick).entry.pulse
  {
    var k: nat := tick;
    assert LoudCarry(k).acc == 100 && LoudCarry(k).burst == 5 && LoudIntensity(k) == 279;
    hide *;
    var fed := TickPulse(OneConstant(), INITIAL, LoudCarry(k), d, idle, tick, tick);
    LoudFed(k);
    LoudPulseAgain(fed, d, LoudIntensity(k), tick);
  }

  // ---- filling the ring from empty ----------------------------------------------------------

  /** A window that is being computed, generator state 0, from time 0. */
  ghost predicate Filling(w: Window, tick: int) {
    && WindowOk(w, tick) && !w.verify && tick == 0 && w.skip == 0 && w.idx == |w.fx.live| <= WINDOW
    && w.fx.dither == 0
  }

  /** Generator state 0 stays 0 in the window that starts at 0. */
  lemma ZeroStays(slots: seq<Slot>, t: Tune, c: Carry, d: u32, idle: int, tick: int, base: int)
    requires d == 0 && base == 0
    ensures Tick(slots, t, c, d, idle, tick, base).dither == 0
  {
    hide Stir, StirAgain, Threshold, Tick, Fed, Plain;
    var fed := TickPulse(slots, t, c, d, idle, tick, base);
    Draws(d, base);
  }

  lemma ComputeAtZero(fx: Fx, tick: int, base: int)
    requires fx.dither == 0 && base == 0
    ensures Compute(fx, tick, base).0.dither == 0
  {
    ZeroStays(fx.slots, fx.tune, fx.carry, fx.dither, fx.idle, tick, base);
    hide Tick;
  }

  lemma AppendFills(fx: Fx, e: Entry)
    requires |fx.live| < RING && |fx.slots| == SLOTS
    ensures Append(fx, e) == fx.(live := fx.live + [e])
  {
  }

  lemma FillsBegin(w: Window, tick: int)
    requires Filling(w, tick) && w.idx < w.end && w.idx < WINDOW
    ensures w.idx + w.skip == |w.fx.live| == w.idx && |w.fx.live| < RING && |w.fx.slots| == SLOTS && tick == 0
    ensures WindowOk(w, tick) && w.fx.dither == 0
  {
  }

  lemma FillsOn(w: Window, tick: int, s: Window, fx: Fx, e: Entry)
    requires Filling(w, tick) && w.idx < WINDOW && WindowOk(s, tick) && s.idx == w.idx + 1 && !s.verify
    requires fx.dither == 0 && s.fx == fx.(live := w.fx.live + [e]) && fx.base == w.fx.base
    ensures Filling(s, tick) && s.end == WINDOW
  {
  }

  lemma StepFills(w: Window, tick: int)
    requires Filling(w, tick) && w.idx < w.end && w.idx < WINDOW
    ensures var s := Step(w, tick);
            var c := Compute(w.fx, tick + w.idx, tick);
            && Filling(s, tick) && s.fx == c.0.(live := w.fx.live + [c.1]) && c.1.carry == c.0.carry
            && s.idx == w.idx + 1 && s.end == WINDOW
  {
    hide *;
    FillsBegin(w, tick);
    var c := Compute(w.fx, tick + w.idx, tick);
    ComputeAtZero(w.fx, tick + w.idx, tick);
    StepGrown(w, tick);
    AppendFills(c.0, c.1);
    FillsOn(w, tick, Step(w, tick), c.0, c.1);
  }

  lemma {:induction false} LoopFills(w: Window, tick: int)
    requires Filling(w, tick) && w.end == WINDOW
    ensures var r := Loop(w, tick).fx;
            && |r.live| == WINDOW && r.live[..|w.fx.live|] == w.fx.live && r.dither == 0 && r.base == w.fx.base
            && r.slots == w.fx.slots && r.tune == w.fx.tune && r.stickX == w.fx.stickX && r.stickY == w.fx.stickY
    decreases w.end - w.idx
  {
    hide Step, Compute, RingOk;
    if w.idx < w.end {
      StepFills(w, tick);
      var s := Step(w, tick);
      LoopFills(s, tick);
      assert s.fx.live[..|w.fx.live|] == w.fx.live;
    }
  }

  /** The window after its first `k` ticks. */
  ghost predicate Loud(w: Window, tick: int, k: nat)
    requires k <= 4
  {
    && Filling(w, tick) && w.idx == k && w.end == WINDOW && w.fx.carry == LoudCarry(k)
    && w.fx.slots == OneConstant() && w.fx.tune == INITIAL && w.fx.stickX == 0 && w.fx.stickY == 0
    && (k > 0 ==> w.fx.live[k - 1].carry == LoudCarry(k))
  }

  lemma LoudCompute(fx: Fx, k: nat, tick: int, base: int)
    requires k <= 4 && tick == k && base == 0 && fx.dither == 0
    requires fx.slots == OneConstant() && fx.tune == INITIAL && fx.carry == LoudCarry(k)
    ensures var c := Compute(fx, tick, base);
            (k < 4 ==> c.1.carry == LoudCarry(k + 1)) && (k == 4 ==> !c.1.pulse)
  {
    LoudTick(k, fx.dither, fx.idle, base);
    hide Tick, OneConstant, LoudCarry;
  }

  lemma LoudStep(w: Window, tick: int, k: nat)
    requires k <= 4 && Loud(w, tick, k)
    ensures var s := Step(w, tick);
            && Filling(s, tick) && s.idx == k + 1 && s.end == WINDOW
            && |s.fx.live| == k + 1 && s.fx.live[..k] == w.fx.live && Loop(w, tick) == Loop(s, tick)
            && s.fx.slots == OneConstant() && s.fx.tune == INITIAL && s.fx.stickX == 0 && s.fx.stickY == 0
            && s.fx.base == w.fx.base
            && (k < 4 ==> Loud(s, tick, k + 1))
            && (k == 4 ==> !s.fx.live[4].pulse)
  {
    hide Compute, Step, OneConstant, LoudCarry, Append;
    StepFills(w, tick);
    LoudCompute(w.fx, k, tick + w.idx, tick);
  }

  /** After the first five ticks: the carry before tick 4, and the pulse of tick 4 muted. */
  lemma {:induction false} LoudLoop(w: Window, tick: int, k: nat)
    requires k <= 4 && Loud(w, tick, k)
    ensures var r := Loop(w, tick).fx;
            && |r.live| == WINDOW && r.live[3].carry == LoudCarry(4) && !r.live[4].pulse && r.dither == 0
            && r.base == w.fx.base
            && r.slots == OneConstant() && r.tune == INITIAL && r.stickX == 0 && r.stickY == 0
    decreases 4 - k
  {
    hide Step, OneConstant, LoudCarry, Loop;
    LoudStep(w, tick, k);
    var s := Step(w, tick);
    if k == 4 {
      LoopFills(s, tick);
      assert Loop(s, tick).fx.live[..5][4] == s.fx.live[4];
      assert Loop(s, tick).fx.live[..5][3] == s.fx.live[..4][3];
    } else {
      LoudLoop(s, tick, k + 1);
    }
  }

  /**
    A window computed at time `first`, and a lookahead at time `again` strictly inside
    the ring it left: the same effect, stick and calibration, and yet "changed".
  */
  ghost predicate ResentUnchanged(fx: Fx, first: int, again: int)
    requires RingOk(fx)
  {
    var once := Evaluate(fx, true, first, []).fx;
    && 1 <= again - once.base < |once.live|
    && Sampled(once) == Sampled(fx) && once.tune == fx.tune
    && Evaluate(once, true, again, []).changed
  }

  /**
    The generator state is not part of a ring entry. A device as it starts, with one
    constant effect, computes its first window at time 0; a lookahead at time 4 then
    judges that effect changed.
  */
  lemma ArmedDitherResendsUnchangedEffect(fx: Fx, first: int, again: int)
    requires fx == Started() && first == 0 && again == 4
    ensures ResentUnchanged(fx, first, again)
  {
    hide *;
    StartedOk(fx);
    var once := Evaluate(fx, true, first, []).fx;
    FirstLook(fx, first);
    LaterLook(fx, once, first, again);
  }

  lemma StartedOk(fx: Fx)
    requires fx == Started()
    ensures RingOk(fx)
  {
    hide OneConstant;
  }

  lemma BeginEmpty(fx: Fx, tick: int)
    requires RingOk(fx) && fx.live == [] && fx.base == tick
    ensures Begin(fx, true, tick) == Window(fx.(slots := Sampled(fx)), 0, WINDOW, 0, false)
  {
    hide UpdateConditions;
  }

  lemma StartsLoud(fx: Fx, tick: int)
    requires fx == Started() && tick == 0
    ensures RingOk(fx) && Loud(Begin(fx, true, tick), tick, 0)
  {
    hide OneConstant, UpdateConditions, Begin;
    ConstantSampled(100);
    BeginEmpty(fx, tick);
  }

  /** The ring the first window leaves. */
  ghost predicate Played(once: Fx) {
    && RingOk(once) && once.base == 0 && |once.live| == WINDOW
    && once.slots == OneConstant() && once.tune == INITIAL && once.stickX == 0 && once.stickY == 0
    && once.live[3].carry == LoudCarry(4) && !once.live[4].pulse && once.dither == 0
  }

  lemma FirstLook(fx: Fx, first: int)
    requires fx == Started() && first == 0 && RingOk(fx)
    ensures Played(Evaluate(fx, true, first, []).fx)
  {
    hide *;
    StartsAtZero(fx);
    LooksThroughLoop(fx, first);
    StartsLoud(fx, first);
    LoudLoop(Begin(fx, true, first), first, 0);
    RingPlayed(Evaluate(fx, true, first, []).fx);
  }

  lemma StartsAtZero(fx: Fx)
    requires fx == Started()
    ensures fx.base == 0
  {
    hide OneConstant;
  }

  lemma LooksThroughLoop(fx: Fx, tick: int)
    requires RingOk(fx)
    ensures WindowOk(Begin(fx, true, tick), tick)
    ensures Evaluate(fx, true, tick, []).fx == Loop(Begin(fx, true, tick), tick).fx
    ensures Begin(fx, true, tick).fx.base == fx.base || fx.base != tick
  {
    hide Loop, UpdateConditions;
  }

  lemma RingPlayed(once: Fx)
    requires RingOk(once) && once.base == 0 && |once.live| == WINDOW
    requires once.live[3].carry == LoudCarry(4) && !once.live[4].pulse && once.dither == 0
    requires once.slots == OneConstant() && once.tune == INITIAL && once.stickX == 0 && once.stickY == 0
    ensures Played(once)
  {
    hide OneConstant, LoudCarry;
  }

  lemma LaterLook(fx: Fx, once: Fx, first: int, again: int)
    requires fx == Started() && RingOk(fx) && once == Evaluate(fx, true, first, []).fx && Played(once) && again == 4
    ensures ResentUnchanged(fx, first, again)
  {
    hide OneConstant, LoudCarry, UpdateConditions, Tick, Evaluate;
    ConstantSampled(100);
    FirstTickDecides(once, again);
    LoudTickAgain(once.dither, once.idle, again);
  }
}

/**
  The ring agrees with the plain recurrence it caches: as long as the dither never
  arms, every stored tick is the tick a straight evaluation from the start of the
  ring would produce, so asking again costs no transfer.
*/
module EffectAgreement {
  import opened Words
  import opened Effect
  import opened EffectPulse
  import opened EffectRing

  // ---- the reference: one tick after another, no ring, no dither ----------------------

  function Plain(slots: seq<Slot>, t: Tune, c: Carry, tick: int): Entry {
    var sx := AxisSum(slots, 0, t.strength, tick);
    var sy := AxisSum(slots, 1, t.strength, tick);
    var intensity := Intensity(t, c.fx, c.fy, sx, sy);
    var fed := c.acc + intensity;
    var pulse := fed >= 100;
    Entry(pulse, intensity,
          Carry(Filter(c.fx, sx), Filter(c.fy, sy), if pulse then fed - 100 else fed, 0, c.counter))
  }

  /** Where an evaluation started: the carry it had and the tick it began at. */
  datatype Origin = Origin(seed: Carry, tick: int)

  /** Entry `k` of the straight evaluation from an origin. */
  function Trace(slots: seq<Slot>, t: Tune, o: Origin, k: nat): Entry
    decreases k, 1
  {
    Plain(slots, t, CarryBefore(slots, t, o, k), o.tick + k)
  }

  function CarryBefore(slots: seq<Slot>, t: Tune, o: Origin, k: nat): Carry
    decreases k, 0
  {
    if k == 0 then o.seed else Trace(slots, t, o, k - 1).carry
  }

  /** The dither does not arm in the first `n` ticks of the straight evaluation. */
  ghost predicate Calm(slots: seq<Slot>, t: Tune, o: Origin, n: int) {
    && !t.active && o.seed.burst == 0 && 0 <= o.seed.acc <= 100
    && forall k: nat :: k < n ==> Trace(slots, t, o, k).intensity <= 100
  }

  lemma BoostNonNegative(v: int)
    ensures 0 <= Boost(v)
  {
  }

  lemma IntensityNonNegative(t: Tune, fx: int, fy: int, sx: int, sy: int)
    ensures 0 <= Intensity(t, fx, fy, sx, sy)
  {
    BoostNonNegative(if t.active then TruncDiv(t.duty * t.period + 999, 1000)
                     else Mixed(t, SoftOr(Abs(sx), Abs(sy)), SoftOr(Moved(fx, sx), Moved(fy, sy))));
    hide Boost, Mixed, SoftOr, TruncDiv, Moved;
  }

  lemma PlainInRange(slots: seq<Slot>, t: Tune, c: Carry, tick: int)
    requires 0 <= c.acc <= 100 && Plain(slots, t, c, tick).intensity <= 100
    ensures var p := Plain(slots, t, c, tick).carry; p.burst == 0 && 0 <= p.acc <= 100
    ensures 0 <= Plain(slots, t, c, tick).intensity
  {
    hide AxisSum, Intensity, Filter;
    IntensityNonNegative(t, c.fx, c.fy, AxisSum(slots, 0, t.strength, tick), AxisSum(slots, 1, t.strength, tick));
  }

  lemma {:induction false} CalmCarry(slots: seq<Slot>, t: Tune, o: Origin, k: nat, n: int)
    requires Calm(slots, t, o, n) && k <= n
    ensures var c := CarryBefore(slots, t, o, k); c.burst == 0 && 0 <= c.acc <= 100
  {
    hide Plain;
    if k > 0 {
      CalmCarry(slots, t, o, k - 1, n);
      assert Trace(slots, t, o, k - 1).intensity <= 100;
      PlainInRange(slots, t, CarryBefore(slots, t, o, k - 1), o.tick + k - 1);
    }
  }

  /** With the dither unarmed the engine's tick is the plain one, whatever the generator holds. */
  lemma TickIsPlain(slots: seq<Slot>, t: Tune, c: Carry, dither: u32, idle: int, tick: int, base: int)
    requires !t.active && c.burst == 0 && 0 <= c.acc <= 100
    requires Plain(slots, t, c, tick).intensity <= 100
    ensures Tick(slots, t, c, dither, idle, tick, base).entry == Plain(slots, t, c, tick)
  {
    PlainInRange(slots, t, c, tick);
    hide AxisSum, Intensity, Filter, Pulse;
    var sx := AxisSum(slots, 0, t.strength, tick);
    var sy := AxisSum(slots, 1, t.strength, tick);
    PlainTick(t, c.(fx := Filter(c.fx, sx), fy := Filter(c.fy, sy)), dither,
              Intensity(t, c.fx, c.fy, sx, sy), base);
  }

  // ---- the ring follows the reference --------------------------------------------------

  /** The effect set an evaluation works with: the conditions sampled from the fixed stick. */
  function Sampled(fx: Fx): seq<Slot> {
    UpdateConditions(fx.slots, fx.tune.strength, fx.stickX, fx.stickY)
  }

  /** Sampling a fixed stick again changes nothing. */
  lemma SamplingIsIdempotent(slots: seq<Slot>, strength: int, x: int, y: int)
    ensures var once := UpdateConditions(slots, strength, x, y);
            UpdateConditions(once, strength, x, y) == once
  {
    var once := UpdateConditions(slots, strength, x, y);
    if strength != 0 {
      forall i | 0 <= i < |slots|
        ensures UpdateSlot(once[i], x, y) == once[i]
      {
        hide TruncDiv, ToS8, Clamp;
      }
      assert UpdateConditions(once, strength, x, y) == once;
    }
  }

  /** Every live entry is the straight evaluation's entry for the tick it stands for. */
  ghost predicate Follows(fx: Fx, slots: seq<Slot>, o: Origin) {
    && o.tick <= fx.base
    && forall k :: 0 <= k < |fx.live| ==> fx.live[k] == Trace(slots, fx.tune, o, fx.base - o.tick + k)
  }

  ghost predicate LoopFollows(w: Window, tick: int, o: Origin) {
    && Follows(w.fx, w.fx.slots, o) && o.tick <= tick + w.idx
    && w.fx.carry == CarryBefore(w.fx.slots, w.fx.tune, o, tick + w.idx - o.tick)
  }

  /** No tick before the loop's end arms the dither. */
  ghost predicate LoopCalm(w: Window, tick: int, o: Origin) {
    Calm(w.fx.slots, w.fx.tune, o, tick + w.end - o.tick)
  }

  /** The tick the loop is about to evaluate comes out as the reference has it. */
  lemma ComputeFollows(w: Window, tick: int, o: Origin)
    requires WindowOk(w, tick) && LoopFollows(w, tick, o) && w.idx < w.end && LoopCalm(w, tick, o)
    ensures var e := Trace(w.fx.slots, w.fx.tune, o, tick + w.idx - o.tick);
            Compute(w.fx, tick + w.idx, tick).1 == e
              && CarryBefore(w.fx.slots, w.fx.tune, o, tick + w.idx + 1 - o.tick) == e.carry
  {
    hide Tick, Plain, Follows;
    var slots, t := w.fx.slots, w.fx.tune;
    var n := tick + w.idx - o.tick;
    CalmCarry(slots, t, o, n, tick + w.end - o.tick);
    assert Trace(slots, t, o, n).intensity <= 100;
    TickIsPlain(slots, t, w.fx.carry, w.fx.dither, w.fx.idle, tick + w.idx, tick);
  }

  /** Appending the next reference entry, with or without rolling the oldest out. */
  lemma AppendFollows(fx: Fx, o: Origin, e: Entry)
    requires RingOk(fx) && Follows(fx, fx.slots, o)
    requires e == Trace(fx.slots, fx.tune, o, fx.base + |fx.live| - o.tick)
    ensures Follows(Append(fx, e), fx.slots, o)
  {
    hide Trace;
  }

  /** A stored tick that agrees is stored again as it was. */
  lemma StepStored(w: Window, tick: int)
    requires WindowOk(w, tick) && w.idx < w.end && w.idx + w.skip < |w.fx.live|
    requires w.fx.live[w.idx + w.skip] == Compute(w.fx, tick + w.idx, tick).1
    ensures Step(w, tick) == Window(Compute(w.fx, tick + w.idx, tick).0, w.idx + 1, w.end, w.skip, w.verify)
  {
    hide Compute;
    var (fx, e) := Compute(w.fx, tick + w.idx, tick);
    assert fx.live[w.idx + w.skip := e] == fx.live;
  }

  lemma StepGrown(w: Window, tick: int)
    requires WindowOk(w, tick) && w.idx < w.end && w.idx + w.skip == |w.fx.live|
    ensures var c := Compute(w.fx, tick + w.idx, tick);
            Step(w, tick).fx == Append(c.0, c.1) && Step(w, tick).idx == w.idx + 1 && !w.verify
  {
    hide Compute, Append;
  }

  /** The window position stands for the reference entry with the same tick. */
  lemma StoredIsReference(w: Window, tick: int, o: Origin)
    requires WindowOk(w, tick) && LoopFollows(w, tick, o) && w.idx + w.skip < |w.fx.live|
    ensures w.fx.live[w.idx + w.skip] == Trace(w.fx.slots, w.fx.tune, o, tick + w.idx - o.tick)
  {
    hide Trace, CarryBefore;
  }

  lemma StoredFollows(w: Window, tick: int, o: Origin)
    requires WindowOk(w, tick) && LoopFollows(w, tick, o) && w.idx < w.end && LoopCalm(w, tick, o)
    requires w.idx + w.skip < |w.fx.live|
    ensures LoopFollows(Step(w, tick), tick, o) && Step(w, tick).verify == w.verify
  {
    hide Compute, Trace, CarryBefore, Calm, Step, Follows, RingOk, Append;
    ComputeFollows(w, tick, o);
    StoredIsReference(w, tick, o);
    StepStored(w, tick);
    CarryIsFree(w.fx, Compute(w.fx, tick + w.idx, tick).0, o);
  }

  lemma CarryIsFree(fx: Fx, r: Fx, o: Origin)
    requires Follows(fx, fx.slots, o) && r == fx.(carry := r.carry, dither := r.dither, idle := r.idle)
    ensures Follows(r, r.slots, o)
  {
    hide Trace;
  }

  lemma GrownFollows(w: Window, tick: int, o: Origin)
    requires WindowOk(w, tick) && LoopFollows(w, tick, o) && w.idx < w.end && LoopCalm(w, tick, o)
    requires w.idx + w.skip == |w.fx.live|
    ensures LoopFollows(Step(w, tick), tick, o) && !w.verify
  {
    hide Compute, Trace, CarryBefore, Calm, Step, Append, Follows;
    ComputeFollows(w, tick, o);
    StepGrown(w, tick);
    var (fx, e) := Compute(w.fx, tick + w.idx, tick);
    CarryIsFree(w.fx, fx, o);
    AppendFollows(fx, o, e);
    AppendKeeps(fx, e);
  }

  lemma StepFollows(w: Window, tick: int, o: Origin)
    requires WindowOk(w, tick) && LoopFollows(w, tick, o) && w.idx < w.end && LoopCalm(w, tick, o)
    ensures LoopFollows(Step(w, tick), tick, o) && LoopCalm(Step(w, tick), tick, o)
    ensures w.verify ==> Step(w, tick).verify
  {
    hide LoopFollows, Calm, Step;
    if w.idx + w.skip < |w.fx.live| {
      StoredFollows(w, tick, o);
    } else {
      GrownFollows(w, tick, o);
    }
  }

  lemma AppendKeeps(fx: Fx, e: Entry)
    requires RingOk(fx)
    ensures var r := Append(fx, e); r.slots == fx.slots && r.tune == fx.tune && r.carry == fx.carry
  {
  }

  lemma {:induction false} LoopKeepsFollowing(w: Window, tick: int, o: Origin)
    requires WindowOk(w, tick) && LoopFollows(w, tick, o) && LoopCalm(w, tick, o)
    ensures LoopFollows(Loop(w, tick), tick, o)
    ensures w.verify ==> Loop(w, tick).verify
    decreases w.verify, w.end - w.idx
  {
    hide LoopFollows, Calm, Step;
    if w.idx < w.end {
      StepFollows(w, tick, o);
      LoopKeepsFollowing(Step(w, tick), tick, o);
    }
  }

  /** A request outside the ring starts a new straight evaluation from the engine's current carry. */
  ghost function OriginAfter(fx: Fx, o: Origin, tick: int): Origin {
    if 1 <= tick - fx.base <= |fx.live| then o else Origin(fx.carry, tick)
  }

  /** The first tick an evaluation does not look at: the end of the ring for a verification, of the window otherwise. */
  ghost function Horizon(fx: Fx, lookahead: bool, tick: int): int {
    if lookahead && 1 <= tick - fx.base < |fx.live| then fx.base + |fx.live| else tick + WINDOW
  }

  /** The ticks this evaluation looks at, and those its carry goes back to, do not arm the dither. */
  ghost predicate CallCalm(fx: Fx, lookahead: bool, tick: int, o: Origin) {
    Calm(Sampled(fx), fx.tune, OriginAfter(fx, o, tick), Horizon(fx, lookahead, tick) - OriginAfter(fx, o, tick).tick)
  }

  lemma BeginFollows(fx: Fx, lookahead: bool, tick: int, o: Origin)
    requires RingOk(fx) && Follows(fx, Sampled(fx), o)
    ensures LoopFollows(Begin(fx, lookahead, tick), tick, OriginAfter(fx, o, tick))
    ensures var w := Begin(fx, lookahead, tick);
            && w.fx.slots == Sampled(fx) && w.fx.tune == fx.tune
            && tick + w.end == Horizon(fx, lookahead, tick)
  {
    hide Trace, UpdateConditions;
    var w := Begin(fx, lookahead, tick);
    var o1 := OriginAfter(fx, o, tick);
    var n := tick + w.idx - o1.tick;
    if o1 == o && 1 <= tick - fx.base <= |fx.live| {
      assert CarryBefore(Sampled(fx), fx.tune, o, n) == Trace(Sampled(fx), fx.tune, o, n - 1).carry;
    }
  }

  lemma EvaluateFollows(fx: Fx, lookahead: bool, tick: int, payload: seq<bool>, o: Origin)
    requires RingOk(fx) && Follows(fx, Sampled(fx), o) && CallCalm(fx, lookahead, tick, o)
    ensures var r := Evaluate(fx, lookahead, tick, payload).fx;
            && Follows(r, Sampled(r), OriginAfter(fx, o, tick))
            && Sampled(r) == Sampled(fx) && r.tune == fx.tune
  {
    BeginFollows(fx, lookahead, tick, o);
    var w := Begin(fx, lookahead, tick);
    LoopKeepsFollowing(w, tick, OriginAfter(fx, o, tick));
    LoopKeepsStick(w, tick);
    SamplingIsIdempotent(fx.slots, fx.tune.strength, fx.stickX, fx.stickY);
    hide Loop, Follows, Calm, UpdateConditions;
  }

  lemma {:induction false} LoopKeepsStick(w: Window, tick: int)
    requires WindowOk(w, tick)
    ensures var r := Loop(w, tick).fx; r.stickX == w.fx.stickX && r.stickY == w.fx.stickY
    decreases w.verify, w.end - w.idx
  {
    hide Compute;
    if w.idx < w.end {
      LoopKeepsStick(Step(w, tick), tick);
    }
  }

  // ---- any sequence of evaluations -----------------------------------------------------

  /** One call: lookahead or extend, at some tick. */
  datatype Call = Call(lookahead: bool, tick: int)

  function RunCalls(fx: Fx, calls: seq<Call>): (r: Fx)
    requires RingOk(fx)
    ensures RingOk(r)
    decreases |calls|
  {
    if calls == [] then fx
    else RunCalls(Evaluate(fx, calls[0].lookahead, calls[0].tick, []).fx, calls[1..])
  }

  ghost function FinalOrigin(fx: Fx, o: Origin, calls: seq<Call>): Origin
    requires RingOk(fx)
    decreases |calls|
  {
    if calls == [] then o
    else FinalOrigin(Evaluate(fx, calls[0].lookahead, calls[0].tick, []).fx,
                     OriginAfter(fx, o, calls[0].tick), calls[1..])
  }

  /** No tick these calls look at arms the dither. */
  ghost predicate AllCalm(fx: Fx, o: Origin, calls: seq<Call>)
    requires RingOk(fx)
    decreases |calls|
  {
    calls != [] ==>
      && CallCalm(fx, calls[0].lookahead, calls[0].tick, o)
      && AllCalm(Evaluate(fx, calls[0].lookahead, calls[0].tick, []).fx, OriginAfter(fx, o, calls[0].tick), calls[1..])
  }

  /**
    After any compute, verify and extend calls, in any order and at any ticks, each
    live entry still equals the straight tick-by-tick evaluation.
  */
  lemma {:induction false} RingAgreesWithRecurrence(fx: Fx, o: Origin, calls: seq<Call>)
    requires RingOk(fx) && Follows(fx, Sampled(fx), o) && AllCalm(fx, o, calls)
    ensures var r := RunCalls(fx, calls); Follows(r, Sampled(r), FinalOrigin(fx, o, calls))
    decreases |calls|
  {
    if calls != [] {
      var next := Evaluate(fx, calls[0].lookahead, calls[0].tick, []).fx;
      var o1 := OriginAfter(fx, o, calls[0].tick);
      EvaluateFollows(fx, calls[0].lookahead, calls[0].tick, [], o);
      hide Evaluate, CallCalm, Follows, Sampled;
      RingAgreesWithRecurrence(next, o1, calls[1..]);
    }
  }

  /** An evaluation changes neither the sampled effect set nor the calibration. */
  lemma EvaluateSamples(fx: Fx, lookahead: bool, tick: int)
    requires RingOk(fx)
    ensures var r := Evaluate(fx, lookahead, tick, []).fx; Sampled(r) == Sampled(fx) && r.tune == fx.tune
  {
    LoopKeepsStick(Begin(fx, lookahead, tick), tick);
    SamplingIsIdempotent(fx.slots, fx.tune.strength, fx.stickX, fx.stickY);
    hide Loop, UpdateConditions;
  }
}

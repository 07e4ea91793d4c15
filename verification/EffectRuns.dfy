/**
  Whole runs of the engine: effects programmed, the stick moved, the calibration
  edited and windows evaluated in any order. With at most eight slots running at
  every tick looked at nothing overflows; with nine it can.
*/
module EffectRuns {
  import opened Words
  import opened Effect
  import opened EffectBounds
  import opened EffectRing
  import opened EffectAgreement

  type s8 = x: int | -128 <= x <= 127

  datatype Action =
    | Program(slots: seq<Slot>)
    | Tilt(x: int, y: int)
    | Calibrate(hi: bv8, lo: bv8, rawX: s8, rawY: s8)
    | Forget
    | Ask(lookahead: bool, tick: int)

  /** One action. Forgetting empties the ring, as the engine does once it has stopped an idle motor. */
  function Act(fx: Fx, a: Action): (r: Fx)
    requires RingOk(fx)
    ensures RingOk(r)
  {
    match a
    case Program(slots) => if |slots| == SLOTS then fx.(slots := slots) else fx
    case Tilt(x, y) => fx.(stickX := x, stickY := y)
    case Calibrate(hi, lo, rawX, rawY) => fx.(tune := TuneUpdate(fx.tune, hi, lo, rawX, rawY).tune)
    case Forget => fx.(live := [])
    case Ask(lookahead, tick) => Evaluate(fx, lookahead, tick, []).fx
  }

  function Run(fx: Fx, actions: seq<Action>): (r: Fx)
    requires RingOk(fx)
    ensures RingOk(r)
    decreases |actions|
  {
    if actions == [] then fx else Run(Act(fx, actions[0]), actions[1..])
  }

  // ---- what fits ------------------------------------------------------------------------

  /** No 32-bit operation of this tick's intensity overflows. */
  ghost predicate TickFits(fx: Fx, tick: int) {
    AllFit(Intermediates(fx.tune, fx.carry.fx, fx.carry.fy,
                         AxisSum(fx.slots, 0, fx.tune.strength, tick), AxisSum(fx.slots, 1, fx.tune.strength, tick)))
  }

  /** None does in any tick from here on to the end of the evaluation. */
  ghost predicate LoopFits(w: Window, tick: int)
    requires WindowOk(w, tick)
    decreases w.verify, w.end - w.idx
  {
    w.idx < w.end ==> TickFits(w.fx, tick + w.idx) && LoopFits(Step(w, tick), tick)
  }

  ghost predicate RunFits(fx: Fx, actions: seq<Action>)
    requires RingOk(fx)
    decreases |actions|
  {
    actions != [] ==>
      && (actions[0].Ask? ==> LoopFits(Begin(fx, actions[0].lookahead, actions[0].tick), actions[0].tick))
      && RunFits(Act(fx, actions[0]), actions[1..])
  }

  /** At most `limit` slots run at any tick of the given stretch. */
  ghost predicate AtMost(slots: seq<Slot>, limit: nat, from: int, to: int) {
    forall t: int :: from <= t < to ==> ActiveCount(slots, t) <= limit
  }

  /** The stretch an evaluation can look at. */
  function Reach(fx: Fx, tick: int): int {
    Max(tick + WINDOW, fx.base + |fx.live|)
  }

  /** At most `limit` slots run at any tick the run looks at. */
  ghost predicate NeverMore(fx: Fx, actions: seq<Action>, limit: nat)
    requires RingOk(fx)
    decreases |actions|
  {
    actions != [] ==>
      && (actions[0].Ask? ==> AtMost(fx.slots, limit, actions[0].tick, Reach(fx, actions[0].tick)))
      && NeverMore(Act(fx, actions[0]), actions[1..], limit)
  }

  // ---- eight slots ------------------------------------------------------------------------

  ghost predicate CarrySettled(c: Carry) {
    Settled(c.fx, c.fy, 1016)
  }

  /** What every run keeps: the calibration's ranges, and the filters' in the carry and in every entry. */
  ghost predicate Bounded(fx: Fx) {
    && Calibrated(fx.tune) && CarrySettled(fx.carry)
    && forall k :: 0 <= k < |fx.live| ==> CarrySettled(fx.live[k].carry)
  }

  lemma {:induction false} SamplingKeepsCount(slots: seq<Slot>, strength: int, x: int, y: int, tick: int)
    ensures ActiveCount(UpdateConditions(slots, strength, x, y), tick) == ActiveCount(slots, tick)
    decreases |slots|
  {
    hide UpdateSlot, Active;
    if slots != [] && strength != 0 {
      var r := UpdateConditions(slots, strength, x, y);
      assert r[1..] == UpdateConditions(slots[1..], strength, x, y);
      SamplingKeepsCount(slots[1..], strength, x, y, tick);
      SamplingKeepsActive(slots[0], x, y, tick);
    }
  }

  lemma SamplingKeepsActive(s: Slot, x: int, y: int, tick: int)
    ensures Active(UpdateSlot(s, x, y), tick) == Active(s, tick)
  {
    hide ConditionOutput;
  }

  /** One tick with at most eight slots running. */
  lemma ComputeBounded(fx: Fx, tick: int, base: int)
    requires Calibrated(fx.tune) && CarrySettled(fx.carry) && ActiveCount(fx.slots, tick) <= MAX_RUNNING
    ensures TickFits(fx, tick)
    ensures CarrySettled(Compute(fx, tick, base).1.carry) && CarrySettled(Compute(fx, tick, base).0.carry)
  {
    EightSlotsFit(fx.slots, fx.tune, fx.carry, tick);
    hide AllFit, Intermediates, AxisSum, ActiveCount, Calibrated, Settled, Filter, Intensity;
    PulseKeepsFilters(fx, tick, base);
  }

  lemma PulseKeepsFilters(fx: Fx, tick: int, base: int)
    ensures var c := Compute(fx, tick, base).1.carry;
            && c.fx == Filter(fx.carry.fx, AxisSum(fx.slots, 0, fx.tune.strength, tick))
            && c.fy == Filter(fx.carry.fy, AxisSum(fx.slots, 1, fx.tune.strength, tick))
  {
    hide AxisSum, Filter, Intensity, Stir, StirAgain, Threshold, TunePulse;
  }

  lemma PutBounded(fx: Fx, e: Entry, n: nat)
    requires Bounded(fx) && n < |fx.live| && CarrySettled(e.carry)
    ensures Bounded(fx.(live := fx.live[n := e])) && Bounded(fx.(live := fx.live[..n] + [e]))
  {
    hide CarrySettled;
  }

  lemma AppendBounded(fx: Fx, e: Entry)
    requires RingOk(fx) && Bounded(fx) && CarrySettled(e.carry)
    ensures Bounded(Append(fx, e))
  {
    hide CarrySettled;
  }

  /** A step stores what it computed, over an old entry or after all of them. */
  lemma StepStores(w: Window, tick: int)
    requires WindowOk(w, tick) && w.idx < w.end
    ensures var n := w.idx + w.skip;
            var c := Compute(w.fx, tick + w.idx, tick);
            var s := Step(w, tick);
            && RingOk(c.0) && c.0.live == w.fx.live
            && tick + s.end <= Max(tick + WINDOW, tick + w.end)
            && if n < |w.fx.live| then
                 s.fx == c.0.(live := c.0.live[n := c.1]) || s.fx == c.0.(live := c.0.live[..n] + [c.1])
               else s.fx == Append(c.0, c.1)
  {
    hide Compute, Append;
  }

  lemma StepBounded(w: Window, tick: int)
    requires WindowOk(w, tick) && w.idx < w.end && Bounded(w.fx)
    requires ActiveCount(w.fx.slots, tick + w.idx) <= MAX_RUNNING
    ensures TickFits(w.fx, tick + w.idx) && Bounded(Step(w, tick).fx)
  {
    hide *;
    BoundedParts(w.fx);
    ComputeBounded(w.fx, tick + w.idx, tick);
    var c := Compute(w.fx, tick + w.idx, tick);
    CarryBounded(w.fx, c.0);
    StepStores(w, tick);
    if w.idx + w.skip < |w.fx.live| {
      PositionOk(w, tick);
      PutBounded(c.0, c.1, w.idx + w.skip);
    } else {
      AppendBounded(c.0, c.1);
    }
  }

  lemma PositionOk(w: Window, tick: int)
    requires WindowOk(w, tick)
    ensures 0 <= w.idx + w.skip <= |w.fx.live|
  {
  }

  lemma BoundedParts(fx: Fx)
    requires Bounded(fx)
    ensures Calibrated(fx.tune) && CarrySettled(fx.carry)
  {
  }

  lemma CarryBounded(fx: Fx, r: Fx)
    requires Bounded(fx) && CarrySettled(r.carry)
    requires r == fx.(carry := r.carry, dither := r.dither, idle := r.idle)
    ensures Bounded(r)
  {
    hide CarrySettled;
  }

  lemma {:induction false} LoopBounded(w: Window, tick: int, end: int)
    requires WindowOk(w, tick) && Bounded(w.fx) && AtMost(w.fx.slots, MAX_RUNNING, tick, end)
    requires tick + w.end <= end && tick + WINDOW <= end
    ensures LoopFits(w, tick) && Bounded(Loop(w, tick).fx)
    decreases w.verify, w.end - w.idx
  {
    hide Bounded, TickFits, Step;
    if w.idx < w.end {
      StepBounded(w, tick);
      StepStores(w, tick);
      LoopBounded(Step(w, tick), tick, end);
    }
  }

  lemma BeginBounded(fx: Fx, lookahead: bool, tick: int)
    requires RingOk(fx) && Bounded(fx)
    ensures var w := Begin(fx, lookahead, tick);
            Bounded(w.fx) && w.fx.slots == Sampled(fx) && tick + w.end <= Reach(fx, tick)
  {
    hide CarrySettled, UpdateConditions;
  }

  lemma SampledAtMost(fx: Fx, limit: nat, from: int, to: int)
    requires AtMost(fx.slots, limit, from, to)
    ensures AtMost(Sampled(fx), limit, from, to)
  {
    forall t: int | from <= t < to
      ensures ActiveCount(Sampled(fx), t) <= limit
    {
      SamplingKeepsCount(fx.slots, fx.tune.strength, fx.stickX, fx.stickY, t);
      assert ActiveCount(fx.slots, t) <= limit;
    }
  }

  lemma AskBounded(fx: Fx, lookahead: bool, tick: int)
    requires RingOk(fx) && Bounded(fx) && AtMost(fx.slots, MAX_RUNNING, tick, Reach(fx, tick))
    ensures LoopFits(Begin(fx, lookahead, tick), tick)
    ensures Bounded(Evaluate(fx, lookahead, tick, []).fx)
  {
    hide Bounded, AtMost, LoopFits, Loop, Begin;
    BeginBounded(fx, lookahead, tick);
    SampledAtMost(fx, MAX_RUNNING, tick, Reach(fx, tick));
    LoopBounded(Begin(fx, lookahead, tick), tick, Reach(fx, tick));
  }

  lemma ActBounded(fx: Fx, a: Action)
    requires RingOk(fx) && Bounded(fx)
    requires a.Ask? ==> AtMost(fx.slots, MAX_RUNNING, a.tick, Reach(fx, a.tick))
    ensures a.Ask? ==> LoopFits(Begin(fx, a.lookahead, a.tick), a.tick)
    ensures Bounded(Act(fx, a))
  {
    hide AtMost, LoopFits, Evaluate, CarrySettled, TuneUpdate, Calibrated, Begin;
    match a
    case Ask(lookahead, tick) => AskBounded(fx, lookahead, tick);
    case Calibrate(hi, lo, rawX, rawY) => TuneKeepsCalibration(fx.tune, hi, lo, rawX, rawY);
    case _ =>
  }

  /**
    Whatever is programmed, tilted, calibrated and asked for, in any order: as long as
    at most eight slots run at any tick looked at, the filters stay within 6 * 1016,
    in the carry and in every ring entry it is seeded from, and no intermediate value
    of any tick leaves the 32-bit range.
  */
  lemma {:induction false} EightSlotsNeverOverflow(fx: Fx, actions: seq<Action>)
    requires RingOk(fx) && Bounded(fx) && NeverMore(fx, actions, MAX_RUNNING)
    ensures RunFits(fx, actions) && Bounded(Run(fx, actions))
    decreases |actions|
  {
    hide Bounded, Act, LoopFits, AtMost;
    if actions != [] {
      ActBounded(fx, actions[0]);
      EightSlotsNeverOverflow(Act(fx, actions[0]), actions[1..]);
    }
  }
}

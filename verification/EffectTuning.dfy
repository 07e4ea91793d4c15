/** The springs of a calibration effect, and what the stick and the buttons make of the calibration. */
module EffectTuning {
  import opened Words
  import opened Effect

  // ---- springs ---------------------------------------------------------------------------

  /** Where the stick stands from a spring's centre, and how far its dead band reaches. */
  function Offset(c: Condition, stick: int): int {
    stick - TruncDiv(c.center * STICK_LIMIT, FX_CLAMP)
  }

  function Dead(c: Condition): int {
    Abs(TruncDiv(c.deadBand * STICK_LIMIT, FX_CLAMP))
  }

  /** The spring seen from the other side. */
  function Mirrored(c: Condition): Condition {
    c.(center := -c.center, positiveCoeff := c.negativeCoeff, negativeCoeff := c.positiveCoeff,
       positiveSat := c.negativeSat, negativeSat := c.positiveSat)
  }

  /** What a side of a spring may push with. */
  predicate Narrow(c: Condition) {
    Abs(c.positiveSat) <= FX_CLAMP && Abs(c.negativeSat) <= FX_CLAMP
  }

  /** A spring at rest: inside its dead band it pushes with nothing. */
  lemma SpringRests(c: Condition, stick: int)
    requires Abs(Offset(c, stick)) <= Dead(c)
    ensures ConditionOutput(c, stick) == 0
  {
    assert TruncDiv(0, STICK_LIMIT) == 0;
    hide TruncDiv;
    assert forall x :: 0 * x == 0;
  }

  /** The force of one side: its coefficient's share of the way past the dead band, cut at its saturation. */
  function Force(coeff: int, sat: int, reach: int): int {
    var limit := if sat == 0 then FX_CLAMP else Abs(sat);
    Clamp(TruncDiv(coeff * reach, STICK_LIMIT), -limit, limit)
  }

  /** Outside it each side answers for itself, measured from the edge of the dead band. */
  lemma SpringPushes(c: Condition, stick: int)
    requires Narrow(c) && Abs(Offset(c, stick)) > Dead(c)
    ensures var d, dead := Offset(c, stick), Dead(c);
            && (d > dead ==> ConditionOutput(c, stick) == Force(c.positiveCoeff, c.positiveSat, d - dead))
            && (d < -dead ==> ConditionOutput(c, stick) == Force(c.negativeCoeff, c.negativeSat, d + dead))
  {
    hide TruncDiv;
  }

  lemma TruncOdd(a: int, b: int)
    requires b > 0
    ensures TruncDiv(-a, b) == -TruncDiv(a, b)
  {
  }

  lemma MirroredStands(c: Condition, stick: int)
    ensures Offset(Mirrored(c), -stick) == -Offset(c, stick) && Dead(Mirrored(c)) == Dead(c) && Dead(c) >= 0
  {
    TruncOdd(c.center * STICK_LIMIT, FX_CLAMP);
    assert -c.center * STICK_LIMIT == -(c.center * STICK_LIMIT);
    hide TruncDiv;
  }

  /** Turning the spring and the stick round turns the force round. */
  lemma SpringIsOdd(c: Condition, stick: int)
    requires Narrow(c)
    ensures ConditionOutput(Mirrored(c), -stick) == -ConditionOutput(c, stick)
  {
    var m, d, dead := Mirrored(c), Offset(c, stick), Dead(c);
    MirroredStands(c, stick);
    hide ConditionOutput, Offset, Dead, Force;
    if d > dead {
      SpringPushes(c, stick);
      SpringPushes(m, -stick);
      ForceIsOdd(c.positiveCoeff, c.positiveSat, d - dead);
    } else if d < -dead {
      SpringPushes(c, stick);
      SpringPushes(m, -stick);
      ForceIsOdd(c.negativeCoeff, c.negativeSat, d + dead);
    } else {
      SpringRests(c, stick);
      SpringRests(m, -stick);
    }
  }

  lemma ForceIsOdd(coeff: int, sat: int, reach: int)
    ensures Force(coeff, sat, -reach) == -Force(coeff, sat, reach)
  {
    assert coeff * -reach == -(coeff * reach);
    TruncOdd(coeff * reach, STICK_LIMIT);
    hide TruncDiv;
  }

  /** A side with a coefficient above zero pushes no less the further the stick goes. */
  lemma ForceGrows(coeff: int, sat: int, reach: int, further: int)
    requires coeff >= 0 && reach <= further
    ensures Force(coeff, sat, reach) <= Force(coeff, sat, further)
  {
    ProductGrows(coeff, reach, further);
    TruncMonotone(coeff * reach, coeff * further, STICK_LIMIT);
    hide TruncDiv;
  }

  lemma ProductGrows(c: int, a: int, b: int)
    requires c >= 0 && a <= b
    ensures c * a <= c * b
  {
  }

  lemma TruncMonotone(a: int, b: int, d: int)
    requires d > 0 && a <= b
    ensures TruncDiv(a, d) <= TruncDiv(b, d)
  {
    if a >= 0 {
      QuotientGrows(a, b, d);
    } else if b < 0 {
      QuotientGrows(-b, -a, d);
    } else {
      QuotientGrows(0, -a, d);
      QuotientGrows(0, b, d);
    }
  }

  lemma QuotientGrows(a: int, b: int, d: int)
    requires d > 0 && 0 <= a <= b
    ensures 0 <= a / d <= b / d
  {
    Divided(a, d, a / d);
    Divided(b, d, b / d);
    QuotientsInOrder(a, b, d, a / d, b / d);
  }

  lemma Divided(n: int, d: int, q: int)
    requires d > 0 && q == n / d
    ensures d * q <= n < d * q + d
  {
    assert n == d * q + n % d;
  }

  lemma QuotientsInOrder(a: int, b: int, d: int, q: int, p: int)
    requires d > 0 && 0 <= a <= b && d * q <= a < d * q + d && d * p <= b < d * p + d
    ensures 0 <= q <= p
  {
    Scaled(d, q - p);
    Scaled(d, q);
    assert d * (q - p) == d * q - d * p;
  }

  /** A spring's force reaches the axis it belongs to, and no other: x from the stick's x, y from its y. */
  lemma SpringsDriveTheirAxes(slots: seq<Slot>, i: nat, x: int, y: int, elapsed: int)
    requires i < |slots| && slots[i].tuning && slots[i].running
    requires forall axis: nat, e: int, base: int :: slots[i].shape(axis, e, base) == base
    ensures var s := UpdateConditions(slots, 100, x, y)[i];
            && AxisValue(s, 0, 100, elapsed) == Clamp(ConditionOutput(slots[i].x, x), -FX_CLAMP, FX_CLAMP)
            && AxisValue(s, 1, 100, elapsed) == Clamp(ConditionOutput(slots[i].y, y), -FX_CLAMP, FX_CLAMP)
  {
    hide ConditionOutput;
  }

  // ---- time ------------------------------------------------------------------------------

  /** The same effects, begun later. */
  function Delayed(slots: seq<Slot>, k: int): (r: seq<Slot>)
    ensures |r| == |slots|
  {
    if slots == [] then [] else [slots[0].(start := slots[0].start + k)] + Delayed(slots[1..], k)
  }

  /** Only the time since an effect began counts. */
  lemma {:induction false} DelayOnlyDelays(slots: seq<Slot>, k: int, axis: nat, strength: int, tick: int)
    ensures AxisSum(Delayed(slots, k), axis, strength, tick + k) == AxisSum(slots, axis, strength, tick)
    ensures ActiveCount(Delayed(slots, k), tick + k) == ActiveCount(slots, tick)
    decreases |slots|
  {
    if slots != [] {
      var late := Delayed(slots, k);
      assert late[1..] == Delayed(slots[1..], k);
      DelayOnlyDelays(slots[1..], k, axis, strength, tick);
    }
  }

  /** The calibration's own beat: a cycle of twelve ticks, of which those up to the complement's share pulse. */
  lemma CalibrationBeats(t: Tune, counter: int, pulse: bool)
    requires t.active && 0 <= counter < 12 && 0 <= t.complement && 0 <= t.period
    ensures var raw := t.complement * t.period;
            && TunePulse(t, counter, pulse).0 == (counter + 1) % 12
            && (TunePulse(t, counter, pulse).1 <==> pulse || (raw > 0 && 11112 * counter <= raw + 8000))
  {
    var raw := t.complement * t.period;
    assert raw >= 0;
    assert (raw + 8000) / 11112 >= counter <==> 11112 * counter <= raw + 8000;
  }

  // ---- the calibration -------------------------------------------------------------------

  /**
    The share of a full swing the stick stands at, read downwards: 0 at the top, 50 at rest,
    100 at the bottom. The negation wraps at -128, which counts as the top.
  */
  predicate DutyOf(duty: int, rawY: int) {
    if rawY >= 75 || rawY < -127 then duty == 0
    else if rawY <= -75 then duty == 100
    else 24 * duty <= 1200 - 16 * rawY < 24 * (duty + 1)
  }

  /** The square of the swing to the right in 5760ths, to within rounding; nothing at the far left. */
  predicate PeriodOf(period: int, rawX: int) {
    if rawX <= -71 then period == 0
    else if rawX >= 75 then period == 1000
    else
      var x := 1200 + 16 * rawX;
      x * x < 5760 * (period + 1) && period * ((2400000 - x) * (2400000 - x)) <= 1000000000 * (x * x)
  }

  /** The D-pad's presets; any other chord leaves the strength alone. */
  predicate PresetOf(strength: int, was: int, dpad: bv8) {
    strength ==
      if dpad == 8 then 100
      else if dpad == 9 || dpad == 10 then 50
      else if dpad == 1 || dpad == 2 then 25
      else if dpad == 5 || dpad == 6 then 12
      else if dpad == 4 then 0
      else was
  }

  lemma ReciprocalSquare(x: int)
    requires 76 <= x <= 2400
    ensures x * x < 5760 * (Period(x) + 1)
    ensures Period(x) * ((2400000 - x) * (2400000 - x)) <= 1000000000 * (x * x)
  {
    var p: int := 2400000 / x;
    Divided(2400000, x, p);
    Scaled(x, 1000 - p);
    assert x * (1000 - p) == 1000 * x - x * p;
    assert p >= 1000;
    var s: int := p * p;
    Squares(p, 1000);
    var period: int := 1000000000 / s;
    Divided(1000000000, s, period);
    assert Period(x) == period;
    hide Period;
    LowerSide(x, p, period);
    UpperSide(x, p, period);
  }

  lemma Squares(a: int, b: int)
    requires 0 <= b <= a
    ensures b * b <= a * a
  {
  }

  lemma Regroup(a: int, b: int)
    ensures (a * b) * (a * b) == (a * a) * (b * b)
  {
  }

  lemma LowerSide(x: int, p: int, period: int)
    requires x > 0 && p > 0 && 0 < x * p <= 2400000 && 1000000000 < (p * p) * period + p * p
    ensures x * x < 5760 * (period + 1)
  {
    var s, y := p * p, 5760 * (period + 1);
    Squares(2400000, x * p);
    Regroup(x, p);
    assert (x * x) * s <= 5760000000000;
    assert 5760 * (s * period + s) == s * y && s * (x * x) == (x * x) * s;
    if x * x >= y {
      ProductGrows(s, y, x * x);
    }
  }

  lemma UpperSide(x: int, p: int, period: int)
    requires 0 < x <= 2400000 && p > 0 && period >= 0 && 2400000 < x * p + x && (p * p) * period <= 1000000000
    ensures period * ((2400000 - x) * (2400000 - x)) <= 1000000000 * (x * x)
  {
    var r := 2400000 - x;
    Squares(x * p, r);
    Regroup(x, p);
    ProductGrows(period, r * r, (x * x) * (p * p));
    Rearranged(period, x * x, p * p);
    ProductGrows(x * x, (p * p) * period, 1000000000);
  }

  lemma Rearranged(a: int, b: int, c: int)
    ensures a * (b * c) == b * (c * a)
  {
  }

  lemma PeriodIsQuadratic(rawX: int, x: int)
    requires x == Clamp(rawX * 16, -STICK_LIMIT, STICK_LIMIT) + STICK_LIMIT
    ensures PeriodOf(Period(x), rawX) && Period(1200) == 250
  {
    if -71 < rawX < 75 {
      ReciprocalSquare(x);
    }
  }

  lemma DutyIsTheSwing(rawY: int, y: int)
    requires y == if -rawY > 127 then -128 else -rawY
    ensures DutyOf(TruncDiv(Clamp(y * 16, -STICK_LIMIT, STICK_LIMIT) + STICK_LIMIT, 24), rawY)
  {
  }

  /** The calibration taken from one packet: duty from y alone, period from x alone, strength from the D-pad. */
  predicate Follows(r: Tune, t: Tune, lo: bv8, rawX: int, rawY: int) {
    && DutyOf(r.duty, rawY) && r.complement == 100 - r.duty
    && PeriodOf(r.period, rawX) && (rawX == 0 ==> r.period == 250)
    && PresetOf(r.strength, t.strength, lo & 0x0F)
  }

  lemma EntryIsNotExit(hi: bv8, lo: bv8)
    ensures !(Entering(hi, lo) && Leaving(hi, lo))
  {
  }

  /**
    While the mode is on, each packet sets the calibration from the stick and the D-pad, and
    kicks the engine exactly when period or duty changed; the mode stays on while the chord
    is held, is released, or is given again.
  */
  lemma CalibrationFollowsTheStick(t: Tune, hi: bv8, lo: bv8, rawX: int, rawY: int)
    requires t.active && (t.held || Leaving(hi, lo) || Entering(hi, lo))
    ensures var r := TuneUpdate(t, hi, lo, rawX, rawY);
            && r.tune.active && r.tune.held == !Leaving(hi, lo) && Follows(r.tune, t, lo, rawX, rawY)
            && (r.kick <==> r.tune.period != t.period || r.tune.duty != t.duty)
  {
    EntryIsNotExit(hi, lo);
    Edited(rawX, rawY);
    hide Entering, Leaving, Period, TruncDiv, Clamp, PeriodOf, DutyOf;
  }

  /** Any button of the chord pressed again after a release ends the mode, with a last look at the stick and a kick. */
  lemma CalibrationEnds(t: Tune, hi: bv8, lo: bv8, rawX: int, rawY: int)
    requires t.active && !t.held && !Leaving(hi, lo) && !Entering(hi, lo)
    ensures var r := TuneUpdate(t, hi, lo, rawX, rawY);
            !r.tune.active && !r.tune.held && r.kick && Follows(r.tune, t, lo, rawX, rawY)
  {
    Edited(rawX, rawY);
    hide Entering, Leaving, Period, TruncDiv, Clamp, PeriodOf, DutyOf;
  }

  /** The chord begins the mode from a period of zero, so the engine is kicked unless nothing else comes of it. */
  lemma CalibrationBegins(t: Tune, hi: bv8, lo: bv8, rawX: int, rawY: int)
    requires !t.active && Entering(hi, lo)
    ensures var r := TuneUpdate(t, hi, lo, rawX, rawY);
            && r.tune.active && r.tune.held && Follows(r.tune, t, lo, rawX, rawY)
            && (r.kick <==> r.tune.period != 0 || r.tune.duty != t.duty)
  {
    EntryIsNotExit(hi, lo);
    Edited(rawX, rawY);
    hide Entering, Leaving, Period, TruncDiv, Clamp, PeriodOf, DutyOf;
  }

  /** With the mode off and no chord, a packet does not touch the calibration. */
  lemma CalibrationRests(t: Tune, hi: bv8, lo: bv8, rawX: int, rawY: int)
    requires !t.active && !Entering(hi, lo)
    ensures var r := TuneUpdate(t, hi, lo, rawX, rawY);
            r.tune == t.(held := r.tune.held) && !r.kick
  {
  }

  lemma Edited(rawX: int, rawY: int)
    ensures var y := if -rawY > 127 then -128 else -rawY;
            DutyOf(TruncDiv(Clamp(y * 16, -STICK_LIMIT, STICK_LIMIT) + STICK_LIMIT, 24), rawY)
    ensures var x := Clamp(rawX * 16, -STICK_LIMIT, STICK_LIMIT) + STICK_LIMIT;
            PeriodOf(Period(x), rawX) && (rawX == 0 ==> Period(x) == 250)
  {
    DutyIsTheSwing(rawY, if -rawY > 127 then -128 else -rawY);
    PeriodIsQuadratic(rawX, Clamp(rawX * 16, -STICK_LIMIT, STICK_LIMIT) + STICK_LIMIT);
  }
}

/**
  What a calibration makes of an effect: the duty weighs how strong the effect is, its
  complement how far it just moved, and each alone can be followed to the pulses.
*/
module EffectMeaning {
  import opened Words
  import opened Effect
  import opened EffectPulse
  import opened EffectRing
  import opened EffectAgreement

  // ---- the parts -------------------------------------------------------------------------

  /** The soft OR of two magnitudes up to 200: what each leaves open multiplies, to within one unit. */
  lemma SoftOrFillsWhatIsOpen(a: int, b: int)
    requires 0 <= a <= 200 && 0 <= b <= 200
    ensures var open := 200 - SoftOr(a, b);
            && 200 * open <= (200 - a) * (200 - b) < 200 * (open + 1)
            && SoftOr(a, b) == SoftOr(b, a) && Max(a, b) <= SoftOr(a, b) <= Min(a + b, 200)
  {
    OpenBounds(a, b);
    SoftOrOfProduct(a, b, a * b);
    OpenProduct(a, b);
  }

  lemma OpenBounds(a: int, b: int)
    requires 0 <= a <= 200 && 0 <= b <= 200
    ensures 0 <= a * b && a * b <= 200 * a && a * b <= 200 * b && 0 <= (200 - a) * (200 - b)
  {
    NotNegative(a, b);
    NotNegative(a, 200 - b);
    NotNegative(200 - a, b);
    NotNegative(200 - a, 200 - b);
    assert a * (200 - b) == 200 * a - a * b;
    assert (200 - a) * b == 200 * b - a * b;
  }

  lemma NotNegative(a: nat, b: nat)
    ensures a * b >= 0
  {
  }

  lemma OpenProduct(a: int, b: int)
    ensures (200 - a) * (200 - b) == 40000 - 200 * a - 200 * b + a * b
  {
  }

  lemma SoftOrOfProduct(a: int, b: int, m: int)
    requires m == a * b && 0 <= m
    ensures SoftOr(a, b) == SoftOr(b, a) == a + b - m / 200
  {
    assert b * a == m;
  }

  lemma SoftOrAlone(a: int)
    ensures SoftOr(a, 0) == a && SoftOr(0, a) == a
  {
  }

  /** Below 32 a value is moved a third of the way up to 32; below 1 nothing is left; nothing else changes. */
  lemma BoostLifts(v: int, w: int)
    ensures v < 1 ==> Boost(v) == 0
    ensures 1 <= v < 32 ==> 3 * (Boost(v) - v) <= 32 - v < 3 * (Boost(v) - v + 1)
    ensures v >= 32 ==> Boost(v) == v
    ensures v <= w ==> Boost(v) <= Boost(w)
  {
  }

  // ---- the weights -----------------------------------------------------------------------

  /** With the whole duty on the steady part, an effect's history does not matter. */
  lemma FullDutyHasNoMemory(t: Tune, fx: int, fy: int, gx: int, gy: int, sx: int, sy: int)
    requires !t.active && t.complement == 0
    ensures Intensity(t, fx, fy, sx, sy) == Intensity(t, gx, gy, sx, sy)
  {
    NothingWeighs(SoftOr(Moved(fx, sx), Moved(fy, sy)), t.period);
    NothingWeighs(SoftOr(Moved(gx, sx), Moved(gy, sy)), t.period);
    hide SoftOr, Moved, Boost, TruncDiv;
  }

  lemma NothingWeighs(v: int, period: int)
    ensures v * 0 * period == 0 && v * (0 * period) == 0 && TruncDiv(0, 25000) == 0
  {
  }

  /** With no duty, an effect that stands where its low-pass stands drives nothing. */
  lemma NoDutyIgnoresWhatStands(t: Tune, fx: int, fy: int, sx: int, sy: int)
    requires !t.active && t.duty == 0 && TruncDiv(fx, 6) == sx && TruncDiv(fy, 6) == sy
    ensures Intensity(t, fx, fy, sx, sy) == 0
  {
    NothingWeighs(SoftOr(Abs(sx), Abs(sy)), t.period);
    SoftOrAlone(0);
    ZeroWeighs(t.complement, t.period);
    hide SoftOr;
  }

  lemma ZeroWeighs(a: int, b: int)
    ensures 0 * a * b == 0
  {
  }

  /** At unit gain a full duty passes one axis on as it is, up to the low-end lift. */
  lemma FullDutyFollowsTheAxis(t: Tune, fx: int, fy: int, sx: int, sy: int)
    requires !t.active && t.complement == 0 && t.duty * t.period == 25000 && (sx == 0 || sy == 0)
    ensures Intensity(t, fx, fy, sx, sy) == Boost(Abs(sx) + Abs(sy))
  {
    NothingWeighs(SoftOr(Moved(fx, sx), Moved(fy, sy)), t.period);
    var v := Abs(sx) + Abs(sy);
    SoftOrAlone(v);
    UnitGain(v);
    hide SoftOr, Moved, Boost, TruncDiv;
  }

  lemma UnitGain(v: int)
    ensures TruncDiv(v * 25000, 25000) == v
  {
  }

  /** At unit gain no duty passes on how far one axis is from its low-pass, up to the low-end lift. */
  lemma NoDutyFollowsTheChange(t: Tune, fx: int, fy: int, sx: int, sy: int)
    requires !t.active && t.duty == 0 && t.complement * t.period == 25000
    requires Moved(fx, sx) == 0 || Moved(fy, sy) == 0
    ensures Intensity(t, fx, fy, sx, sy) == Boost(Moved(fx, sx) + Moved(fy, sy))
  {
    NothingWeighs(SoftOr(Abs(sx), Abs(sy)), t.period);
    var v := Moved(fx, sx) + Moved(fy, sy);
    SoftOrAlone(v);
    UnitGain(v);
    Grouped(v, t.complement, t.period);
    hide SoftOr, Moved, Boost, TruncDiv;
  }

  lemma Grouped(a: int, b: int, c: int)
    ensures a * b * c == a * (b * c)
  {
  }

  /** While calibrating, only a thousandth of duty times period counts, rounded up: no effect and no filter does. */
  lemma CalibratingIgnoresEffects(t: Tune, fx: int, fy: int, sx: int, sy: int, v: int)
    requires t.active && 0 <= t.duty && 0 <= t.period
    requires 1000 * (v - 1) < t.duty * t.period <= 1000 * v
    ensures Intensity(t, fx, fy, sx, sy) == Boost(v)
  {
    var x := t.duty * t.period;
    assert x >= 0;
    assert (x + 999) / 1000 == v;
    hide SoftOr, Moved, Boost, Mixed;
  }

  // ---- the low-pass ----------------------------------------------------------------------

  /** The filter after `n` ticks of a constant sum. */
  function Settling(f: int, s: int, n: nat): int {
    if n == 0 then f else Filter(Settling(f, s, n - 1), s)
  }

  /** A filter below its input creeps up on it and stays five short of six times the input. */
  lemma {:induction false} FilterRises(f: int, s: int, n: nat)
    requires 0 <= f <= 6 * s - 5
    ensures f <= Settling(f, s, n) <= 6 * s - 5
    ensures n >= 6 * s - 5 - f ==> Settling(f, s, n) == 6 * s - 5
    ensures n < 6 * s - 5 - f ==> Settling(f, s, n) >= f + n
  {
    if n > 0 {
      FilterRises(f, s, n - 1);
      RisingStep(Settling(f, s, n - 1), s);
    }
  }

  lemma RisingStep(f: int, s: int)
    requires 0 <= f <= 6 * s - 5
    ensures f == 6 * s - 5 ==> Filter(f, s) == f
    ensures f < 6 * s - 5 ==> f < Filter(f, s) <= 6 * s - 5
  {
  }

  /** A filter above its input comes down to six times the input. */
  lemma {:induction false} FilterFalls(f: int, s: int, n: nat)
    requires 0 <= 6 * s <= f
    ensures 6 * s <= Settling(f, s, n) <= f
    ensures n >= f - 6 * s ==> Settling(f, s, n) == 6 * s
    ensures n < f - 6 * s ==> Settling(f, s, n) <= f - n
  {
    if n > 0 {
      FilterFalls(f, s, n - 1);
      FallingStep(Settling(f, s, n - 1), s);
    }
  }

  lemma FallingStep(f: int, s: int)
    requires 0 <= 6 * s <= f
    ensures f == 6 * s ==> Filter(f, s) == f
    ensures f > 6 * s ==> 6 * s <= Filter(f, s) < f
  {
  }

  /** Up from below the low-pass stays one short of the input for good; down from above it reaches it. */
  lemma LowPassReaches(f: int, s: int, n: nat)
    requires 0 <= f && 0 <= s && n >= Abs(f - 6 * s)
    ensures f >= 6 * s ==> Moved(Settling(f, s, n), s) == 0
    ensures f <= 6 * s - 5 ==> Moved(Settling(f, s, n), s) == 1
  {
    if f >= 6 * s {
      FilterFalls(f, s, n);
    } else if f <= 6 * s - 5 {
      FilterRises(f, s, n);
    }
    hide Settling;
  }

  // ---- whole runs ------------------------------------------------------------------------

  /** Both axis sums stay what they are over `n` ticks. */
  ghost predicate Held(slots: seq<Slot>, t: Tune, from: int, n: nat, sx: int, sy: int) {
    forall tick :: from <= tick < from + n ==>
      AxisSum(slots, 0, t.strength, tick) == sx && AxisSum(slots, 1, t.strength, tick) == sy
  }

  /** The pulses of the first `n` ticks of a straight evaluation. */
  function Beats(slots: seq<Slot>, t: Tune, o: Origin, n: nat): nat {
    if n == 0 then 0 else Beats(slots, t, o, n - 1) + if Trace(slots, t, o, n - 1).pulse then 1 else 0
  }

  lemma HeldShorter(slots: seq<Slot>, t: Tune, from: int, n: nat, sx: int, sy: int)
    requires n > 0 && Held(slots, t, from, n, sx, sy)
    ensures Held(slots, t, from, n - 1, sx, sy)
  {
  }

  lemma HeldPlain(slots: seq<Slot>, t: Tune, o: Origin, n: nat, sx: int, sy: int, k: nat)
    requires Held(slots, t, o.tick, n, sx, sy) && k < n
    ensures var c := CarryBefore(slots, t, o, k);
            var i := Intensity(t, c.fx, c.fy, sx, sy);
            var fed := c.acc + i;
            var left := if fed >= 100 then fed - 100 else fed;
            var next := Carry(Filter(c.fx, sx), Filter(c.fy, sy), left, 0, c.counter);
            Trace(slots, t, o, k) == Entry(fed >= 100, i, next)
  {
    hide Intensity, Filter, AxisSum;
  }

  /** A steady drive of `v` out of a hundred, fully on the duty, pulses `v` ticks of every hundred. */
  lemma {:induction false} SteadyDriveBeats(slots: seq<Slot>, t: Tune, o: Origin, n: nat, sx: int, sy: int)
    requires !t.active && t.complement == 0 && t.duty * t.period == 25000
    requires Held(slots, t, o.tick, n, sx, sy) && (sx == 0 || sy == 0) && 32 <= Abs(sx) + Abs(sy) <= 100
    requires 0 <= o.seed.acc < 100
    ensures var v := Abs(sx) + Abs(sy);
            && 0 <= CarryBefore(slots, t, o, n).acc < 100
            && 100 * Beats(slots, t, o, n) + CarryBefore(slots, t, o, n).acc == o.seed.acc + n * v
            && Beats(slots, t, o, n) == (o.seed.acc + n * v) / 100
            && forall k: nat :: k < n ==> Trace(slots, t, o, k).intensity == v
  {
    hide Plain, Intensity, AxisSum, Boost, Filter, Held;
    var v := Abs(sx) + Abs(sy);
    if n > 0 {
      HeldShorter(slots, t, o.tick, n, sx, sy);
      SteadyDriveBeats(slots, t, o, n - 1, sx, sy);
      HeldPlain(slots, t, o, n, sx, sy, n - 1);
      var c := CarryBefore(slots, t, o, n - 1);
      FullDutyFollowsTheAxis(t, c.fx, c.fy, sx, sy);
      BoostLifts(v, v);
      assert n * v == (n - 1) * v + v;
    }
  }

  lemma {:induction false} HeldFilters(slots: seq<Slot>, t: Tune, o: Origin, n: nat, sx: int, sy: int, k: nat)
    requires Held(slots, t, o.tick, n, sx, sy) && k <= n
    ensures CarryBefore(slots, t, o, k).fx == Settling(o.seed.fx, sx, k)
    ensures CarryBefore(slots, t, o, k).fy == Settling(o.seed.fy, sy, k)
    decreases k
  {
    hide Plain, Intensity, AxisSum, Filter;
    if k > 0 {
      HeldFilters(slots, t, o, n, sx, sy, k - 1);
      HeldPlain(slots, t, o, n, sx, sy, k - 1);
    }
  }

  /**
    No duty, unit gain, and one axis raised to `s` from rest: the motor starts at the change
    and, six times `s` ticks on, is left at 11 of a hundred for as long as the effect stands,
    because the low-pass stays one short.
  */
  lemma ARaisedEffectNeverFades(slots: seq<Slot>, t: Tune, o: Origin, n: nat, s: int, k: nat)
    requires !t.active && t.duty == 0 && t.complement * t.period == 25000 && s >= 1
    requires Held(slots, t, o.tick, n, s, 0) && o.seed.fx == 0 && o.seed.fy == 0 && k < n
    ensures k == 0 ==> Trace(slots, t, o, k).intensity == Boost(s)
    ensures k >= 6 * s ==> Trace(slots, t, o, k).intensity == 11
  {
    hide *;
    HeldFilters(slots, t, o, n, s, 0, k);
    FilterStays(k);
    HeldPlain(slots, t, o, n, s, 0, k);
    var fx := Settling(0, s, k);
    RestStands(0);
    NoDutyFollowsTheChange(t, fx, 0, s, 0);
    if k >= 6 * s {
      AfterRise(s, k);
    } else if k == 0 {
      BeforeRise(s, k);
    }
  }

  lemma FilterStays(k: nat)
    ensures Settling(0, 0, k) == 0
  {
    FilterFalls(0, 0, k);
  }

  lemma RestStands(f: int)
    requires f == 0
    ensures Moved(f, f) == 0
  {
  }

  lemma BeforeRise(s: int, k: nat)
    requires s >= 1 && k == 0
    ensures Moved(Settling(0, s, k), s) == s
  {
    hide Filter;
    JumpIsWhole(Settling(0, s, k), s);
    hide Moved;
  }

  lemma JumpIsWhole(f: int, s: int)
    requires f == 0 && s >= 1
    ensures Moved(f, s) == s
  {
  }

  lemma AfterRise(s: int, k: nat)
    requires s >= 1 && k >= 6 * s
    ensures Moved(Settling(0, s, k), s) == 1 && Boost(1) == 11
  {
    LiftOfOne(1);
    hide Settling, Moved, Boost;
    assert Abs(0 - 6 * s) == 6 * s;
    LowPassReaches(0, s, k);
  }

  lemma LiftOfOne(v: int)
    requires v == 1
    ensures Boost(v) == 11
  {
  }

  /** Lowered to `s` again, the effect falls silent. */
  lemma ALoweredEffectFades(slots: seq<Slot>, t: Tune, o: Origin, n: nat, s: int, k: nat)
    requires !t.active && t.duty == 0 && s >= 0
    requires Held(slots, t, o.tick, n, s, 0) && o.seed.fx >= 6 * s && o.seed.fy == 0 && k < n
    ensures k >= o.seed.fx - 6 * s ==> Trace(slots, t, o, k).intensity == 0
  {
    hide Plain, Intensity, AxisSum, Filter, Mixed, SoftOr;
    HeldFilters(slots, t, o, n, s, 0, k);
    FilterFalls(0, 0, k);
    HeldPlain(slots, t, o, n, s, 0, k);
    FilterFalls(o.seed.fx, s, k);
    if k >= o.seed.fx - 6 * s {
      NoDutyIgnoresWhatStands(t, 6 * s, 0, s, 0);
    }
  }

  // ---- bursts ----------------------------------------------------------------------------

  /**
    A burst begins only above 100, is nine to fourteen pulses long, counts down a pulse at a
    time and is over as soon as the accumulator runs low.
  */
  lemma BurstsCountDown(t: Tune, c: Carry, dither: u32, intensity: int, base: int)
    requires 0 <= c.burst
    ensures var p := Pulse(t, c, dither, intensity, base).carry;
            && (c.acc + intensity < 100 ==> p.burst == 0)
            && (c.acc + intensity >= 100 && c.burst > 0 ==> p.burst == c.burst - 1)
            && (c.acc + intensity >= 100 && c.burst == 0 ==>
                  if intensity > 100 then 9 <= p.burst + 1 <= 14 else p.burst == 0)
  {
    hide Stir, StirAgain, Threshold, TunePulse;
  }

  /** The pulse of a burst with its count down to `left`, for what the generator came to. */
  predicate Mutes(intensity: int, left: int, q: u32) {
    left < 6 && left < Threshold(intensity, q)
  }

  /** Above 80, only a twentieth of the excess over 100, or a half or a third of that, is enough to mute a pulse. */
  lemma StrongBurstsMuteTheirEnd(intensity: int, left: nat, q: u32)
    requires 80 < intensity < TWO_31
    ensures Mutes(intensity, left, q) ==> left < 6 && 20 * (left + 1) * (q % 3 + 1) <= intensity - 100
    ensures q % 3 == 0 && left < 6 && 20 * (left + 1) <= intensity - 100 ==> Mutes(intensity, left, q)
  {
    var share := TruncDiv(intensity - 100, 20);
    assert share >= 0 && Wrap(share) == share;
    var part := q % 3 + 1;
    assert Threshold(intensity, q) == share / part;
  }

  /**
    At 80 or below the excess is negative and is divided as an unsigned number: a burst still
    armed then mutes each of its last six pulses unless the generator comes to a multiple of three.
  */
  lemma WeakBurstsAreMuted(intensity: int, left: nat, q: u32)
    requires 0 <= intensity <= 80
    ensures Mutes(intensity, left, q) <==> left < 6 && q % 3 != 0
  {
  }

  /** No pulse is lost in any other way. */
  lemma OnlyBurstsAreMuted(t: Tune, c: Carry, dither: u32, intensity: int, base: int)
    requires !t.active && 0 <= c.burst && c.acc + intensity >= 100
    ensures var p := Pulse(t, c, dither, intensity, base);
            !p.pulse <==> (c.burst > 0 || intensity > 100) && Mutes(intensity, p.carry.burst, p.dither)
  {
    hide Stir, StirAgain, Threshold;
  }
}

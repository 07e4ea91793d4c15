/** Why the filter and mixing arithmetic fits 32 bits, and how tight that is. */
module EffectBounds {
  import opened Words
  import opened Effect

  const MAX_RUNNING: nat := 8

  predicate Fits(v: int) {
    -TWO_31 <= v < TWO_31
  }

  /** What the calibration always satisfies. */
  predicate Calibrated(t: Tune) {
    0 <= t.duty <= 100 && t.complement == 100 - t.duty && 0 <= t.period <= 1000
  }

  /** The filters are within six times the largest axis sum. */
  predicate Settled(fx: int, fy: int, sum: nat) {
    Abs(fx) <= 6 * sum && Abs(fy) <= 6 * sum
  }

  lemma {:induction false} SumBounded(slots: seq<Slot>, axis: nat, strength: int, tick: int)
    ensures Abs(AxisSum(slots, axis, strength, tick)) <= 127 * ActiveCount(slots, tick)
  {
    if slots != [] {
      SumBounded(slots[1..], axis, strength, tick);
    }
  }

  lemma MulUp(x: nat, y: nat, p: nat, q: nat)
    requires x <= p && y <= q
    ensures 0 <= x * y <= p * q
  {
    assert x * y <= p * y;
    assert p * y <= p * q;
  }

  lemma QuotientSmall(b: nat)
    requires b >= 1000000
    ensures 1000000000 / b <= 1000
  {
    var q := 1000000000 / b;
    assert q * b <= 1000000000;
    var k := Min(q, 1001);
    MulUp(k, 1000000, k, b);
    MulUp(k, b, q, b);
  }

  /** The curve of the period stays within 1000. */
  lemma PeriodBounded(x: int)
    requires 0 <= x <= 2400
    ensures 0 <= Period(x) <= 1000
  {
    if 76 <= x {
      var p := 2400000 / x;
      assert p >= 1000;
      MulUp(1000, 1000, p, p);
      QuotientSmall(p * p);
    }
  }

  /** Whatever the buttons and the stick do, the calibration stays within its ranges. */
  lemma TuneKeepsCalibration(t: Tune, hi: bv8, lo: bv8, rawX: int, rawY: int)
    requires Calibrated(t) && -128 <= rawX <= 127 && -128 <= rawY <= 127
    ensures Calibrated(TuneUpdate(t, hi, lo, rawX, rawY).tune)
  {
    var x := Clamp(rawX * 16, -STICK_LIMIT, STICK_LIMIT) + STICK_LIMIT;
    PeriodBounded(x);
    hide Period, StrengthFor, Entering;
  }

  // ---- the products --------------------------------------------------------------

  lemma MulBounded(a: int, b: int, boundA: nat, boundB: nat)
    requires Abs(a) <= boundA && 0 <= b <= boundB
    ensures Abs(a * b) <= boundA * boundB
  {
    MulUp(Abs(a), b, boundA, boundB);
    assert a < 0 ==> a * b == -(Abs(a) * b);
  }

  lemma ProductRange(u: int, v: int, w: nat)
    requires -200 <= u <= w && -200 <= v <= w && 200 <= w
    ensures -200 * w <= u * v <= w * w
  {
    if u >= 0 && v >= 0 {
      MulUp(u, v, w, w);
    } else if u >= 0 {
      MulUp(u, -v, w, 200);
      assert u * v == -(u * -v);
    } else if v >= 0 {
      MulUp(-u, v, 200, w);
      assert u * v == -(-u * v);
    } else {
      MulUp(-u, -v, w, w);
      assert u * v == -u * -v;
    }
  }

  lemma Recentred(a: int, b: int)
    ensures b * a == (a - 200) * (b - 200) + 200 * a + 200 * b - 40000
  {
  }

  /** The soft OR of two magnitudes up to `m` stays between the value at the far corner and `m`. */
  lemma SoftOrBounded(a: nat, b: nat, m: nat)
    requires a <= m && b <= m && 400 <= m
    ensures 0 <= b * a <= m * m
    ensures 200 * SoftOr(a, b) >= 40000 - (m - 200) * (m - 200) && SoftOr(a, b) <= m
  {
    MulUp(b, a, m, m);
    Recentred(a, b);
    ProductRange(a - 200, b - 200, m - 200);
    var p, uv := b * a, (a - 200) * (b - 200);
    assert SoftOr(a, b) == b - p / 200 + a;
    assert 200 * (a + b) - p == 40000 - uv;
  }

  /** Every intermediate value of `core_effect_intensity`, in source order. */
  function Intermediates(t: Tune, fx: int, fy: int, sx: int, sy: int): seq<int> {
    var mx, my := Abs(sx), Abs(sy);
    var dx, dy := Moved(fx, sx), Moved(fy, sy);
    var steady, transient := SoftOr(mx, my), SoftOr(dx, dy);
    [fx * 5, fy * 5, Filter(fx, sx), Filter(fy, sy), TruncDiv(fx, 6) - sx, TruncDiv(fy, 6) - sy,
     my * mx, dy * dx, steady, transient, t.duty * t.period, steady * (t.duty * t.period),
     transient * t.complement, transient * t.complement * t.period,
     Mixed(t, steady, transient), t.duty * t.period + 999]
  }

  ghost predicate AllFit(vs: seq<int>) {
    forall i :: 0 <= i < |vs| ==> Fits(vs[i])
  }

  lemma FilterBounded(f: int, s: int, m: nat)
    requires Abs(f) <= 6 * m && Abs(s) <= m
    ensures Abs(Filter(f, s)) <= 6 * m && Moved(f, s) <= 2 * m
  {
  }

  lemma MixFits(t: Tune, steady: int, transient: int)
    requires Calibrated(t) && Abs(steady) <= 3129 && Abs(transient) <= 16581
    ensures Fits(t.duty * t.period) && Fits(steady * (t.duty * t.period)) && Fits(t.duty * t.period + 999)
    ensures Fits(transient * t.complement) && Fits(transient * t.complement * t.period)
    ensures Fits(Mixed(t, steady, transient))
  {
    MulBounded(t.duty, t.period, 100, 1000);
    assert 0 <= t.duty * t.period;
    MulBounded(steady, t.duty * t.period, 3129, 100000);
    MulBounded(transient, t.complement, 16581, 100);
    MulBounded(transient * t.complement, t.period, 1658100, 1000);
  }

  lemma IntermediatesFit(t: Tune, fx: int, fy: int, sx: int, sy: int)
    requires Calibrated(t) && Settled(fx, fy, 1016) && Abs(sx) <= 1016 && Abs(sy) <= 1016
    ensures AllFit(Intermediates(t, fx, fy, sx, sy))
    ensures Settled(Filter(fx, sx), Filter(fy, sy), 1016)
  {
    FilterBounded(fx, sx, 1016);
    FilterBounded(fy, sy, 1016);
    SoftOrBounded(Abs(sx), Abs(sy), 1016);
    SoftOrBounded(Moved(fx, sx), Moved(fy, sy), 2032);
    assert (1016 - 200) * (1016 - 200) == 665856 && (2032 - 200) * (2032 - 200) == 3356224;
    assert Moved(fx, sx) == Abs(TruncDiv(fx, 6) - sx) && Moved(fy, sy) == Abs(TruncDiv(fy, 6) - sy);
    hide SoftOr, Filter, Mixed, Moved, TruncDiv;
    MixFits(t, SoftOr(Abs(sx), Abs(sy)), SoftOr(Moved(fx, sx), Moved(fy, sy)));
  }

  /**
    With at most eight slots running at every tick no 32-bit signed operation of the
    intensity computation overflows, and the filters stay within six times 1016.
  */
  lemma EightSlotsFit(slots: seq<Slot>, t: Tune, c: Carry, tick: int)
    requires Calibrated(t) && ActiveCount(slots, tick) <= MAX_RUNNING && Settled(c.fx, c.fy, 1016)
    ensures var sx := AxisSum(slots, 0, t.strength, tick);
            var sy := AxisSum(slots, 1, t.strength, tick);
            && AllFit(Intermediates(t, c.fx, c.fy, sx, sy))
            && Settled(Filter(c.fx, sx), Filter(c.fy, sy), 1016)
  {
    SumBounded(slots, 0, t.strength, tick);
    SumBounded(slots, 1, t.strength, tick);
    hide AllFit, Intermediates, Filter, AxisSum, ActiveCount, Settled;
    IntermediatesFit(t, c.fx, c.fy, AxisSum(slots, 0, t.strength, tick), AxisSum(slots, 1, t.strength, tick));
  }

  /** The filter after `n` ticks of a constant input. */
  function Fed(n: nat, f: int, s: int): int {
    if n == 0 then f else Filter(Fed(n - 1, f, s), s)
  }

  /** How far a filter fed by nine slots at full scale still is from its limit. */
  function Gap(n: nat): nat {
    if n == 0 then 6858 else (5 * Gap(n - 1) + 5) / 6
  }

  lemma {:induction false} FedByGap(n: nat)
    ensures Fed(n, 0, 1143) == 6858 - Gap(n) && Gap(n) <= 6858
  {
    if n > 0 {
      FedByGap(n - 1);
    }
  }

  /** Four ticks halve the gap, up to rounding. */
  lemma GapHalves(n: nat)
    ensures Gap(n + 4) <= Gap(n) / 2 + 4
  {
    var g := Gap(n);
    assert Gap(n + 1) == (5 * g + 5) / 6;
    assert Gap(n + 2) == (5 * Gap(n + 1) + 5) / 6;
    assert Gap(n + 3) == (5 * Gap(n + 2) + 5) / 6;
    assert Gap(n + 4) == (5 * Gap(n + 3) + 5) / 6;
  }

  lemma GapAfterForty(z: nat)
    requires z == 0
    ensures Gap(z + 40) <= 14
  {
    assert Gap(z) == 6858;
    hide Gap;
    GapHalves(z);
    GapHalves(z + 4);
    GapHalves(z + 8);
    GapHalves(z + 12);
    GapHalves(z + 16);
    GapHalves(z + 20);
    GapHalves(z + 24);
    GapHalves(z + 28);
    GapHalves(z + 32);
    GapHalves(z + 36);
  }

  lemma {:induction false} GapCloses(n: nat, z: nat)
    requires z == 0 && n >= z + 40
    ensures Gap(n) <= 14
  {
    if n == z + 40 {
      GapAfterForty(z);
    } else {
      GapCloses(n - 1, z);
    }
  }

  /** Nine slots at full scale drive a filter to within 0.3 percent of its limit in 40 ticks. */
  lemma FedRises(n: nat)
    requires n >= 40
    ensures 6844 <= Fed(n, 0, 1143) <= 6858
  {
    hide Gap, Fed;
    GapCloses(n, 0);
    FedByGap(n);
  }

  /** The widest calibration: every transient counts in full. */
  const WIDEST: Tune := Tune(1000, 0, 100, 100, false, false)

  /** Nine slots held at full scale on both axes and then reversed: the transient product does not fit. */
  lemma ReversalOverflows(f: int)
    requires 6840 <= f <= 6858
    ensures !AllFit(Intermediates(WIDEST, f, f, -1143, -1143))
  {
    var d := Moved(f, -1143);
    assert 2283 <= d <= 2286;
    FarCorner(d);
    var vs := Intermediates(WIDEST, f, f, -1143, -1143);
    assert vs[13] == SoftOr(d, d) * 100 * 1000;
    hide Intermediates, SoftOr, Moved;
    assert !Fits(vs[13]);
  }

  lemma FarCorner(d: int)
    requires 2283 <= d <= 2286
    ensures SoftOr(d, d) <= -21494
  {
    assert d == 2283 || d == 2284 || d == 2285 || d == 2286;
  }
}

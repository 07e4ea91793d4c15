/**
  One tick of the force-feedback engine: the condition pre-pass, the summed
  intensity with its low-pass filters, and the delta-sigma modulator.

  A slot's waveform and envelope are an arbitrary function of the axis, the
  elapsed ticks and, for a tuning slot, its condition output; only the final clamp
  of each axis value is fixed here.
*/
module Effect {
  import opened Words

  const SLOTS: nat := 32
  const FX_CLAMP: int := 127
  const STICK_LIMIT: int := 1200
  const WINDOW: nat := 32

  /** The carry from tick to tick, saved in every ring entry. */
  datatype Carry = Carry(fx: int, fy: int, acc: int, burst: int, counter: int)

  datatype Tune = Tune(period: int, duty: int, complement: int, strength: int, active: bool, held: bool)

  datatype Condition = Condition(
    center: int, positiveCoeff: int, negativeCoeff: int, positiveSat: int, negativeSat: int,
    deadBand: int, output: int)

  /** `shape(axis, elapsed, base)` is the axis value before the clamp. */
  datatype Slot = Slot(
    tuning: bool, running: bool, start: int, duration: Option<int>,
    x: Condition, y: Condition, shape: (nat, int, int) -> int)

  // ---- the condition pre-pass ----------------------------------------------------

  function ToS8(v: int): int {
    var w := v % 256;
    if w < 128 then w else w - 256
  }

  /** The spring force of one axis: zero in the dead band, then a slope, then a saturation. */
  function ConditionOutput(c: Condition, stick: int): int {
    var dead: int := Abs(TruncDiv(c.deadBand * STICK_LIMIT, FX_CLAMP));
    var delta := stick - TruncDiv(c.center * STICK_LIMIT, FX_CLAMP);
    var (coeff, sat, reach) :=
      if delta < 1 then
        if delta < -dead then (c.negativeCoeff, c.negativeSat, delta + dead) else (0, 0, delta)
      else
        if delta > dead then (c.positiveCoeff, c.positiveSat, delta - dead) else (0, 0, delta);
    var limit := if sat == 0 then FX_CLAMP else Abs(sat);
    ToS8(Clamp(TruncDiv(coeff * reach, STICK_LIMIT), -limit, limit))
  }

  function UpdateSlot(s: Slot, stickX: int, stickY: int): Slot {
    if s.tuning && s.running then
      s.(x := s.x.(output := ConditionOutput(s.x, stickX)), y := s.y.(output := ConditionOutput(s.y, stickY)))
    else s
  }

  /** The pre-pass: frozen for the whole window, skipped when the strength is zero. */
  function UpdateConditions(slots: seq<Slot>, strength: int, stickX: int, stickY: int): (r: seq<Slot>)
    ensures |r| == |slots|
  {
    if strength == 0 then slots
    else seq(|slots|, i requires 0 <= i < |slots| => UpdateSlot(slots[i], stickX, stickY))
  }

  // ---- intensity -------------------------------------------------------------------

  predicate Active(s: Slot, tick: int) {
    && s.running && tick - s.start >= 0
    && (s.duration.None? || tick - s.start < s.duration.value)
  }

  /** One axis of one slot, clamped. */
  function AxisValue(s: Slot, axis: nat, strength: int, elapsed: int): (v: int)
    ensures -FX_CLAMP <= v <= FX_CLAMP
  {
    var output := if axis == 0 then s.x.output else s.y.output;
    var base := if s.tuning then TruncDiv(strength * output, 100) else 0;
    Clamp(s.shape(axis, elapsed, base), -FX_CLAMP, FX_CLAMP)
  }

  function AxisSum(slots: seq<Slot>, axis: nat, strength: int, tick: int): int {
    if slots == [] then 0
    else (if Active(slots[0], tick) then AxisValue(slots[0], axis, strength, tick - slots[0].start) else 0)
         + AxisSum(slots[1..], axis, strength, tick)
  }

  function ActiveCount(slots: seq<Slot>, tick: int): nat {
    if slots == [] then 0
    else (if Active(slots[0], tick) then 1 else 0) + ActiveCount(slots[1..], tick)
  }

  /** The low-pass: five sixths of the old value plus the new input. */
  function Filter(f: int, sum: int): int {
    TruncDiv(f * 5, 6) + sum
  }

  /** How far an axis moved from its low-pass. */
  function Moved(f: int, sum: int): nat {
    Abs(TruncDiv(f, 6) - sum)
  }

  /** The soft OR of two magnitudes: a + b - ab/200. */
  function SoftOr(a: int, b: int): int {
    (b - TruncDiv(b * a, 200)) + a
  }

  function Mixed(t: Tune, steady: int, transient: int): int {
    TruncDiv(steady * (t.duty * t.period), 25000)
    + TruncDiv(transient * t.complement * t.period, 25000)
  }

  /** Zero below one, and small values are nudged up so they still pulse. */
  function Boost(v: int): int {
    if v < 1 then 0 else if v < 32 then TruncDiv(32 - v, 3) + v else v
  }

  /** The modulator input of one tick from the two axis sums and the filters. */
  function Intensity(t: Tune, fx: int, fy: int, sx: int, sy: int): int {
    Boost(if t.active then TruncDiv(t.duty * t.period + 999, 1000)
          else Mixed(t, SoftOr(Abs(sx), Abs(sy)), SoftOr(Moved(fx, sx), Moved(fy, sy))))
  }

  // ---- the modulator ---------------------------------------------------------------

  /** A pulse decision with the generator's new state. */
  datatype Pulsed = Pulsed(carry: Carry, dither: u32, pulse: bool)

  function Stir(dither: u32, base: int): (r: u32)
    ensures r < 10000
  {
    Wrap(Wrap(dither * 8) / 7 + Wrap(base)) % 10000
  }

  function StirAgain(r: u32, base: int): (q: u32)
    ensures q < 10000
  {
    var d := r / 7;
    Wrap((Wrap(r - d) / 2 + d) / 4 + r + Wrap(base)) % 10000
  }

  function Threshold(intensity: int, r: u32): int {
    ToS32(Wrap(TruncDiv(intensity - 100, 20)) / (r % 3 + 1))
  }

  /** The tuning-mode override: a pulse for the first slots of every twelve. */
  function TunePulse(t: Tune, counter: int, pulse: bool): (r: (int, bool)) {
    if !t.active then (counter, pulse)
    else
      var raw := t.complement * t.period;
      var slots := if raw > 0 then TruncDiv(raw + 8000, 11112) + 1 else raw;
      (if counter + 1 > 11 then 0 else counter + 1, pulse || counter < slots)
  }

  function Pulse(t: Tune, c: Carry, dither: u32, intensity: int, base: int): Pulsed {
    var r := Stir(dither, base);
    var acc := c.acc + intensity;
    var burst := if intensity > 100 && c.burst == 0 then r % 6 + 9 else c.burst;
    if acc < 100 then
      var (counter, pulse) := TunePulse(t, c.counter, false);
      Pulsed(c.(acc := acc, burst := 0, counter := counter), r, pulse)
    else
      var left := Min(acc - 100, 100);
      if burst > 0 then
        var q := StirAgain(r, base);
        var muted := burst - 1 < 6 && burst - 1 < Threshold(intensity, q);
        var (counter, pulse) := TunePulse(t, c.counter, !muted);
        Pulsed(c.(acc := left, burst := burst - 1, counter := counter), q, pulse)
      else
        var (counter, pulse) := TunePulse(t, c.counter, true);
        Pulsed(c.(acc := left, burst := burst, counter := counter), r, pulse)
  }

  // ---- one tick ----------------------------------------------------------------------

  datatype Entry = Entry(pulse: bool, intensity: int, carry: Carry)

  datatype Ticked = Ticked(entry: Entry, dither: u32, idle: int)

  /** Evaluate tick `tick` of the window that starts at `base`. */
  function Tick(slots: seq<Slot>, t: Tune, c: Carry, dither: u32, idle: int, tick: int, base: int): Ticked {
    var sx := AxisSum(slots, 0, t.strength, tick);
    var sy := AxisSum(slots, 1, t.strength, tick);
    var intensity := Intensity(t, c.fx, c.fy, sx, sy);
    var p := Pulse(t, c.(fx := Filter(c.fx, sx), fy := Filter(c.fy, sy)), dither, intensity, base);
    Ticked(Entry(p.pulse, intensity, p.carry), p.dither,
           if ActiveCount(slots, tick) > 0 then 0 else idle + 1)
  }

  // ---- calibration -------------------------------------------------------------------

  function StrengthFor(dpad: bv8): int {
    if dpad == 1 || dpad == 2 then 25
    else if dpad == 4 then 0
    else if dpad == 5 || dpad == 6 then 12
    else if dpad == 8 then 100
    else if dpad == 9 || dpad == 10 then 50
    else -1
  }

  function Period(x: int): int {
    if x < 76 || x > 2399999 then 0
    else
      var p := 2400000 / x;
      if p == 0 then 0 else 1000000000 / (p * p)
  }

  datatype Tuned = Tuned(tune: Tune, kick: bool)

  predicate Entering(hi: bv8, lo: bv8) {
    hi & 0x3F == 0x30 && lo & 0xEF == 0x20 && (hi & 0x80 != 0 || lo & 0x10 != 0)
  }

  /** The buttons of the tuning chord are all up. */
  predicate Leaving(hi: bv8, lo: bv8) {
    hi & 0x3F == 0 && lo & 0xF0 == 0
  }

  /** `core_tune_update`: the stick and D-pad edit the calibration while the mode is active. */
  function TuneUpdate(t: Tune, hi: bv8, lo: bv8, rawX: int, rawY: int): Tuned {
    var entered :=
      if Entering(hi, lo) then
        t.(period := if t.active then t.period else 0, active := true, held := true)
      else t;
    var edited :=
      if !entered.active then Tuned(entered, false)
      else
        var y := if -rawY > 127 then -128 else -rawY;
        var x := Clamp(rawX * 16, -STICK_LIMIT, STICK_LIMIT) + STICK_LIMIT;
        var duty := TruncDiv(Clamp(y * 16, -STICK_LIMIT, STICK_LIMIT) + STICK_LIMIT, 24);
        var strength := StrengthFor(lo & 0x0F);
        Tuned(entered.(period := Period(x), duty := duty, complement := 100 - duty,
                       strength := if strength >= 0 then strength else entered.strength),
              Period(x) != entered.period || duty != entered.duty);
    if Leaving(hi, lo) then
      Tuned(edited.tune.(held := false), edited.kick)
    else if entered.active && !entered.held then
      Tuned(edited.tune.(active := false, held := false), true)
    else edited
  }
}

/** What the delta-sigma modulator conserves, and what it bounds, over any run of ticks. */
module EffectPulse {
  import opened Words
  import opened Effect

  /** One tick's input: the intensity and the time its window started at. */
  datatype Input = Input(intensity: int, base: int)

  datatype PulseRun = PulseRun(carry: Carry, dither: u32, pulses: seq<bool>)

  function RunPulses(t: Tune, c: Carry, dither: u32, xs: seq<Input>): (r: PulseRun)
    ensures |r.pulses| == |xs|
    decreases |xs|
  {
    if xs == [] then PulseRun(c, dither, [])
    else
      var p := Pulse(t, c, dither, xs[0].intensity, xs[0].base);
      var rest := RunPulses(t, p.carry, p.dither, xs[1..]);
      rest.(pulses := [p.pulse] + rest.pulses)
  }

  function Total(xs: seq<Input>): int {
    if xs == [] then 0 else xs[0].intensity + Total(xs[1..])
  }

  function Count(pulses: seq<bool>): nat {
    if pulses == [] then 0 else (if pulses[0] then 1 else 0) + Count(pulses[1..])
  }

  /** Intensities the modulator can follow exactly. */
  ghost predicate Followable(xs: seq<Input>) {
    forall i :: 0 <= i < |xs| ==> 0 <= xs[i].intensity <= 100
  }

  ghost predicate NonNegative(xs: seq<Input>) {
    forall i :: 0 <= i < |xs| ==> 0 <= xs[i].intensity
  }

  /** With no burst armed and nothing above 100, a tick is the plain modulator. */
  lemma PlainTick(t: Tune, c: Carry, dither: u32, intensity: int, base: int)
    requires !t.active && c.burst == 0 && 0 <= c.acc <= 100 && 0 <= intensity <= 100
    ensures var p := Pulse(t, c, dither, intensity, base);
            && p.pulse == (c.acc + intensity >= 100)
            && p.carry == c.(acc := if p.pulse then c.acc + intensity - 100 else c.acc + intensity)
            && 0 <= p.carry.acc <= 100
  {
    hide Stir, StirAgain, Threshold;
  }

  /** Conservation: every hundred units fed in come out as one pulse or stay in the accumulator. */
  lemma {:induction false} PulsesConserveIntensity(t: Tune, c: Carry, dither: u32, xs: seq<Input>)
    requires !t.active && c.burst == 0 && 0 <= c.acc <= 100 && Followable(xs)
    ensures var r := RunPulses(t, c, dither, xs);
            && 100 * Count(r.pulses) + r.carry.acc == c.acc + Total(xs)
            && 0 <= r.carry.acc <= 100 && r.carry.burst == 0
            && (c.acc < 100 ==> r.carry.acc < 100)
    decreases |xs|
  {
    if xs != [] {
      PlainTick(t, c, dither, xs[0].intensity, xs[0].base);
      hide Pulse;
      var p := Pulse(t, c, dither, xs[0].intensity, xs[0].base);
      PulsesConserveIntensity(t, p.carry, p.dither, xs[1..]);
      var rest := RunPulses(t, p.carry, p.dither, xs[1..]);
      assert ([p.pulse] + rest.pulses)[1..] == rest.pulses;
    }
  }

  /** So the number of pulses is a closed form: it does not depend on how the intensity was spread. */
  lemma PulseCount(t: Tune, c: Carry, dither: u32, xs: seq<Input>)
    requires !t.active && c.burst == 0 && 0 <= c.acc < 100 && Followable(xs)
    ensures Count(RunPulses(t, c, dither, xs).pulses) == (c.acc + Total(xs)) / 100
  {
    PulsesConserveIntensity(t, c, dither, xs);
  }

  /** The ranges every tick keeps, dithered or not, calibrating or not. */
  ghost predicate InRange(c: Carry, dither: u32) {
    0 <= c.acc <= 100 && 0 <= c.burst <= 14 && dither < 10000
  }

  lemma TickInRange(t: Tune, c: Carry, dither: u32, intensity: int, base: int)
    requires InRange(c, dither) && 0 <= intensity
    ensures var p := Pulse(t, c, dither, intensity, base);
            InRange(p.carry, p.dither)
              && (!t.active ==> (if p.pulse then 100 else 0) + p.carry.acc <= c.acc + intensity)
  {
    hide Stir, StirAgain, Threshold;
  }

  /** Dithering only ever removes pulses: the motor is never driven harder than it was asked. */
  lemma {:induction false} DitherOnlySuppresses(t: Tune, c: Carry, dither: u32, xs: seq<Input>)
    requires InRange(c, dither) && NonNegative(xs)
    ensures var r := RunPulses(t, c, dither, xs);
            && InRange(r.carry, r.dither)
            && (!t.active ==> 100 * Count(r.pulses) + r.carry.acc <= c.acc + Total(xs))
    decreases |xs|
  {
    if xs != [] {
      TickInRange(t, c, dither, xs[0].intensity, xs[0].base);
      hide Pulse;
      var p := Pulse(t, c, dither, xs[0].intensity, xs[0].base);
      DitherOnlySuppresses(t, p.carry, p.dither, xs[1..]);
      var rest := RunPulses(t, p.carry, p.dither, xs[1..]);
      assert ([p.pulse] + rest.pulses)[1..] == rest.pulses;
    }
  }
}

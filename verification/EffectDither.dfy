/** Which ticks the dither generator decides. */
module EffectDither {
  import opened Words
  import opened Effect

  // ---- when the generator decides a tick --------------------------------------------------

  /**
    The pulse of this tick depends on the generator: the accumulator is full, the
    last six ticks of a burst are running, and the muting threshold straddles what is
    left of it. A negative threshold wraps to a huge one unless it is divided by one.
  */
  predicate Swings(c: Carry, intensity: int) {
    var t := TruncDiv(intensity - 100, 20);
    && c.acc + intensity >= 100 && 1 <= c.burst <= 6
    && (t < 0 || t / 3 <= c.burst - 1 < t)
  }

  /** The burst a tick starts with, and whether it then mutes its pulse, given the second draw. */
  predicate Mutes(burst: int, intensity: int, q: u32) {
    0 < burst <= 6 && burst - 1 < Threshold(intensity, q)
  }

  lemma MutesByResidue(burst: int, intensity: int, q: u32)
    requires 0 < burst <= 6 && 0 <= intensity < TWO_31
    ensures var t := TruncDiv(intensity - 100, 20);
            Mutes(burst, intensity, q) <==>
              if t < 0 then q % 3 != 0 else burst - 1 < t / (q % 3 + 1)
  {
  }

  /** A tick's pulse in terms of the second draw. */
  lemma PulseByDraw(t: Tune, c: Carry, dither: u32, intensity: int, base: int)
    requires !t.active && 0 <= c.burst && 0 <= intensity < TWO_31
    ensures Pulse(t, c, dither, intensity, base).pulse <==>
              c.acc + intensity >= 100 && !Mutes(c.burst, intensity, StirAgain(Stir(dither, base), base))
  {
    hide Stir, StirAgain, Threshold;
  }

  /** Dividing by more than one can only lower a nonnegative threshold. */
  lemma ThresholdsOrdered(t: nat, q: u32)
    ensures t / 3 <= t / (q % 3 + 1) <= t
  {
  }

  lemma SteadyUnlessSwinging(t: Tune, c: Carry, d1: u32, d2: u32, intensity: int, base1: int, base2: int)
    requires !t.active && 0 <= c.burst && 0 <= intensity < TWO_31 && !Swings(c, intensity)
    ensures Pulse(t, c, d1, intensity, base1).pulse == Pulse(t, c, d2, intensity, base2).pulse
  {
    PulseByDraw(t, c, d1, intensity, base1);
    PulseByDraw(t, c, d2, intensity, base2);
    var q1, q2 := StirAgain(Stir(d1, base1), base1), StirAgain(Stir(d2, base2), base2);
    if c.acc + intensity >= 100 && 1 <= c.burst <= 6 {
      MutesByResidue(c.burst, intensity, q1);
      MutesByResidue(c.burst, intensity, q2);
      ThresholdsOrdered(TruncDiv(intensity - 100, 20), q1);
      ThresholdsOrdered(TruncDiv(intensity - 100, 20), q2);
    }
  }

  // ---- every draw can be brought about ------------------------------------------------------

  /** Small first draws leave the second draw at their distance from the window's start. */
  lemma SecondDraw(r: u32, base: int)
    requires r <= 6
    ensures StirAgain(r, base) == Wrap(r + Wrap(base)) % 10000
  {
  }

  /** The multiples of eight sevenths, rounded down, miss exactly the numbers that are 7 modulo 8. */
  lemma EightSevenths(x: int) returns (d: u32)
    requires 0 <= x < 100000 && x % 8 != 7
    ensures Wrap(d * 8) / 7 == x
  {
    d := x / 8 * 7 + x % 8;
    assert d * 8 == x / 8 * 56 + x % 8 * 8;
  }

  /** How far the first draw `r` is from the window's start, round the clock of the generator. */
  function Distance(r: int, base: u32): int {
    if base + 20000 <= TWO_32 then (r - base) % 10000 else r + TWO_32 - base
  }

  lemma FirstDraw(r: int, base: int) returns (dither: u32)
    requires 0 <= r <= 6 && Distance(r, Wrap(base)) % 8 != 7
    ensures Stir(dither, base) == r
  {
    var x := Distance(r, Wrap(base));
    DistanceSum(r, Wrap(base));
    dither := EightSevenths(x);
    hide Wrap, Distance;
  }

  lemma DistanceSum(r: int, b: u32)
    requires 0 <= r <= 6
    ensures Wrap(Distance(r, b) + b) % 10000 == r && 0 <= Distance(r, b) < 100000
  {
    if b + 20000 <= TWO_32 {
      var z := r - b;
      assert z % 10000 + b == r - 10000 * (z / 10000);
      assert (z % 10000 + b) % 10000 == r % 10000;
    }
  }

  /** The second draw for the small first draw `r`. */
  function Second(r: int, b: u32): (q: u32)
    ensures q < 10000
  {
    Wrap(r + b) % 10000
  }

  lemma NextSecond(r: int, b: u32)
    requires 0 <= r < 6
    ensures Second(r + 1, b) == if Wrap(r + b) == TWO_32 - 1 || Second(r, b) == 9999 then 0 else Second(r, b) + 1
    ensures Wrap(r + b) == TWO_32 - 1 ==> Second(r, b) == 7295
  {
    var v := Wrap(r + b);
    assert Wrap(r + 1 + b) == if v == TWO_32 - 1 then 0 else v + 1;
    hide Wrap;
    assert TWO_32 - 1 == 10000 * 429496 + 7295;
    if v != TWO_32 - 1 {
      assert v == 10000 * (v / 10000) + v % 10000;
    }
  }

  /** Residues modulo 3 step evenly, also over the wrap at 2^32, except that they stand still once over 9999. */
  function Still(first: int, r: int): int {
    if first + r > 9999 then 1 else 0
  }

  lemma {:induction false} SecondSteps(r: nat, b: u32)
    requires r <= 6
    ensures var s := Second(0, b);
            || Second(r, b) == s + r - 10000 * Still(s, r)
            || (s <= 7295 < s + r && Second(r, b) == s + r - 7296)
  {
    hide Second, Wrap;
    if r > 0 {
      SecondSteps(r - 1, b);
      NextSecond(r - 1, b);
    }
  }

  lemma SecondResidue(r: nat, b: u32)
    requires r <= 6
    ensures Second(r, b) % 3 == (Second(0, b) + r - Still(Second(0, b), r)) % 3
  {
    SecondSteps(r, b);
    hide Second;
    var v := Second(0, b) + r;
    assert (v - 7296) % 3 == v % 3 by { assert 7296 == 3 * 2432; }
    assert (v - 10000) % 3 == (v - 1) % 3 by { assert 9999 == 3 * 3333; }
  }

  /** Going round a clock of 10000 hours does not disturb residues modulo 8. */
  lemma ClockResidue(z: int, r: nat)
    requires r <= 6
    ensures (z + r) % 10000 % 8 == (z % 10000 + r) % 8
  {
    var x, q := z % 10000, z / 10000;
    assert z + r == 10000 * q + (x + r);
    if x + r >= 10000 {
      assert z + r == 10000 * (q + 1) + (x + r - 10000);
      assert (x + r - 10000) % 8 == (x + r) % 8;
    }
  }

  lemma DistanceResidue(r: nat, b: u32)
    requires r <= 6
    ensures Distance(r, b) % 8 == (Distance(0, b) + r) % 8
  {
    ClockResidue(0 - b, r);
  }

  /** Of seven draws in a row, each residue modulo 3 is hit by one that can be brought about. */
  lemma SomeDrawHits(b: u32, residue: int) returns (r: int)
    requires 0 <= residue < 3
    ensures 0 <= r <= 6 && Second(r, b) % 3 == residue && Distance(r, b) % 8 != 7
  {
    hide Distance, Second;
    r := Choose(Second(0, b), Distance(0, b), residue);
    SecondResidue(r, b);
    DistanceResidue(r, b);
  }

  lemma Choose(s: int, d: int, residue: int) returns (r: nat)
    requires 0 <= residue < 3 && 0 <= s < 10000
    ensures r <= 6 && (s + r - Still(s, r)) % 3 == residue && (d + r) % 8 != 7
  {
    var m := (residue - s) % 3;
    var a := m + Still(s, m);
    var b := if s + a <= 9999 < s + a + 3 then a + 4 else a + 3;
    r := if (d + a) % 8 != 7 then a else b;
  }

  /** Whenever the window starts, some generator state brings about a second draw of this residue. */
  lemma SomeGeneratorDraws(base: int, residue: int) returns (dither: u32)
    requires 0 <= residue < 3
    ensures StirAgain(Stir(dither, base), base) % 3 == residue
  {
    hide StirAgain, Stir, Distance;
    var r := SomeDrawHits(Wrap(base), residue);
    dither := FirstDraw(r, base);
    SecondDraw(r, base);
  }

  /**
    The generator decides a tick's pulse exactly when the tick swings, for every
    carry, intensity and window.
  */
  lemma GeneratorDecidesExactlySwings(t: Tune, c: Carry, intensity: int, base: int)
    requires !t.active && 0 <= c.burst && 0 <= intensity < TWO_31
    ensures Swings(c, intensity) <==>
              exists d1: u32, d2: u32 ::
                Pulse(t, c, d1, intensity, base).pulse && !Pulse(t, c, d2, intensity, base).pulse
  {
    if Swings(c, intensity) {
      var d, passing := BothDraws(t, c, intensity, base);
    } else {
      forall d1: u32, d2: u32
        ensures Pulse(t, c, d1, intensity, base).pulse == Pulse(t, c, d2, intensity, base).pulse
      {
        SteadyUnlessSwinging(t, c, d1, d2, intensity, base, base);
      }
      hide Pulse;
    }
  }

  lemma BothDraws(t: Tune, c: Carry, intensity: int, base: int) returns (passing: u32, muting: u32)
    requires !t.active && 0 <= intensity < TWO_31 && Swings(c, intensity)
    ensures Pulse(t, c, passing, intensity, base).pulse && !Pulse(t, c, muting, intensity, base).pulse
  {
    var negative := TruncDiv(intensity - 100, 20) < 0;
    passing := SomeGeneratorDraws(base, if negative then 0 else 2);
    muting := SomeGeneratorDraws(base, if negative then 2 else 0);
    PulseByDraw(t, c, passing, intensity, base);
    PulseByDraw(t, c, muting, intensity, base);
    MutesByResidue(c.burst, intensity, StirAgain(Stir(passing, base), base));
    MutesByResidue(c.burst, intensity, StirAgain(Stir(muting, base), base));
    hide Pulse, Stir, StirAgain, Mutes;
  }

  // ---- ticks the generator has no say in ----------------------------------------------------

  /** The generator decides neither this tick's pulse nor the length of a burst it would start. */
  predicate Steady(c: Carry, intensity: int) {
    intensity < TWO_31 && !Swings(c, intensity) && (c.burst > 0 || intensity <= 100)
  }

  /** A steady tick comes out the same whatever the generator holds and whenever the window starts. */
  lemma SteadyPulse(t: Tune, c: Carry, d1: u32, d2: u32, intensity: int, base1: int, base2: int)
    requires !t.active && 0 <= c.burst && 0 <= intensity && Steady(c, intensity)
    ensures Pulse(t, c, d1, intensity, base1).pulse == Pulse(t, c, d2, intensity, base2).pulse
    ensures Pulse(t, c, d1, intensity, base1).carry == Pulse(t, c, d2, intensity, base2).carry
  {
    SteadyUnlessSwinging(t, c, d1, d2, intensity, base1, base2);
    hide Stir, StirAgain, Threshold, Swings;
  }
}

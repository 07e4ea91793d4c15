/**
  The effect engine as the driver runs it: a circular array of 96 entries, carry
  fields updated in place, and a four-byte bitmap.
*/
module EffectEngine {
  import opened Words
  import opened Effect
  import opened EffectRing

  /** Bit `k` of a payload byte. */
  function Mask(k: nat): bv8
    requires k < 8
  {
    if k == 0 then 1 else if k == 1 then 2 else if k == 2 then 4 else if k == 3 then 8
    else if k == 4 then 16 else if k == 5 then 32 else if k == 6 then 64 else 128
  }

  predicate BitSet(payload: seq<bv8>, i: nat)
    requires |payload| == 4 && i < WINDOW
  {
    payload[i / 8] & Mask(i % 8) != 0
  }

  /** The bitmap carries exactly these pulses, tick i in bit i % 8 of byte i / 8. */
  ghost predicate Carries(payload: seq<bv8>, pulses: seq<bool>) {
    && |payload| == 4 && |pulses| == WINDOW
    && forall i :: 0 <= i < WINDOW ==> BitSet(payload, i) == pulses[i]
  }

  lemma SettingOneBit(b: bv8, k: nat, j: nat)
    requires k < 8 && j < 8
    ensures (b | Mask(k)) & Mask(j) != 0 <==> k == j || b & Mask(j) != 0
  {
  }

  lemma SettingBit(was: seq<bv8>, i: nat, k: nat)
    requires |was| == 4 && i < WINDOW && k < WINDOW
    ensures BitSet(was[i / 8 := was[i / 8] | Mask(i % 8)], k) == (k == i || BitSet(was, k))
  {
    SettingOneBit(was[i / 8], i % 8, k % 8);
    hide Mask;
  }

  /** The live entries of a circular buffer, oldest first. */
  function Unrolled(ring: seq<Entry>, head: nat, count: nat): (live: seq<Entry>)
    requires |ring| == RING && head < RING
    ensures |live| == count
  {
    seq(count, k requires 0 <= k < count => ring[(head + k) % RING])
  }

  class Engine {
    var slots: seq<Slot>
    var tune: Tune
    var stickX: int
    var stickY: int
    var filteredX: int
    var filteredY: int
    var accumulator: int
    var burst: int
    var tuneCounter: int
    var dither: u32
    var idle: int
    const ring: array<Entry>
    var head: nat
    var count: nat
    var base: int

    ghost predicate RingValid()
      reads this`head, this`count
    {
      ring.Length == RING && head < RING && count <= RING
    }

    ghost predicate Valid()
      reads this`head, this`count, this`slots
    {
      RingValid() && |slots| == SLOTS
    }

    ghost function Live(): (live: seq<Entry>)
      requires RingValid()
      reads this`head, this`count, ring
      ensures |live| == count
    {
      Unrolled(ring[..], head, count)
    }

    ghost function CarryView(): Carry
      reads this`filteredX, this`filteredY, this`accumulator, this`burst, this`tuneCounter
    {
      Carry(filteredX, filteredY, accumulator, burst, tuneCounter)
    }

    ghost function View(): Fx
      requires Valid()
      reads this, ring
    {
      Fx(slots, tune, stickX, stickY, CarryView(), dither, idle, Live(), base)
    }

    constructor (slots: seq<Slot>, tune: Tune, empty: Entry)
      requires |slots| == SLOTS
      ensures Valid() && View() == Fx(slots, tune, 0, 0, Carry(0, 0, 0, 0, 0), 0, 0, [], 0)
    {
      this.slots, this.tune := slots, tune;
      stickX, stickY := 0, 0;
      filteredX, filteredY, accumulator, burst, tuneCounter := 0, 0, 0, 0, 0;
      dither, idle, head, count, base := 0, 0, 0, 0, 0;
      ring := new Entry[RING](_ => empty);
    }

    /** `core_effect_intensity`: sum the running slots, advance the filters, mix. */
    method SumIntensity(tick: int) returns (intensity: int)
      requires Valid()
      modifies this`filteredX, this`filteredY, this`idle
      ensures var sx := AxisSum(slots, 0, tune.strength, tick);
              var sy := AxisSum(slots, 1, tune.strength, tick);
              && intensity == Intensity(tune, old(filteredX), old(filteredY), sx, sy)
              && filteredX == Filter(old(filteredX), sx) && filteredY == Filter(old(filteredY), sy)
      ensures idle == if ActiveCount(slots, tick) > 0 then 0 else old(idle) + 1
    {
      var sumX, sumY, any, i := 0, 0, false, 0;
      while i < |slots|
        invariant 0 <= i <= |slots|
        invariant sumX + AxisSum(slots[i..], 0, tune.strength, tick) == AxisSum(slots, 0, tune.strength, tick)
        invariant sumY + AxisSum(slots[i..], 1, tune.strength, tick) == AxisSum(slots, 1, tune.strength, tick)
        invariant any || ActiveCount(slots[i..], tick) > 0 <==> ActiveCount(slots, tick) > 0
      {
        var slot := slots[i];
        assert slots[i..][1..] == slots[i + 1..];
        if Active(slot, tick) {
          any := true;
          sumX := sumX + AxisValue(slot, 0, tune.strength, tick - slot.start);
          sumY := sumY + AxisValue(slot, 1, tune.strength, tick - slot.start);
        }
        i := i + 1;
      }
      if any {
        idle := 0;
      } else {
        idle := idle + 1;
      }
      intensity := Intensity(tune, filteredX, filteredY, sumX, sumY);
      filteredX := Filter(filteredX, sumX);
      filteredY := Filter(filteredY, sumY);
    }

    /** `core_effect_pulse`: one tick of the modulator, the dither and the calibration override. */
    method ModulatePulse(intensity: int, windowStart: int) returns (pulse: bool)
      modifies this`accumulator, this`burst, this`tuneCounter, this`dither
      ensures Pulsed(CarryView(), dither, pulse)
           == Effect.Pulse(tune, old(CarryView()), old(dither), intensity, windowStart)
    {
      hide Stir, StirAgain, Threshold, TunePulse;
      var r := Stir(dither, windowStart);
      dither := r;
      accumulator := accumulator + intensity;
      if intensity > 100 && burst == 0 {
        burst := r % 6 + 9;
      }
      if accumulator < 100 {
        burst := 0;
        pulse := false;
      } else {
        accumulator := accumulator - 100;
        pulse := true;
        if burst > 0 {
          r := StirAgain(r, windowStart);
          dither := r;
          burst := burst - 1;
          if burst < 6 && burst < Threshold(intensity, r) {
            pulse := false;
          }
        }
      }
      if accumulator > 100 {
        accumulator := 100;
      }
      pulse := OverridePulse(pulse);
    }

    /** In tuning mode the counter forces a pulse for the first slots of every twelve. */
    method OverridePulse(modulated: bool) returns (pulse: bool)
      modifies this`tuneCounter
      ensures (tuneCounter, pulse) == TunePulse(tune, old(tuneCounter), modulated)
    {
      pulse := modulated;
      if tune.active {
        var slots := tune.complement * tune.period;
        if slots > 0 {
          slots := TruncDiv(slots + 8000, 11112) + 1;
        }
        if tuneCounter < slots {
          pulse := true;
        }
        tuneCounter := tuneCounter + 1;
        if tuneCounter > 11 {
          tuneCounter := 0;
        }
      }
    }

    /** Ring slots are addressed relative to the head and wrap. */
    method RingIndex(offset: nat) returns (i: nat)
      requires Valid()
      ensures i == (head + offset) % RING
    {
      i := head + offset;
      while i >= RING
        invariant i % RING == (head + offset) % RING
      {
        i := i - RING;
      }
    }

    /** `core_tune_update`: returns true when the engine must be kicked. */
    method UpdateTune(hi: bv8, lo: bv8, rawX: int, rawY: int) returns (kick: bool)
      modifies this`tune
      ensures Tuned(tune, kick) == TuneUpdate(old(tune), hi, lo, rawX, rawY)
    {
      hide Period, StrengthFor, Entering, Leaving, Clamp, TruncDiv;
      kick := false;
      if Entering(hi, lo) {
        if !tune.active {
          tune := tune.(period := 0);
        }
        tune := tune.(active := true, held := true);
      }
      var wasHeld, wasActive := tune.held, tune.active;
      if tune.active {
        var y := -rawY;
        if y > 127 {
          y := -128;
        }
        var x := Clamp(rawX * 16, -STICK_LIMIT, STICK_LIMIT) + STICK_LIMIT;
        var duty := TruncDiv(Clamp(y * 16, -STICK_LIMIT, STICK_LIMIT) + STICK_LIMIT, 24);
        var period := Period(x);
        if period != tune.period || duty != tune.duty {
          kick := true;
        }
        tune := tune.(period := period, duty := duty, complement := 100 - duty);
        var strength := StrengthFor(lo & 0x0F);
        if strength >= 0 {
          tune := tune.(strength := strength);
        }
      }
      if Leaving(hi, lo) {
        tune := tune.(held := false);
      } else if wasActive && !wasHeld {
        tune := tune.(active := false, held := false);
        kick := true;
      }
    }

    /** `core_effect_condition_update`: sample the stick into every running condition. */
    method SampleConditions()
      requires Valid()
      modifies this`slots
      ensures Valid() && slots == UpdateConditions(old(slots), tune.strength, stickX, stickY)
    {
      if tune.strength == 0 {
        return;
      }
      var i := 0;
      while i < |slots|
        invariant 0 <= i <= |slots| == |old(slots)|
        invariant forall k :: 0 <= k < i ==> slots[k] == UpdateSlot(old(slots)[k], stickX, stickY)
        invariant forall k :: i <= k < |slots| ==> slots[k] == old(slots)[k]
      {
        slots := slots[i := UpdateSlot(slots[i], stickX, stickY)];
        i := i + 1;
      }
    }

    /** Make room for one more tick: grow, or roll the oldest out. */
    method MakeRoom() returns (rolled: bool)
      requires Valid()
      modifies this`head, this`count, this`base
      ensures Valid() && count > 0
      ensures rolled == (old(count) == RING)
      ensures if rolled then count == old(count) && head == (old(head) + 1) % RING && base == old(base) + 1
              else count == old(count) + 1 && head == old(head) && base == old(base)
    {
      if count == RING {
        head := RingIndex(1);
        base := base + 1;
        rolled := true;
      } else {
        count := count + 1;
        rolled := false;
      }
    }

    /** Store an entry at a live position. */
    method Store(pos: nat, e: Entry)
      requires Valid() && pos < count
      modifies ring
      ensures Live() == old(Live())[pos := e]
    {
      var r := RingIndex(pos);
      ring[r] := e;
      forall k | 0 <= k < count
        ensures Live()[k] == old(Live())[pos := e][k]
      {
        SameSlot(head, k, pos);
      }
    }

    static lemma SameSlot(head: nat, j: nat, k: nat)
      requires head < RING && j < RING && k < RING
      ensures (head + j) % RING == (head + k) % RING <==> j == k
    {
    }

    /** Append an entry: the window position is one past the end. */
    method Grow(e: Entry) returns (rolled: bool)
      requires Valid()
      modifies this`head, this`count, this`base, ring
      ensures Valid() && View() == Append(old(View()), e)
      ensures rolled == (old(count) == RING)
    {
      ghost var before := Live();
      rolled := MakeRoom();
      ghost var after := Live();
      assert forall k :: 0 <= k < count - 1 ==> after[k] == (if rolled then before[k + 1] else before[k]) by {
        forall k | 0 <= k < count - 1
          ensures after[k] == if rolled then before[k + 1] else before[k]
        {
          if rolled {
            NextSlot(old(head), k);
          }
        }
      }
      Store(count - 1, e);
      assert Live() == (if rolled then before[1..] else before) + [e];
    }

    static lemma NextSlot(head: nat, k: nat)
      requires head < RING && k < RING
      ensures ((head + 1) % RING + k) % RING == (head + (k + 1)) % RING
    {
    }

    /** Evaluate one tick of the window that starts at `tick`. */
    method ComputeTick(at: int, tick: int) returns (e: Entry)
      requires Valid()
      modifies this`filteredX, this`filteredY, this`accumulator, this`burst, this`tuneCounter, this`dither, this`idle
      ensures Valid() && (View(), e) == Compute(old(View()), at, tick)
    {
      hide AxisSum, ActiveCount, Intensity, Filter, Effect.Pulse;
      var intensity := SumIntensity(at);
      var pulse := ModulatePulse(intensity, tick);
      e := Entry(pulse, intensity, Carry(filteredX, filteredY, accumulator, burst, tuneCounter));
      assert Live() == old(Live());
    }

    /** One turn of the window loop: make room or compare, then store. */
    method StepInPlace(idx: nat, end: int, skip: int, verify: bool, tick: int)
      returns (newEnd: int, newSkip: int, newVerify: bool)
      requires Valid() && WindowOk(Window(View(), idx, end, skip, verify), tick) && idx < end
      modifies this`filteredX, this`filteredY, this`accumulator, this`burst, this`tuneCounter, this`dither, this`idle,
               this`head, this`count, this`base, ring
      ensures Valid()
      ensures Window(View(), idx + 1, newEnd, newSkip, newVerify)
           == Step(old(Window(View(), idx, end, skip, verify)), tick)
      ensures newVerify ==> head == old(head)
    {
      hide Compute, Unrolled;
      newEnd, newSkip, newVerify := end, skip, verify;
      var e := ComputeTick(tick + idx, tick);
      if count <= idx + skip {
        var rolled := Grow(e);
        if rolled {
          newSkip := skip - 1;
        }
      } else {
        var differs := Replace(idx + skip, e, verify);
        if differs {
          newVerify, newEnd := false, WINDOW;
        }
      }
    }

    /** Store over a live entry; one that differs while verifying drops everything after it. */
    method Replace(pos: nat, e: Entry, verify: bool) returns (differs: bool)
      requires Valid() && pos < count
      modifies this`count, ring
      ensures Valid() && differs == (verify && old(Live())[pos].pulse != e.pulse)
      ensures Live() == if differs then old(Live())[..pos] + [e] else old(Live())[pos := e]
    {
      var r := RingIndex(pos);
      differs := verify && ring[r].pulse != e.pulse;
      if differs {
        Truncate(pos + 1);
      }
      Store(pos, e);
    }

    /** Forget everything past the first `n` entries. */
    method Truncate(n: nat)
      requires Valid() && n <= count
      modifies this`count
      ensures Valid() && Live() == old(Live())[..n] && count == n
    {
      count := n;
    }

    /** Find the requested tick in the ring, or start the ring over at it. */
    method LocateInPlace(tick: int) returns (skip: nat)
      requires Valid()
      modifies this`base, this`count
      ensures Valid() && View() == Locate(old(View()), tick) && skip == tick - base <= count
    {
      var offset := tick - base;
      if offset < 1 || offset > count {
        base, count, offset := tick, 0, 0;
      }
      assert Live() == Locate(old(View()), tick).live;
      return offset;
    }

    /** Seed the carry from a live entry. */
    method SeedCarry(pos: nat)
      requires Valid() && pos < count
      modifies this`filteredX, this`filteredY, this`accumulator, this`burst, this`tuneCounter
      ensures Valid() && View() == old(View()).(carry := old(View()).live[pos].carry)
    {
      var i := RingIndex(pos);
      var c := ring[i].carry;
      assert ring[i] == Live()[pos];
      filteredX, filteredY, accumulator, burst, tuneCounter := c.fx, c.fy, c.acc, c.burst, c.counter;
      assert Live() == old(Live());
    }

    /** Locate the tick, choose between verifying and extending, seed the carry, sample the stick. */
    method BeginInPlace(lookahead: bool, tick: int) returns (idx: nat, end: int, skip: int, verify: bool)
      requires Valid()
      modifies this`base, this`count, this`slots,
               this`filteredX, this`filteredY, this`accumulator, this`burst, this`tuneCounter
      ensures Valid() && Window(View(), idx, end, skip, verify) == Begin(old(View()), lookahead, tick)
    {
      hide UpdateConditions, Locate;
      skip := LocateInPlace(tick);
      idx, end, verify := count - skip, WINDOW, false;
      if lookahead {
        idx, end, verify := 0, count - skip, true;
        if end == 0 {
          end, verify := WINDOW, false;
        }
      }
      if idx + skip > 0 {
        SeedCarry(idx + skip - 1);
      }
      ghost var live := Live();
      SampleConditions();
      assert Live() == live;
    }

    /** `core_effect_evaluate`: returns true when nothing changed and nothing need be sent. */
    method Evaluate(lookahead: bool, tick: int, payload: array<bv8>) returns (same: bool)
      requires Valid() && payload.Length == 4
      modifies this, ring, payload
      ensures Valid()
      ensures var r := EffectRing.Evaluate(old(View()), lookahead, tick, []);
              && View() == r.fx && same == !r.changed
              && (if same then payload[..] == old(payload[..]) else Carries(payload[..], r.payload))
      ensures same ==> head == old(head)
    {
      hide Begin, Step;
      ghost var start := Begin(View(), lookahead, tick);
      var idx, end, skip, verify := BeginInPlace(lookahead, tick);
      while idx < end
        invariant Valid() && idx >= 0 && WindowOk(Window(View(), idx, end, skip, verify), tick)
        invariant Loop(Window(View(), idx, end, skip, verify), tick) == Loop(start, tick)
        invariant payload[..] == old(payload[..]) && (verify ==> head == old(head))
        decreases verify, end - idx
      {
        end, skip, verify := StepInPlace(idx, end, skip, verify, tick);
        idx := idx + 1;
      }
      if verify {
        return true;
      }
      PackWindow(skip, payload);
      return false;
    }

    /** Pack the pulses of one window of live entries into the bitmap. */
    method PackWindow(skip: nat, payload: array<bv8>)
      requires Valid() && skip + WINDOW <= count && payload.Length == 4
      modifies payload
      ensures Carries(payload[..], Pulses(Live()[skip..skip + WINDOW]))
    {
      var i := 0;
      while i < 4
        invariant 0 <= i <= 4 && forall k :: 0 <= k < i ==> payload[k] == 0
      {
        payload[i] := 0;
        i := i + 1;
      }
      ghost var pulses := Pulses(Live()[skip..skip + WINDOW]);
      assert forall k :: 0 <= k < WINDOW ==> !BitSet(payload[..], k);
      hide Mask, BitSet, Pulses;
      i := 0;
      while i < WINDOW
        invariant 0 <= i <= WINDOW
        invariant Live() == old(Live())
        invariant forall k :: 0 <= k < WINDOW ==> BitSet(payload[..], k) == (k < i && pulses[k])
      {
        var r := RingIndex(skip + i);
        assert ring[r].pulse == pulses[i];
        if ring[r].pulse {
          ghost var was := payload[..];
          payload[i / 8] := payload[i / 8] | Mask(i % 8);
          assert payload[..] == was[i / 8 := was[i / 8] | Mask(i % 8)];
          forall k | 0 <= k < WINDOW
            ensures BitSet(payload[..], k) == (k == i || BitSet(was, k))
          {
            SettingBit(was, i, k);
          }
        }
        i := i + 1;
      }
    }
  }
}

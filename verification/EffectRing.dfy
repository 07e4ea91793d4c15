/**
  The effect ring as a sequence of live entries: verify what is stored, extend it,
  roll the oldest out. `live[k]` stands for tick `base + k`.
*/
module EffectRing {
  import opened Words
  import opened Effect

  const RING: nat := 96

  datatype Fx = Fx(
    slots: seq<Slot>, tune: Tune, stickX: int, stickY: int,
    carry: Carry, dither: u32, idle: int,
    live: seq<Entry>, base: int)

  /** `changed` is false when the bitmap already sent is still correct. */
  datatype Evaluated = Evaluated(fx: Fx, changed: bool, payload: seq<bool>)

  /** The loop's registers. */
  datatype Window = Window(fx: Fx, idx: nat, end: int, skip: int, verify: bool)

  ghost predicate RingOk(fx: Fx) {
    |fx.live| <= RING && |fx.slots| == SLOTS
  }

  /** The window's first tick stays where it was asked for, and the position is at most one past the end. */
  ghost predicate WindowOk(w: Window, tick: int) {
    && RingOk(w.fx) && 0 <= w.skip && w.fx.base + w.skip == tick
    && w.idx + w.skip <= |w.fx.live|
    && (if w.verify then w.end == |w.fx.live| - w.skip else w.end == WINDOW)
  }

  function Pulses(live: seq<Entry>): seq<bool> {
    seq(|live|, i requires 0 <= i < |live| => live[i].pulse)
  }

  /** Grow by one entry, rolling the oldest out of a full ring. */
  function Append(fx: Fx, e: Entry): (r: Fx)
    requires RingOk(fx)
    ensures RingOk(r) && r.base + |r.live| == fx.base + |fx.live| + 1
  {
    if |fx.live| == RING then fx.(live := fx.live[1..] + [e], base := fx.base + 1)
    else fx.(live := fx.live + [e])
  }

  /** The carry, generator and idle count after evaluating one tick, with the entry it produced. */
  function Compute(fx: Fx, tick: int, windowStart: int): (r: (Fx, Entry))
    ensures r.0 == fx.(carry := r.0.carry, dither := r.0.dither, idle := r.0.idle)
    ensures r.0.carry == r.1.carry
  {
    var t := Tick(fx.slots, fx.tune, fx.carry, fx.dither, fx.idle, tick, windowStart);
    (fx.(carry := t.entry.carry, dither := t.dither, idle := t.idle), t.entry)
  }

  /** One turn of the loop. */
  function Step(w: Window, tick: int): (r: Window)
    requires WindowOk(w, tick) && w.idx < w.end
    ensures WindowOk(r, tick) && r.idx == w.idx + 1
    ensures r.verify ==> w.verify && r.end == w.end
    ensures r.fx.slots == w.fx.slots && r.fx.tune == w.fx.tune
  {
    var pos := w.idx + w.skip;
    var (fx, e) := Compute(w.fx, tick + w.idx, tick);
    if pos == |fx.live| then
      var grown := Append(fx, e);
      Window(grown, w.idx + 1, WINDOW, tick - grown.base, false)
    else if w.verify && fx.live[pos].pulse != e.pulse then
      Window(fx.(live := fx.live[..pos] + [e]), w.idx + 1, WINDOW, w.skip, false)
    else
      Window(fx.(live := fx.live[pos := e]), w.idx + 1, w.end, w.skip, w.verify)
  }

  function Loop(w: Window, tick: int): (r: Window)
    requires WindowOk(w, tick)
    ensures WindowOk(r, tick) && r.idx >= r.end
    ensures r.verify ==> w.verify
    ensures r.fx.slots == w.fx.slots && r.fx.tune == w.fx.tune
    decreases w.verify, w.end - w.idx
  {
    if w.idx < w.end then Loop(Step(w, tick), tick) else w
  }

  /** Where the requested time sits; outside the ring it starts over. */
  function Locate(fx: Fx, tick: int): (r: Fx)
    requires RingOk(fx)
    ensures RingOk(r) && 0 <= tick - r.base <= |r.live|
    ensures 1 <= tick - fx.base <= |fx.live| ==> r == fx
  {
    var skip := tick - fx.base;
    if skip < 1 || skip > |fx.live| then fx.(base := tick, live := []) else fx
  }

  /** The registers before the loop: the carry comes from the entry before the first tick evaluated. */
  function Begin(fx: Fx, lookahead: bool, tick: int): (w: Window)
    requires RingOk(fx)
    ensures WindowOk(w, tick)
  {
    var f := Locate(fx, tick);
    var skip := tick - f.base;
    var ahead := |f.live| - skip;
    var idx := if lookahead then 0 else ahead;
    var verify := lookahead && ahead != 0;
    var seeded := if idx + skip > 0 then f.(carry := f.live[idx + skip - 1].carry) else f;
    var updated := seeded.(slots := UpdateConditions(f.slots, f.tune.strength, f.stickX, f.stickY));
    Window(updated, idx, if verify then ahead else WINDOW, skip, verify)
  }

  /** `core_effect_evaluate`. */
  function Evaluate(fx: Fx, lookahead: bool, tick: int, payload: seq<bool>): (r: Evaluated)
    requires RingOk(fx)
    ensures RingOk(r.fx)
  {
    var w := Loop(Begin(fx, lookahead, tick), tick);
    if w.verify then Evaluated(w.fx, false, payload)
    else Evaluated(w.fx, true, Pulses(w.fx.live[w.skip..w.skip + WINDOW]))
  }

  // ---- structure -------------------------------------------------------------------

  /** While verification has not failed, the ring still holds the pulses it held. */
  lemma {:induction false} VerifyingChangesNoPulse(w: Window, tick: int)
    requires WindowOk(w, tick)
    ensures var r := Loop(w, tick);
            r.verify ==>
              Pulses(r.fx.live) == Pulses(w.fx.live) && r.fx.base == w.fx.base && r.skip == w.skip
    decreases w.verify, w.end - w.idx
  {
    hide Compute;
    if w.idx < w.end {
      var s := Step(w, tick);
      VerifyingChangesNoPulse(s, tick);
      if s.verify {
        assert Pulses(s.fx.live) == Pulses(w.fx.live);
      }
    }
  }

  /**
    For any effect set, calibration and ring: an answer of "nothing changed" leaves
    the pulses, the number of entries, the base and the payload as they were; any
    other answer delivers the pulses of live entries for the window asked for.
  */
  lemma EvaluateDeliversLiveTicks(fx: Fx, lookahead: bool, tick: int, payload: seq<bool>)
    requires RingOk(fx)
    ensures var r := Evaluate(fx, lookahead, tick, payload);
            if r.changed then
              && 0 <= tick - r.fx.base && tick - r.fx.base + WINDOW <= |r.fx.live|
              && |r.payload| == WINDOW
              && forall i :: 0 <= i < WINDOW ==> r.payload[i] == r.fx.live[tick - r.fx.base + i].pulse
            else
              && lookahead && 1 <= tick - fx.base < |fx.live|
              && Pulses(r.fx.live) == Pulses(fx.live) && r.fx.base == fx.base && r.payload == payload
  {
    hide Loop, UpdateConditions, Begin, Pulses;
    var w := Begin(fx, lookahead, tick);
    VerifyingChangesNoPulse(w, tick);
    BeginVerifies(fx, lookahead, tick);
    if !Loop(w, tick).verify {
      PulsesOfWindow(Loop(w, tick));
    }
  }

  /** What a verification starts from. */
  lemma BeginVerifies(fx: Fx, lookahead: bool, tick: int)
    requires RingOk(fx)
    ensures var w := Begin(fx, lookahead, tick);
            w.verify ==>
              lookahead && 1 <= tick - fx.base < |fx.live| && w.fx.live == fx.live && w.fx.base == fx.base
  {
    hide UpdateConditions;
  }

  lemma PulsesOfWindow(w: Window)
    requires RingOk(w.fx) && 0 <= w.skip && w.skip + WINDOW <= |w.fx.live|
    ensures var p := Pulses(w.fx.live[w.skip..w.skip + WINDOW]);
            |p| == WINDOW && forall i :: 0 <= i < WINDOW ==> p[i] == w.fx.live[w.skip + i].pulse
  {
  }
}

/** A run with nine slots in which the transient product leaves the 32-bit range. */
module EffectOverflow {
  import opened Words
  import opened Effect
  import opened EffectBounds
  import opened EffectRing
  import opened EffectAgreement
  import opened EffectRuns
  import opened EffectSetup

  const NINE: nat := 9

  // ---- the calibration ------------------------------------------------------------------------

  /**
    Enter the mode, release the buttons with the D-pad up and the stick in its corner,
    and leave with another button: the widest calibration, from any other.
  */
  function Widen(): seq<Action> {
    [Calibrate(0xB0, 0x20, 127, 127), Calibrate(0x00, 0x08, 127, 127), Calibrate(0x01, 0x00, 127, 127)]
  }

  lemma WidestIsReachable(t: Tune)
    ensures var t1 := TuneUpdate(t, 0xB0, 0x20, 127, 127).tune;
            var t2 := TuneUpdate(t1, 0x00, 0x08, 127, 127).tune;
            TuneUpdate(t2, 0x01, 0x00, 127, 127).tune == WIDEST
  {
  }

  // ---- nine slots feed the filters ---------------------------------------------------------------

  /** Both filters hold what `m` ticks of nine full-scale slots make of them. */
  ghost predicate FedUp(c: Carry, m: nat) {
    c.fx == Fed(m, 0, 1143) && c.fy == Fed(m, 0, 1143)
  }

  /** The engine after `m` ticks, asked for one window after another. */
  ghost predicate Feeding(fx: Fx, m: nat) {
    && RingOk(fx) && fx.tune == WIDEST && fx.slots == Busy(NINE, SLOTS, FX_CLAMP)
    && fx.base + |fx.live| == m
    && FedUp(if fx.live == [] then fx.carry else fx.live[|fx.live| - 1].carry, m)
  }

  ghost predicate FeedingLoop(w: Window, tick: int) {
    && WindowOk(w, tick) && !w.verify && w.idx <= w.end == WINDOW && w.idx + w.skip == |w.fx.live|
    && tick >= 0 && Feeding(w.fx, tick + w.idx) && FedUp(w.fx.carry, tick + w.idx)
  }

  lemma FeedTick(fx: Fx, m: nat, base: int)
    requires Feeding(fx, m) && FedUp(fx.carry, m)
    ensures FedUp(Compute(fx, m, base).1.carry, m + 1) && FedUp(Compute(fx, m, base).0.carry, m + 1)
  {
    BusySums(NINE, SLOTS, FX_CLAMP, 0, 100, m);
    BusySums(NINE, SLOTS, FX_CLAMP, 1, 100, m);
    PulseKeepsFilters(fx, m, base);
    hide Busy, AxisSum, Filter, Compute;
  }

  lemma FeedAppend(fx: Fx, e: Entry, m: nat)
    requires RingOk(fx) && fx.tune == WIDEST && fx.slots == Busy(NINE, SLOTS, FX_CLAMP)
    requires fx.base + |fx.live| == m && FedUp(e.carry, m + 1)
    ensures Feeding(Append(fx, e), m + 1) && Append(fx, e).carry == fx.carry
  {
    hide Busy, Fed;
  }

  lemma FeedStep(w: Window, tick: int)
    requires FeedingLoop(w, tick) && w.idx < w.end
    ensures FeedingLoop(Step(w, tick), tick)
  {
    FeedTick(w.fx, tick + w.idx, tick);
    hide Compute, Busy, Fed, Append, FedUp, RingOk;
    var c := Compute(w.fx, tick + w.idx, tick);
    StepGrown(w, tick);
    FeedAppend(c.0, c.1, tick + w.idx);
  }

  lemma {:induction false} FeedLoop(w: Window, tick: int)
    requires FeedingLoop(w, tick)
    ensures WindowOk(w, tick) && FeedingLoop(Loop(w, tick), tick)
    decreases w.end - w.idx
  {
    hide Feeding, FedUp, Step, RingOk;
    if w.idx < w.end {
      FeedStep(w, tick);
      FeedLoop(Step(w, tick), tick);
    }
  }

  lemma FeedBegin(fx: Fx, m: nat)
    requires Feeding(fx, m) && (fx.live == [] ==> fx.base == m)
    ensures var w := Begin(fx, true, m); FeedingLoop(w, m) && WindowOk(w, m) && w.idx == 0
  {
    BusySampled(NINE, SLOTS, FX_CLAMP, 100, fx.stickX, fx.stickY);
    hide Busy, Fed, UpdateConditions;
  }

  /** Asking for the next window feeds another 32 ticks. */
  lemma FeedAsk(fx: Fx, m: nat)
    requires RingOk(fx) && Feeding(fx, m) && (fx.live == [] ==> fx.base == m)
    ensures Feeding(Act(fx, Ask(true, m)), m + WINDOW)
  {
    hide *;
    FeedBegin(fx, m);
    var w := Begin(fx, true, m);
    FeedLoop(w, m);
    FedAtEnd(Loop(w, m), m);
    AskIsLoop(fx, m);
  }

  lemma AskIsLoop(fx: Fx, m: int)
    requires RingOk(fx)
    ensures Act(fx, Ask(true, m)) == Loop(Begin(fx, true, m), m).fx
  {
    hide Loop, Begin;
  }

  lemma FedAtEnd(w: Window, tick: int)
    requires FeedingLoop(w, tick) && w.idx >= w.end
    ensures Feeding(w.fx, tick + WINDOW)
  {
    hide Feeding, FedUp;
  }

  /** Nine constant effects the other way round replace the first nine, and the next window is asked for. */
  function Reverse(tick: nat): seq<Action> {
    [Program(Busy(NINE, SLOTS, -FX_CLAMP)), Ask(true, tick)]
  }

  /** One window after another, and then the reversal. */
  function Asks(n: nat, tick: nat): seq<Action> {
    if n == 0 then Reverse(tick) else [Ask(true, tick)] + Asks(n - 1, tick + WINDOW)
  }

  /** The engine with the effects reversed, the filters still high. */
  ghost predicate Reversed(fx: Fx, m: nat) {
    && RingOk(fx) && fx.tune == WIDEST && fx.slots == Busy(NINE, SLOTS, -FX_CLAMP)
    && fx.live != [] && fx.base + |fx.live| == m && FedUp(fx.live[|fx.live| - 1].carry, m)
  }

  lemma ReversedBegin(fx: Fx, m: nat)
    requires Reversed(fx, m)
    ensures var w := Begin(fx, true, m);
            && WindowOk(w, m) && w.idx == 0 && w.idx < w.end && FedUp(w.fx.carry, m)
            && w.fx.tune == WIDEST && w.fx.slots == Busy(NINE, SLOTS, -FX_CLAMP)
  {
    BusySampled(NINE, SLOTS, -FX_CLAMP, 100, fx.stickX, fx.stickY);
    hide Busy, Fed, UpdateConditions;
  }

  lemma FirstTickFits(w: Window, tick: int)
    requires WindowOk(w, tick) && w.idx < w.end && w.idx == 0
    ensures LoopFits(w, tick) ==> TickFits(w.fx, tick)
  {
    hide TickFits, Step;
  }

  lemma TickOverflows(fx: Fx, m: nat)
    requires fx.tune == WIDEST && fx.slots == Busy(NINE, SLOTS, -FX_CLAMP) && FedUp(fx.carry, m) && m >= 40
    ensures !TickFits(fx, m)
  {
    hide Busy, AllFit, Intermediates, Fed, AxisSum;
    FedRises(m);
    BusySums(NINE, SLOTS, -FX_CLAMP, 0, 100, m);
    BusySums(NINE, SLOTS, -FX_CLAMP, 1, 100, m);
    ReversalOverflows(Fed(m, 0, 1143));
  }

  /** The first tick after the reversal overflows. */
  lemma ReverseOverflows(fx: Fx, m: nat)
    requires RingOk(fx) && Feeding(fx, m) && fx.live != [] && m >= 40
    ensures !RunFits(fx, Reverse(m)) && NeverMore(fx, Reverse(m), NINE)
  {
    hide *;
    var f := Act(fx, Program(Busy(NINE, SLOTS, -FX_CLAMP)));
    NowReversed(fx, m);
    ReversedBegin(f, m);
    var w := Begin(f, true, m);
    TickOverflows(w.fx, m);
    FirstTickFits(w, m);
    NineRun(f, m, Reach(f, m));
    ReverseUnfolds(fx, m);
  }

  lemma NowReversed(fx: Fx, m: nat)
    requires RingOk(fx) && Feeding(fx, m) && fx.live != []
    ensures var f := Act(fx, Program(Busy(NINE, SLOTS, -FX_CLAMP)));
            Reversed(f, m) && f.slots == Busy(NINE, SLOTS, -FX_CLAMP)
  {
    hide Busy, Fed;
  }

  lemma ReverseUnfolds(fx: Fx, m: nat)
    requires RingOk(fx)
    ensures var f := Act(fx, Program(Busy(NINE, SLOTS, -FX_CLAMP)));
            && (RunFits(fx, Reverse(m)) ==> LoopFits(Begin(f, true, m), m))
            && (AtMost(f.slots, NINE, m, Reach(f, m)) ==> NeverMore(fx, Reverse(m), NINE))
  {
    var actions := Reverse(m);
    var f := Act(fx, actions[0]);
    assert actions[1..] == [Ask(true, m)];
    hide LoopFits, Begin, AtMost, Reach, Act, Busy;
    Quiet(fx, actions);
    AskFirst(f, actions[1..], m);
    NothingMore(Act(f, Ask(true, m)), actions[1..][1..]);
  }

  lemma {:induction false} AsksOverflow(fx: Fx, n: nat, m: nat)
    requires RingOk(fx) && Feeding(fx, m) && m + n * WINDOW >= 40 && (fx.live == [] ==> n > 0 && fx.base == m)
    ensures !RunFits(fx, Asks(n, m)) && NeverMore(fx, Asks(n, m), NINE)
    decreases n
  {
    hide *;
    AsksUnfold(n, m);
    if n == 0 {
      ReverseOverflows(fx, m);
    } else {
      FedSlots(fx, m);
      NineRun(fx, m, Reach(fx, m));
      AskFirst(fx, Asks(n, m), m);
      FeedAsk(fx, m);
      FeedingGrows(fx, m);
      AsksOverflow(Act(fx, Ask(true, m)), n - 1, m + WINDOW);
    }
  }

  lemma FedSlots(fx: Fx, m: nat)
    requires Feeding(fx, m)
    ensures fx.slots == Busy(NINE, SLOTS, FX_CLAMP)
  {
    hide Busy, Fed;
  }

  lemma AsksUnfold(n: nat, m: nat)
    ensures n == 0 ==> Asks(n, m) == Reverse(m)
    ensures n > 0 ==> Asks(n, m) != [] && Asks(n, m)[0] == Ask(true, m) && Asks(n, m)[1..] == Asks(n - 1, m + WINDOW)
  {
    hide Reverse;
  }

  lemma AskFirst(fx: Fx, actions: seq<Action>, m: int)
    requires RingOk(fx) && actions != [] && actions[0] == Ask(true, m)
    ensures RunFits(fx, actions) <==> LoopFits(Begin(fx, true, m), m) && RunFits(Act(fx, actions[0]), actions[1..])
    ensures NeverMore(fx, actions, NINE) <==>
              AtMost(fx.slots, NINE, m, Reach(fx, m)) && NeverMore(Act(fx, actions[0]), actions[1..], NINE)
  {
    hide LoopFits, Begin, Act, AtMost, Reach;
  }

  lemma NothingMore(fx: Fx, actions: seq<Action>)
    requires RingOk(fx) && actions == []
    ensures NeverMore(fx, actions, NINE)
  {
  }

  /** An evaluation leaves entries in the ring. */
  lemma FeedingGrows(fx: Fx, m: int)
    requires RingOk(fx)
    ensures Act(fx, Ask(true, m)).live != []
  {
    EvaluateDeliversLiveTicks(fx, true, m, []);
    hide Evaluate;
  }

  lemma NineRun(fx: Fx, from: nat, to: int)
    requires fx.slots == Busy(NINE, SLOTS, FX_CLAMP) || fx.slots == Busy(NINE, SLOTS, -FX_CLAMP)
    ensures AtMost(fx.slots, NINE, from, to)
  {
    forall t: int | from <= t < to
      ensures ActiveCount(fx.slots, t) <= NINE
    {
      BusySums(NINE, SLOTS, FX_CLAMP, 0, 100, t);
      BusySums(NINE, SLOTS, -FX_CLAMP, 0, 100, t);
    }
  }

  // ---- the run ---------------------------------------------------------------------------------------

  /** A device as it starts: nothing evaluated, nothing programmed. */
  ghost predicate JustStarted(fx: Fx) {
    && |fx.slots| == SLOTS && fx.tune == INITIAL && fx.carry == Carry(0, 0, 0, 0, 0) && fx.live == [] && fx.base == 0
    && fx.stickX == 0 && fx.stickY == 0 && fx.dither == 0 && fx.idle == 0
  }

  /** Widen the calibration, program nine effects, ask for some windows, reverse the effects and ask again. */
  function NineRunning(windows: nat): seq<Action> {
    Widen() + [Program(Busy(NINE, SLOTS, FX_CLAMP))] + Asks(windows, 0)
  }

  /**
    Eight is the limit: a device as it starts, whose filters are at rest, is driven out
    of the 32-bit range by calibrating, programming constant effects and playing them
    for two windows or more, with nine slots running at every tick.
  */
  lemma NineSlotsOverflow(fx: Fx, windows: nat)
    requires JustStarted(fx) && windows >= 2
    ensures RingOk(fx) && Bounded(fx)
    ensures NeverMore(fx, NineRunning(windows), NINE) && !RunFits(fx, NineRunning(windows))
  {
    hide TuneUpdate, Busy, Asks, LoopFits, Evaluate;
    var f := Skip(fx, Asks(windows, 0));
    AsksOverflow(f, windows, 0);
  }

  /** The run up to the first window: nothing is asked, so nothing can overflow yet. */
  lemma Skip(fx: Fx, asks: seq<Action>) returns (f: Fx)
    requires JustStarted(fx)
    ensures RingOk(fx) && RingOk(f) && f.live == [] && f.base == 0 && Feeding(f, 0)
    ensures var run := Widen() + [Program(Busy(NINE, SLOTS, FX_CLAMP))] + asks;
            (RunFits(fx, run) <==> RunFits(f, asks)) && (NeverMore(fx, run, NINE) <==> NeverMore(f, asks, NINE))
  {
    hide *;
    var w := Widen();
    var program := Program(Busy(NINE, SLOTS, FX_CLAMP));
    var run := w + [program] + asks;
    StartsOk(fx);
    assert |w| == 3 && w[0].Calibrate? && w[1].Calibrate? && w[2].Calibrate? by { WidenIs(); }
    Quiet(fx, run);
    var f1 := Act(fx, w[0]);
    assert run[1..] == w[1..] + [program] + asks;
    Quiet(f1, run[1..]);
    var f2 := Act(f1, w[1]);
    assert run[1..][1..] == w[2..] + [program] + asks;
    Quiet(f2, run[1..][1..]);
    var f3 := Act(f2, w[2]);
    assert run[1..][1..][1..] == [program] + asks;
    Quiet(f3, run[1..][1..][1..]);
    f := Act(f3, program);
    assert run[1..][1..][1..][1..] == asks;
    ReadyToFeed(fx);
  }

  lemma StartsOk(fx: Fx)
    requires JustStarted(fx)
    ensures RingOk(fx)
  {
  }

  lemma WidenIs()
    ensures |Widen()| == 3 && Widen()[0].Calibrate? && Widen()[1].Calibrate? && Widen()[2].Calibrate?
  {
  }

  lemma ReadyToFeed(fx: Fx)
    requires JustStarted(fx) && RingOk(fx)
    ensures var w := Widen();
            var f := Act(Act(Act(Act(fx, w[0]), w[1]), w[2]), Program(Busy(NINE, SLOTS, FX_CLAMP)));
            RingOk(f) && f.live == [] && f.base == 0 && Feeding(f, 0)
  {
    WidestIsReachable(fx.tune);
    hide TuneUpdate, Busy, Evaluate;
  }

  /** An action that asks for nothing evaluates nothing. */
  lemma Quiet(fx: Fx, actions: seq<Action>)
    requires RingOk(fx) && actions != [] && !actions[0].Ask?
    ensures RunFits(fx, actions) <==> RunFits(Act(fx, actions[0]), actions[1..])
    ensures NeverMore(fx, actions, NINE) <==> NeverMore(Act(fx, actions[0]), actions[1..], NINE)
  {
    hide Act;
  }
}

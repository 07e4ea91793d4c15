/** What the builtins tell a script and the host, what a load starts, and how long a sleep lasts. */
module SchedLaws {
  import opened Words
  import opened Script
  import opened ScriptLaws
  import opened SchedState
  import opened SchedNative
  import opened SchedInvariant
  import opened SchedPass
  import opened SchedRun
  import opened SchedLoad

  // ---- the clock -------------------------------------------------------------------------

  /** The longest sleep either way that 32 bits hold in units of 100 ns. */
  const LONGEST_MS: int := 214748

  /** A sleep lasts ten thousand units for every millisecond, unless the product leaves 32 bits: then it never does. */
  lemma SleepLasts(wake: u64, ms: u32)
    requires 0 <= wake + ToS32(ms) * MS_100NS < TWO_64
    ensures SleepUntil(wake, ms) == wake + ToS32(ms) * MS_100NS <==> -LONGEST_MS <= ToS32(ms) <= LONGEST_MS
  {
    var d := ToS32(ms) * MS_100NS;
    var w := ToS32(Wrap(d));
    assert d == w <==> -TWO_31 <= d < TWO_31;
    assert -TWO_31 * MS_100NS <= d < TWO_31 * MS_100NS;
    DistinctMod(wake + d, wake + w);
  }

  lemma DistinctMod(a: int, b: int)
    requires 0 <= a < TWO_64 && -TWO_63 <= a - b < TWO_63
    ensures Wrap64(b) == a <==> a == b
  {
  }

  /** A thread that sleeps sees its own time move on by exactly what it asked for, whenever it gets to run. */
  lemma SleepMovesTime(wake: u64, loadTime: u64, ms: u32)
    requires loadTime <= wake && ToS32(ms) >= 0 && ToS32(ms) <= LONGEST_MS
    requires wake - loadTime + TWO_31 < TWO_63 && wake + TWO_31 < TWO_64
    ensures TimeOf(SleepUntil(wake, ms), loadTime) == Wrap(TimeOf(wake, loadTime) + ms)
  {
    var n := ToS32(ms);
    SleepLasts(wake, ms);
    assert SleepUntil(wake, ms) == wake + n * MS_100NS;
    hide SleepUntil;
    TimeCounts(wake, loadTime);
    TimeCounts(wake + n * MS_100NS, loadTime);
    LaterCounts(wake - loadTime, n);
    WrapAdds((wake - loadTime) / MS_100NS, n);
    hide TimeOf, Wrap;
  }

  lemma TimeCounts(wake: u64, loadTime: u64)
    requires loadTime <= wake < loadTime + TWO_63
    ensures TimeOf(wake, loadTime) == Wrap((wake - loadTime) / MS_100NS)
  {
  }

  lemma LaterCounts(d: int, n: int)
    ensures (d + n * MS_100NS) / MS_100NS == d / MS_100NS + n
  {
  }

  lemma WrapAdds(a: int, n: int)
    ensures Wrap(a + n) == Wrap(Wrap(a) + n)
  {
  }

  // ---- the builtins' arguments -----------------------------------------------------------

  /** A thread calls a builtin, its arguments in the two slots above the stack pointer. */
  predicate Calling(h: Host, c: Core, varCount: nat) {
    h.current.Some? && Script.Ready(varCount, c) && c.sp + 2 < LOCALS
  }

  function Given(c: Core, varCount: nat, k: nat): u32
    requires Script.Ready(varCount, c) && c.sp + k < LOCALS
  {
    c.vars[varCount + c.sp + k]
  }

  /**
    The slot a script names as local `k` before a call is the one a builtin reads as
    its argument `k`.
  */
  lemma ArgumentsReachBuiltins<E>(p: Program<E>, env: E, c: Core, k: nat, call: Core)
    requires 1 <= k < LOCALS && c.sp + k < LOCALS && AtPair(p, c, OP_LOC, k)
    requires Script.Ready(p.varCount, call) && call.sp == c.sp
    ensures var name := Exec(p, env, c).core.acc;
            VarIndex(name, p.varCount) == Some(p.varCount + c.sp + k)
            && NativeArg(call, p.varCount, k) == call.vars[p.varCount + c.sp + k]
  {
    WrapSmall(k);
    DoLocal(p, env, c, k);
    hide Exec, VarIndex;
  }

  /** The nearest number to `v` the joystick can report. */
  predicate Nearest(x: int, v: int) {
    && -STICK_LIMIT <= x <= STICK_LIMIT
    && (-STICK_LIMIT <= v <= STICK_LIMIT ==> x == v)
    && (v > STICK_LIMIT ==> x == STICK_LIMIT) && (v < -STICK_LIMIT ==> x == -STICK_LIMIT)
  }

  /** A button builtin sets the button it names, from 1, and no other; any other number is passed over. */
  lemma ButtonBuiltin(h: Host, c: Core, varCount: nat)
    requires Calling(h, c, varCount) && h.pad.Some?
    ensures var r := Native(h, c, varCount, FN_BUTTON);
            var n, down := ToS32(Given(c, varCount, 1)), Given(c, varCount, 2) != 0;
            && r.acc == c.acc && r.status == Running && r.env == h.(pad := r.env.pad) && r.env.pad.Some?
            && r.env.pad.value.x == h.pad.value.x && r.env.pad.value.y == h.pad.value.y
            && forall i :: 0 <= i < 16 ==>
                 r.env.pad.value.buttons[i] == if n == i + 1 then down else h.pad.value.buttons[i]
  {
  }

  /** The stick builtins put each axis at the nearest place to what was asked for, or to where the move would end. */
  lemma StickBuiltins(h: Host, c: Core, varCount: nat, id: u32)
    requires Calling(h, c, varCount) && h.pad.Some? && (id == FN_STICK || id == FN_STICK_REL)
    requires var p := h.pad.value; -STICK_LIMIT <= p.x <= STICK_LIMIT && -STICK_LIMIT <= p.y <= STICK_LIMIT
    ensures var r := Native(h, c, varCount, id);
            var a, b := ToS32(Given(c, varCount, 1)), ToS32(Given(c, varCount, 2));
            var x := if id == FN_STICK then a else a + h.pad.value.x;
            var y := if id == FN_STICK then b else b + h.pad.value.y;
            && r.acc == c.acc && r.status == Running && r.env == h.(pad := r.env.pad) && r.env.pad.Some?
            && r.env.pad.value.buttons == h.pad.value.buttons
            && (-TWO_31 <= x < TWO_31 ==> Nearest(r.env.pad.value.x, x))
            && (-TWO_31 <= y < TWO_31 ==> Nearest(r.env.pad.value.y, y))
  {
    var a, b := ToS32(Given(c, varCount, 1)), ToS32(Given(c, varCount, 2));
    Fits(a + h.pad.value.x);
    Fits(b + h.pad.value.y);
    hide Wrap, ToS32;
  }

  lemma Fits(v: int)
    ensures -TWO_31 <= v < TWO_31 ==> ToS32(Wrap(v)) == v
  {
  }

  // ---- events ----------------------------------------------------------------------------

  /** The builtins that only tell the host something, and what each tells it. */
  predicate Tells(id: u32, a: u32, b: u32, e: SchedState.Event) {
    || (id == FN_KEY && e == SchedState.Event(0, a, b))
    || (id == FN_MOUSE_BUTTON && e == SchedState.Event(1, a, b))
    || (id == FN_MOUSE_REL && e == SchedState.Event(2, a, b))
    || (id == FN_MOUSE_ABS && e.kind == 3 && OnScreen(e.arg1, ToS32(a)) && OnScreen(e.arg2, ToS32(b)))
    || (id == FN_DEBUG && e == SchedState.Event(0x4D, a, b))
  }

  /** The nearest number to `v` from 0 to 0xFFFF. */
  predicate OnScreen(x: u32, v: int) {
    x <= 0xFFFF && (0 <= v <= 0xFFFF ==> x == v) && (v < 0 ==> x == 0) && (v > 0xFFFF ==> x == 0xFFFF)
  }

  /** Each of them puts one event, with its two arguments in their order, behind those that wait. */
  lemma TellingBuiltins(h: Host, c: Core, varCount: nat, id: u32)
    requires Calling(h, c, varCount)
    requires FN_KEY <= id <= FN_MOUSE_ABS || id == FN_DEBUG
    ensures var r := Native(h, c, varCount, id);
            && r.acc == c.acc && r.status == Running && r.env.events != []
            && r.env == h.(events := r.env.events, dropped := r.env.dropped)
            && Tells(id, Given(c, varCount, 1), Given(c, varCount, 2), r.env.events[|r.env.events| - 1])
            && r.env.events[..|r.env.events| - 1] == (if |h.events| >= EVENTS then h.events[1..] else h.events)
  {
    hide ToS32;
  }

  /** The builtins about the thread itself. */
  lemma OwnBuiltins(h: Host, c: Core, varCount: nat)
    requires Calling(h, c, varCount)
    ensures var self := h.current.value;
            && Native(h, c, varCount, FN_EXIT) == NativeResult(h, c.acc, Terminated)
            && Native(h, c, varCount, FN_GETPID) == NativeResult(h, Wrap(self.id), Running)
            && Native(h, c, varCount, FN_STICK_SWAP) == NativeResult(h, c.acc, Running)
            && Native(h, c, varCount, FN_SET_RUMBLE) == NativeResult(h, c.acc, Running)
            && var r := Native(h, c, varCount, FN_SLEEP);
               && r.acc == 1 && r.status == Sleeping && r.env.current.Some?
               && r.env == h.(current := Some(self.(wake := r.env.current.value.wake)))
  {
    hide SleepUntil, Wrap;
  }

  lemma UnknownBuiltins(h: Host, c: Core, varCount: nat, id: u32)
    requires id < FN_BUTTON || id > FN_DEBUG
    ensures Native(h, c, varCount, id) == NativeResult(h, c.acc, BadNative)
  {
    hide NativeArg;
  }

  function PostAll(h: Host, es: seq<SchedState.Event>): Host
    decreases |es|
  {
    if es == [] then h else PostAll(PostEvent(h, es[0].kind, es[0].arg1, es[0].arg2), es[1..])
  }

  /** However many events are posted, the last hundred wait, in order, and the rest are counted. */
  lemma {:induction false} TheLatestEventsWait(h: Host, es: seq<SchedState.Event>)
    requires |h.events| <= EVENTS
    ensures var all, r := h.events + es, PostAll(h, es);
            var lost := Max(|all| - EVENTS, 0);
            r.events == all[lost..] && r.dropped == h.dropped + lost
    decreases |es|
  {
    if es == [] {
      assert h.events + es == h.events;
    } else {
      var h1 := PostEvent(h, es[0].kind, es[0].arg1, es[0].arg2);
      TheLatestEventsWait(h1, es[1..]);
      var all := h.events + es;
      if |h.events| < EVENTS {
        assert h1.events + es[1..] == all;
      } else {
        assert h1.events + es[1..] == all[1..];
      }
    }
  }

  // ---- what a load starts ----------------------------------------------------------------

  /** The storage of a loaded script: a full bucket, globals at zero, the code as it was given. */
  ghost predicate Fresh(s: Sched, code: seq<u32>, varCount: nat, now: u64) {
    && s.budget == BUDGET && s.schedTime == now && s.host.loadTime == now
    && s.code == code && s.varCount == varCount && |s.vars| == varCount + LOCALS
    && forall i :: 0 <= i < varCount ==> s.vars[i] == 0
  }

  lemma AllocatesFresh(s: Sched, code: seq<u32>, varCount: nat, now: u64)
    requires SchedInv(s) && !Loaded(s) && Idle(s) && code != [] && varCount > 0 && s.faultVars == None
    ensures var a := Allocate(s, code, varCount, now);
            a.ok ==> Fresh(a.sched, code, varCount, now)
  {
    hide SchedInv, Between, Idle;
  }

  /** The first thread: at the start of the code with nothing on its stack, due at once, and alone. */
  lemma FirstThreadIsMain(s: Sched, now: u64)
    requires SchedInv(s) && Loaded(s) && Idle(s) && s.host.ready == []
    ensures var f := FirstThread(s, now);
            f.ok ==>
              && f.sched == s.(host := f.sched.host) && f.sched.host.loadTime == s.host.loadTime
              && |f.sched.host.ready| == 1
              && var t := f.sched.host.ready[0];
                 t.pc == 0 && t.acc == 0 && t.depth == 0 && t.wake == now
  {
    SpawnKeeps(s, 0);
    hide SchedInv, HandInv, HostInv, Junk, Alloc;
  }

  /**
    A load that succeeds runs its first pass from a scheduler with a full bucket, globals at
    zero, and one thread at the start of the code, due at the time of the load.
  */
  lemma LoadStartsMain(s: Sched, code: seq<u32>, varCount: int, now: u64)
    requires SchedInv(s) && Load(s, code, varCount, now).ok
    ensures varCount > 0
    ensures exists s0: Sched ::
              && SchedInv(s0) && !s0.running && s0.pending == None
              && Load(s, code, varCount, now).sched == SchedRun.Run(s0, now)
              && Fresh(s0, code, varCount, now) && |s0.host.ready| == 1
              && var t := s0.host.ready[0];
                 t.pc == 0 && t.acc == 0 && t.depth == 0 && t.wake == now
  {
    var s1 := Unload(s);
    UnloadedSlot(s1);
    var a := Allocate(s1, code, varCount, now);
    AllocatesFresh(s1, code, varCount, now);
    FirstThreadIsMain(a.sched, now);
    hide SchedInv, Unload, Allocate, FirstThread, SchedRun.Run, Settled;
    var s0 := FirstThread(a.sched, now).sched;
    assert Fresh(s0, code, varCount, now);
  }

  // ---- statuses --------------------------------------------------------------------------

  /** A fault's code names its status, and the three that are no fault are 1, 9 and 11. */
  lemma CodesNameStatuses(a: Status, b: Status)
    ensures StatusCode(a) == StatusCode(b) ==> a == b
    ensures StatusCode(a) <= 11
    ensures StatusCode(Terminated) == 1 && StatusCode(Sleeping) == 9 && StatusCode(NoMemory) == 11
  {
  }

  // ---- the latch -------------------------------------------------------------------------

  lemma {:induction false} LastCallerWins(s: Sched, batch: seq<Arrival>, t: u64)
    requires SchedInv(s) && Loaded(s) && batch != [] && batch[|batch| - 1] == RunAt(t)
    ensures ArriveAll(s, batch).pending == Some(t)
    decreases |batch|
  {
    hide SchedInv, Input, FaultTake;
    if |batch| == 1 {
      assert ArriveAll(SchedRun.Arrive(s, batch[0]), batch[1..]).pending == Some(t);
    } else {
      assert batch[1..][|batch| - 2] == RunAt(t);
      LastCallerWins(SchedRun.Arrive(s, batch[0]), batch[1..], t);
    }
  }

  /** A pass that a caller asked to look again does so at the time the last caller gave, and settles there. */
  lemma ALatchedTimeIsServed(s: Sched, now: u64, batch: seq<Arrival>, t: u64)
    requires SchedInv(s) && Loaded(s) && s.pending == None && s.arrivals == [batch]
    requires batch != [] && batch[|batch| - 1] == RunAt(t)
    ensures var r := Passes(s, now);
            && r.schedTime == t && |r.sweeps| == |s.sweeps| + 2
            && r.sweeps[|s.sweeps|].now == now && r.sweeps[|s.sweeps| + 1].now == t
  {
    hide SchedInv, SweepOnce, ArriveAll, Drain, Settled, NothingDue;
    var swept := SweepOnce(s, now);
    var s1 := swept.(arrivals := Later(swept.arrivals));
    BooksKeep(swept, s1);
    LastCallerWins(s1, batch, t);
    AskedAgain(s, now, t);
  }

  lemma AskedAgain(s: Sched, now: u64, t: u64)
    requires SchedInv(s) && Loaded(s) && s.pending == None && |s.arrivals| == 1
    requires Turn(s, now).pending == Some(t)
    ensures var r := Passes(s, now);
            && r.schedTime == t && |r.sweeps| == |s.sweeps| + 2
            && r.sweeps[|s.sweeps|].now == now && r.sweeps[|s.sweeps| + 1].now == t
  {
    hide SchedInv, Turn, Settled, NothingDue;
    var s1 := Turn(s, now);
    var s2 := s1.(pending := None);
    BooksKeep(s1, s2);
    var s3 := Turn(s2, t);
    assert s2.arrivals == [] && s3.pending == None;
  }
}

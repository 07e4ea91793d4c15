/** What forking, waking, killing and stopping do to the threads concerned, and to nobody else. */
module SchedBuiltins {
  import opened Words
  import opened Script
  import opened SchedState
  import opened SchedNative
  import opened SchedInvariant
  import opened SchedPass

  lemma InsertThenRemove<T>(s: seq<T>, k: nat, x: T)
    requires k <= |s|
    ensures RemoveAt(InsertAt(s, k, x), k) == s
  {
  }

  // ---- fork, wake, kill ----------------------------------------------------------------

  /** Too many threads wait, or there is no node for one more. */
  predicate ForkRefused(h: Host, c: Core) {
    h.count > MAX_THREADS - 1 || ThreadAlloc(h, Max(c.sp, 0)).1.None?
  }

  /** A child with the parent's place, wake time and live stack, and a clear accumulator. */
  ghost predicate ChildOf(t: Thread, parent: Thread, id: nat, c: Core, varCount: nat)
    requires Script.Ready(varCount, c)
  {
    && t.id == id && t.pc == c.pc && t.acc == 0 && t.wake == parent.wake
    && t.depth == c.sp <= |t.stack| && t.stack[..c.sp] == c.vars[varCount..varCount + c.sp]
  }

  /**
    A fork either leaves the list alone and answers -1, or adds one thread, the child,
    with a new id, and answers that id; every other thread stays as and where it was.
  */
  lemma ForkAddsAChild(h: Host, c: Core, varCount: nat) returns (k: nat)
    requires h.current.Some? && Script.Ready(varCount, c)
    ensures var r := Fork(h, c, varCount);
            if ForkRefused(h, c) then r.acc == 0xFFFF_FFFF && r.env.ready == h.ready
            else
              && k < |r.env.ready| && RemoveAt(r.env.ready, k) == h.ready
              && ChildOf(r.env.ready[k], h.current.value, h.nextId + 1, c, varCount)
              && r.acc == Wrap(h.nextId + 1)
  {
    k := 0;
    if !ForkRefused(h, c) {
      var (h1, child) := ThreadAlloc(h, c.sp);
      k := Position(h1.ready, h.current.value.wake);
      var r := Fork(h, c, varCount).env;
      var live := LiveStack(c, varCount, c.sp);
      assert live == c.vars[varCount..varCount + c.sp];
      assert r.ready[k].stack[..c.sp] == live;
      InsertThenRemove(h.ready, k, r.ready[k]);
      hide ThreadAlloc, Position, LiveStack;
    }
  }

  /**
    Waking moves one thread: the woken one is requeued for the given time with its
    accumulator cleared and everything else it has; the others stay as and where they were.
  */
  lemma WakeReschedules(h: Host, id: nat, wake: u64) returns (k: nat)
    ensures var i, r := FindThread(h.ready, id), Wake(h, id, wake);
            if i == |h.ready| then r == h
            else
              && k < |r.ready| && RemoveAt(r.ready, k) == RemoveAt(h.ready, i)
              && r.ready[k] == h.ready[i].(wake := wake, acc := 0, stamp := h.stamp)
              && r.count == h.count && r.free == h.free
  {
    k := 0;
    var i := FindThread(h.ready, id);
    if i < |h.ready| {
      hide FindThread, InsertAt, RemoveAt;
      var t := h.ready[i].(wake := wake, acc := 0, stamp := h.stamp);
      k := Position(RemoveAt(h.ready, i), wake);
      InsertThenRemove(RemoveAt(h.ready, i), k, t);
    }
  }

  /** Killing takes one thread off the list, its node to the head of the pool, and its id is gone. */
  lemma KillRetires(h: Host, outside: multiset<nat>, id: nat)
    requires HostInv(h, outside)
    ensures var i, r := FindThread(h.ready, id), Kill(h, id);
            && NotReady(r.ready, id)
            && if i == |h.ready| then r == h
               else r.ready == RemoveAt(h.ready, i) && r.free == [h.ready[i]] + h.free && r.count == h.count - 1
  {
    var i := FindThread(h.ready, id);
    if i < |h.ready| {
      IdsDiffer(h, outside, i);
    }
    hide FindThread, HandInv, HostInv;
  }

  lemma IdsDiffer(h: Host, outside: multiset<nat>, i: nat)
    requires HostInv(h, outside) && i < |h.ready|
    ensures forall j :: 0 <= j < |h.ready| && j != i ==> h.ready[j].id != h.ready[i].id
  {
    hide Owned, Debts, Pooled, OnCpu;
  }

  /** The joystick position the builtins write is always one the report can carry. */
  predicate PadInRange(pad: Option<Pad>) {
    pad.Some? ==> -STICK_LIMIT <= pad.value.x <= STICK_LIMIT && -STICK_LIMIT <= pad.value.y <= STICK_LIMIT
  }

  lemma JoystickStaysInRange(h: Host, c: Core, varCount: nat, id: u32)
    requires PadInRange(h.pad)
    ensures PadInRange(Native(h, c, varCount, id).env.pad)
  {
    hide ThreadAlloc, InsertAt, RemoveAt, Position, FindThread, LiveStack, NativeArg, Wrap, ToS32;
  }

  // ---- where a stopped thread goes ---------------------------------------------------------

  /** The machine's registers and live stack, saved under the thread's id and wake time. */
  ghost predicate Saved(n: Thread, t: Thread, c: Core, varCount: nat)
    requires Storage(varCount, c)
  {
    var depth := Clamp(c.sp, 0, LOCALS);
    && n.id == t.id && n.wake == t.wake && n.pc == c.pc && n.acc == c.acc
    && n.depth == depth <= |n.stack| && n.stack[..depth] == c.vars[varCount..varCount + depth]
  }

  /** The live stack outgrew the node and the heap refuses a bigger one. */
  predicate NoRoom(s: Sched, t: Thread, c: Core) {
    |t.stack| < Clamp(c.sp, 0, LOCALS) && Alloc(s.host.heap).1.None?
  }

  /** A sleeping thread waits with its context saved, unless there is no room for it: then it is gone. */
  lemma SleepingThreadWaits(s: Sched, t: Thread, c: Core) returns (k: nat)
    requires InHand(s, t) && Script.Ready(s.varCount, c)
    ensures var r := Settle(s, t, c, Sleeping);
            && r.host.free == s.host.free && r.faultThread == s.faultThread
            && if NoRoom(s, t, c) then r.host.ready == s.host.ready
               else
                 && k < |r.host.ready| && RemoveAt(r.host.ready, k) == s.host.ready
                 && Saved(r.host.ready[k], t, c, s.varCount)
  {
    k := 0;
    var depth := Clamp(c.sp, 0, LOCALS);
    var (s1, node) := Regrow(s, t, depth);
    RegrowRefused(s, t, depth);
    if node.Some? {
      FillSaves(node.value, t, c, s.varCount);
      var saved := Fill(node.value, c, s.varCount, depth).(stamp := s1.host.stamp);
      k := Position(s1.host.ready, saved.wake);
      InsertThenRemove(s1.host.ready, k, saved);
    }
    hide Regrow, Fill, Position, InsertAt, RemoveAt, Between, NotReady, SchedInv, Saved, Snap, Alloc;
  }

  lemma RegrowRefused(s: Sched, t: Thread, depth: nat)
    requires InHand(s, t) && depth <= LOCALS
    ensures Regrow(s, t, depth).1.None? <==> |t.stack| < depth && Alloc(s.host.heap).1.None?
  {
    hide Between, NotReady, Alloc;
  }

  lemma FillSaves(n: Thread, t: Thread, c: Core, varCount: nat)
    requires Storage(varCount, c) && n.id == t.id && n.wake == t.wake && Clamp(c.sp, 0, LOCALS) <= |n.stack|
    ensures Saved(Fill(n, c, varCount, Clamp(c.sp, 0, LOCALS)), t, c, varCount)
    ensures forall stamp :: Saved(Fill(n, c, varCount, Clamp(c.sp, 0, LOCALS)).(stamp := stamp), t, c, varCount)
  {
  }

  /**
    Any other stop is a fault: the thread is parked with its context saved, its status
    and, memory permitting, a copy of the globals; nobody else moves.
  */
  lemma FaultedThreadIsParked(s: Sched, t: Thread, c: Core, status: Status)
    requires InHand(s, t) && Storage(s.varCount, c) && status != Running && status != Terminated && status != Sleeping
    ensures var r := Settle(s, t, c, status);
            && r.host.ready == s.host.ready && r.host.free == s.host.free
            && if NoRoom(s, t, c) then r.faultThread == s.faultThread
               else
                 && r.faultThread.Some? && Saved(r.faultThread.value, t, c, s.varCount) && r.faultStatus == status
                 && (r.faultVars.Some? ==> r.faultVars.value.words == GlobalsOf(s))
  {
    var depth := Clamp(c.sp, 0, LOCALS);
    var (s1, node) := Regrow(s, t, depth);
    RegrowRefused(s, t, depth);
    if node.Some? {
      FillSaves(node.value, t, c, s.varCount);
      FaultParks(s1, Fill(node.value, c, s.varCount, depth), status);
    }
    hide Regrow, Fill, Fault, Between, NotReady, SchedInv, Saved, Alloc;
  }

  function GlobalsOf(s: Sched): seq<u32> {
    if s.varCount <= |s.vars| then s.vars[..s.varCount] else s.vars
  }

  lemma FaultParks(s: Sched, t: Thread, status: Status)
    requires InHand(s, t)
    ensures var r := Fault(s, t, status);
            && r.host.free == s.host.free && (r.faultVars.Some? ==> r.faultVars.value.words == GlobalsOf(s))
  {
    hide HandInv, HostInv, Freed, Alloc, PostEvent, StatusCode, Opt, NotReady;
  }
}

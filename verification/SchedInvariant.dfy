/**
  The invariant of the thread lists: who owns each block, how the ready list is
  ordered, and what each waiting thread is owed. The elementary moves - take,
  queue, release, allocate, log - keep it, and every builtin is made of them.
*/
module SchedInvariant {
  import opened Words
  import opened Script
  import opened SchedState
  import opened SchedNative

  /** Due earlier, or due at the same time and queued earlier. */
  ghost predicate Before(a: Thread, b: Thread) {
    a.wake < b.wake || (a.wake == b.wake && a.stamp < b.stamp)
  }

  ghost predicate Ordered(ready: seq<Thread>) {
    forall i, j :: 0 <= i < j < |ready| ==> Before(ready[i], ready[j])
  }

  ghost function Held(t: Option<Thread>): multiset<nat> {
    if t.None? then multiset{} else multiset{t.value.block}
  }

  /** The live blocks are exactly these, each with one holder. */
  ghost predicate Owned(heap: Heap, holders: multiset<nat>) {
    HeapOk(heap) && multiset(heap.live) == holders
  }

  ghost predicate Waiting(ready: seq<Thread>, stamp: nat, nextId: nat) {
    && Ordered(ready)
    && (forall i :: 0 <= i < |ready| ==>
          WfThread(ready[i]) && 0 <= ready[i].pc && ready[i].stamp < stamp && ready[i].id <= nextId)
    && (forall i, j :: 0 <= i < j < |ready| ==> ready[i].id != ready[j].id)
  }

  ghost predicate Pooled(free: seq<Thread>) {
    forall i :: 0 <= i < |free| ==> |free[i].stack| <= LOCALS
  }

  ghost predicate NotReady(ready: seq<Thread>, id: nat) {
    forall i :: 0 <= i < |ready| ==> ready[i].id != id
  }

  ghost predicate OnCpu(current: Option<Thread>, ready: seq<Thread>, nextId: nat) {
    current.Some? ==>
      && |current.value.stack| <= LOCALS && current.value.id <= nextId
      && NotReady(ready, current.value.id)
  }

  /** The node holds exactly what its thread is owed. */
  ghost predicate Holds(t: Thread, owed: Option<Context>) {
    && owed.Some?
    && owed.value.pc == t.pc && owed.value.acc == t.acc && owed.value.depth == t.depth
    && owed.value.words <= t.stack
  }

  /** The ready list holds exactly the threads the log says are waiting, each with what it is owed. */
  ghost predicate Debts(ready: seq<Thread>, log: seq<Entry>, hand: Option<nat>) {
    && (forall i :: 0 <= i < |ready| ==> Holds(ready[i], Owed(log, ready[i].id)))
    && (forall id: nat :: Owed(log, id).Some? ==> hand == Some(id) || !NotReady(ready, id))
    && Faithful(log)
  }

  /**
    The invariant with a thread in hand: `outside` are the live blocks that are
    not nodes of the two lists or the running thread, and `hand` is the id of a
    waiting thread that has just been unlinked or is about to be queued.
  */
  ghost predicate HandInv(h: Host, outside: multiset<nat>, hand: Option<nat>) {
    && Owned(h.heap, Blocks(h.ready) + Blocks(h.free) + Held(h.current) + outside)
    && Waiting(h.ready, h.stamp, h.nextId)
    && Pooled(h.free)
    && OnCpu(h.current, h.ready, h.nextId)
    && Debts(h.ready, h.log, hand)
    && h.count == |h.ready| && |h.events| <= EVENTS
  }

  ghost predicate HostInv(h: Host, outside: multiset<nat>) {
    HandInv(h, outside, None)
  }

  // ---- sequences of nodes ----------------------------------------------------

  lemma {:induction false} BlocksConcat(a: seq<Thread>, b: seq<Thread>)
    ensures Blocks(a + b) == Blocks(a) + Blocks(b)
  {
    if a == [] {
      assert a + b == b;
    } else {
      assert (a + b)[1..] == a[1..] + b;
      BlocksConcat(a[1..], b);
    }
  }

  lemma BlocksOne(t: Thread)
    ensures Blocks([t]) == multiset{t.block}
  {
    assert Blocks([t][1..]) == multiset{};
  }

  lemma BlocksInsert(s: seq<Thread>, k: nat, x: Thread)
    requires k <= |s|
    ensures Blocks(InsertAt(s, k, x)) == Blocks(s) + multiset{x.block}
  {
    hide Blocks;
    BlocksOne(x);
    BlocksConcat(s[..k] + [x], s[k..]);
    BlocksConcat(s[..k], [x]);
    BlocksConcat(s[..k], s[k..]);
    assert s[..k] + s[k..] == s;
  }

  lemma BlocksRemove(s: seq<Thread>, k: nat)
    requires k < |s|
    ensures Blocks(s) == Blocks(RemoveAt(s, k)) + multiset{s[k].block}
  {
    hide Blocks;
    BlocksInsert(RemoveAt(s, k), k, s[k]);
    assert InsertAt(RemoveAt(s, k), k, s[k]) == s;
  }

  /** A block one owner holds is live, and once given back nobody holds it. */
  lemma OwnedIsLive(heap: Heap, others: multiset<nat>, b: nat)
    requires Owned(heap, others + multiset{b})
    ensures b in heap.live
    ensures Owned(Free(heap, b), others)
  {
    assert multiset(heap.live)[b] > 0;
    assert multiset(heap.live - {b}) == multiset(heap.live) - multiset{b};
  }

  lemma AllocOwned(heap: Heap, holders: multiset<nat>)
    requires Owned(heap, holders)
    ensures var (heap1, b) := Alloc(heap);
            Owned(heap1, holders + if b.Some? then multiset{b.value} else multiset{})
  {
    var (heap1, b) := Alloc(heap);
    if b.Some? {
      assert multiset(heap.live + {b.value}) == multiset(heap.live) + multiset{b.value};
    }
  }

  lemma OwedSnoc(log: seq<Entry>, e: Entry, id: nat)
    ensures Owed(log + [e], id) == Owes(Owed(log, id), e, id)
  {
    assert (log + [e])[..|log + [e]| - 1] == log;
  }

  lemma FaithfulSnoc(log: seq<Entry>, e: Entry)
    requires Faithful(log)
    requires e.Dispatched? ==> Owed(log, e.id).Some? && Resumes(Owed(log, e.id).value, e.context)
    ensures Faithful(log + [e])
  {
    forall k | 0 <= k < |log + [e]| && (log + [e])[k].Dispatched?
      ensures var owed := Owed((log + [e])[..k], (log + [e])[k].id);
              owed.Some? && Resumes(owed.value, (log + [e])[k].context)
    {
      if k < |log| {
        assert (log + [e])[..k] == log[..k];
      } else {
        assert (log + [e])[..k] == log;
      }
    }
  }

  lemma OrderedInsert(ready: seq<Thread>, t: Thread)
    requires Ordered(ready) && forall i :: 0 <= i < |ready| ==> ready[i].stamp < t.stamp
    ensures Ordered(InsertAt(ready, Position(ready, t.wake), t))
  {
    hide InsertAt, Position;
    var k := Position(ready, t.wake);
    var r := InsertAt(ready, k, t);
    forall i | k <= i < |ready|
      ensures t.wake < ready[i].wake
    {
      if k < i {
        assert Before(ready[k], ready[i]);
      }
    }
    forall i, j | 0 <= i < j < |r|
      ensures Before(r[i], r[j])
    {
      if i != k && j != k {
        assert Before(ready[if i < k then i else i - 1], ready[if j < k then j else j - 1]);
      }
    }
  }

  // ---- the elementary moves ----------------------------------------------------

  /** Unlink the thread at `k`; its block is now outside the lists. */
  function TakeAt(h: Host, k: nat): Host
    requires k < |h.ready|
  {
    h.(ready := RemoveAt(h.ready, k), count := h.count - 1)
  }

  lemma TakeWaiting(ready: seq<Thread>, k: nat, stamp: nat, nextId: nat, log: seq<Entry>)
    requires Waiting(ready, stamp, nextId) && Debts(ready, log, None) && k < |ready|
    ensures Waiting(RemoveAt(ready, k), stamp, nextId) && Debts(RemoveAt(ready, k), log, Some(ready[k].id))
    ensures NotReady(RemoveAt(ready, k), ready[k].id)
    ensures forall id :: NotReady(ready, id) ==> NotReady(RemoveAt(ready, k), id)
  {
    hide RemoveAt, Owed, Faithful, Holds;
    var r := RemoveAt(ready, k);
    forall i, j | 0 <= i < j < |r|
      ensures Before(r[i], r[j])
    {
      assert Before(ready[if i < k then i else i + 1], ready[if j < k then j else j + 1]);
    }
    forall i | 0 <= i < |ready| && i != k
      ensures !NotReady(r, ready[i].id)
    {
      assert r[if i < k then i else i - 1] == ready[i];
    }
  }

  lemma TakeKeeps(h: Host, outside: multiset<nat>, k: nat)
    requires HostInv(h, outside) && k < |h.ready|
    ensures HandInv(TakeAt(h, k), outside + multiset{h.ready[k].block}, Some(h.ready[k].id))
    ensures NotReady(TakeAt(h, k).ready, h.ready[k].id)
  {
    hide Owned, Waiting, Debts, NotReady, RemoveAt, Blocks;
    TakeWaiting(h.ready, k, h.stamp, h.nextId, h.log);
    BlocksRemove(h.ready, k);
    assert Blocks(RemoveAt(h.ready, k)) + Blocks(h.free) + Held(h.current) + (outside + multiset{h.ready[k].block})
        == Blocks(h.ready) + Blocks(h.free) + Held(h.current) + outside;
  }

  lemma InsertWaiting(ready: seq<Thread>, t: Thread, stamp: nat, nextId: nat)
    requires Waiting(ready, stamp, nextId)
    requires WfThread(t) && 0 <= t.pc && t.stamp == stamp && t.id <= nextId && NotReady(ready, t.id)
    ensures var r := InsertAt(ready, Position(ready, t.wake), t);
            Waiting(r, stamp + 1, nextId)
              && forall id :: NotReady(ready, id) && id != t.id ==> NotReady(r, id)
  {
    OrderedInsert(ready, t);
    hide InsertAt, Position, Ordered;
    var r := InsertAt(ready, Position(ready, t.wake), t);
  }

  lemma InsertDebts(ready: seq<Thread>, t: Thread, k: nat, log: seq<Entry>)
    requires Debts(ready, log, Some(t.id)) && Holds(t, Owed(log, t.id)) && k <= |ready|
    ensures Debts(InsertAt(ready, k, t), log, None)
  {
    hide InsertAt, Owed, Faithful, Holds;
    var r := InsertAt(ready, k, t);
    assert r[k] == t;
    forall id | !NotReady(ready, id)
      ensures !NotReady(r, id)
    {
      var i :| 0 <= i < |ready| && ready[i].id == id;
      assert r[if i < k then i else i + 1] == ready[i];
    }
  }

  lemma QueueKeeps(h: Host, outside: multiset<nat>, t: Thread)
    requires HandInv(h, outside + multiset{t.block}, Some(t.id))
    requires WfThread(t) && 0 <= t.pc && t.id <= h.nextId && NotReady(h.ready, t.id)
    requires h.current.Some? ==> h.current.value.id != t.id
    requires Holds(t, Owed(h.log, t.id))
    ensures HostInv(Queue(h, t), outside)
  {
    hide Owned, Waiting, Debts, NotReady, InsertAt, Position, Blocks, Owed;
    var q := t.(stamp := h.stamp);
    var k := Position(h.ready, t.wake);
    InsertWaiting(h.ready, q, h.stamp, h.nextId);
    InsertDebts(h.ready, q, k, h.log);
    BlocksInsert(h.ready, k, q);
    assert Blocks(InsertAt(h.ready, k, q)) + Blocks(h.free) + Held(h.current) + outside
        == Blocks(h.ready) + Blocks(h.free) + Held(h.current) + (outside + multiset{t.block});
  }

  lemma ReleaseKeeps(h: Host, outside: multiset<nat>, t: Thread)
    requires HostInv(h, outside + multiset{t.block}) && |t.stack| <= LOCALS
    ensures HostInv(ThreadRelease(h, t), outside)
  {
    hide Owned, Waiting, Debts, NotReady, Blocks;
    BlocksOne(t);
    BlocksConcat([t], h.free);
    assert Blocks(h.ready) + Blocks([t] + h.free) + Held(h.current) + outside
        == Blocks(h.ready) + Blocks(h.free) + Held(h.current) + (outside + multiset{t.block});
  }

  lemma PoolKeeps(h: Host, outside: multiset<nat>)
    requires HostInv(h, outside) && h.free != []
    ensures HostInv(h.(free := h.free[1..], nextId := h.nextId + 1), outside + multiset{h.free[0].block})
  {
    hide Owned, Debts, Ordered, NotReady, Blocks;
    assert [h.free[0]] + h.free[1..] == h.free;
    BlocksOne(h.free[0]);
    BlocksConcat([h.free[0]], h.free[1..]);
    assert Blocks(h.ready) + Blocks(h.free[1..]) + Held(h.current) + (outside + multiset{h.free[0].block})
        == Blocks(h.ready) + Blocks(h.free) + Held(h.current) + outside;
  }

  lemma FreshKeeps(h: Host, outside: multiset<nat>)
    requires HostInv(h, outside)
    ensures var (heap, b) := Alloc(h.heap);
            var more := outside + if b.Some? then multiset{b.value} else multiset{};
            && HostInv(h.(heap := heap), more)
            && HostInv(h.(heap := heap, nextId := h.nextId + 1), more)
  {
    AllocOwned(h.heap, Blocks(h.ready) + Blocks(h.free) + Held(h.current) + outside);
    hide Owned, Debts, Ordered, NotReady, Blocks, Alloc;
    var (heap, b) := Alloc(h.heap);
    var more := if b.Some? then multiset{b.value} else multiset{};
    assert Blocks(h.ready) + Blocks(h.free) + Held(h.current) + (outside + more)
        == (Blocks(h.ready) + Blocks(h.free) + Held(h.current) + outside) + more;
  }

  lemma AllocKeeps(h: Host, outside: multiset<nat>, stackSize: int)
    requires HostInv(h, outside)
    ensures var (h1, t) := ThreadAlloc(h, stackSize);
            && HostInv(h1, outside + Held(t))
            && (t.Some? ==> NotReady(h1.ready, t.value.id) && |t.value.stack| <= LOCALS)
            && (t.Some? && h.current.Some? ==> t.value.id != h.current.value.id)
  {
    assert NotReady(h.ready, h.nextId + 1);
    assert h.current.Some? ==> h.current.value.id <= h.nextId;
    var n := Clamp(stackSize, MIN_STACK, LOCALS);
    if h.free != [] && |h.free[0].stack| >= n {
      assert |h.free[0].stack| <= LOCALS;
      PoolKeeps(h, outside);
      hide HandInv, HostInv, NotReady, Clamp;
      var t := h.free[0].(id := h.nextId + 1, pc := 0, acc := 0, depth := 0, wake := 0);
      assert ThreadAlloc(h, stackSize) == (h.(free := h.free[1..], nextId := h.nextId + 1), Some(t));
      assert Held(Some(t)) == multiset{h.free[0].block};
    } else {
      FreshKeeps(h, outside);
      hide HandInv, HostInv, NotReady, Clamp, Alloc, Junk;
    }
  }

  /** Whose debt is left in hand by an entry about a thread that is not on the list. */
  ghost function HandAfter(e: Entry): Option<nat> {
    match e
    case Born(id, _) => Some(id)
    case Slept(id, _) => Some(id)
    case Woken(id) => Some(id)
    case Killed(_) => None
    case Dispatched(_, _) => None
    case Unloaded => None
  }

  /** Logging about a thread in hand disturbs no other debt. */
  lemma LogKeeps(h: Host, outside: multiset<nat>, hand: Option<nat>, e: Entry)
    requires HandInv(h, outside, hand) && !e.Unloaded? && NotReady(h.ready, e.id)
    requires hand == Some(e.id) || (hand == None && (e.Born? || e.Slept?))
    requires e.Dispatched? ==> Owed(h.log, e.id).Some? && Resumes(Owed(h.log, e.id).value, e.context)
    ensures HandInv(Log(h, e), outside, HandAfter(e))
  {
    FaithfulSnoc(h.log, e);
    hide Owned, Waiting, Faithful, Blocks, Owed, Pooled, OnCpu;
    forall id: nat
      ensures Owed(h.log + [e], id) == Owes(Owed(h.log, id), e, id)
    {
      OwedSnoc(h.log, e, id);
    }
  }

  /** A thread that is not waiting is logged with the context it is owed, and queued holding it. */
  lemma EnterKeeps(h: Host, outside: multiset<nat>, e: Entry, t: Thread)
    requires HostInv(h, outside + multiset{t.block})
    requires (e.Born? || e.Slept?) && e.id == t.id && Holds(t, Some(e.context))
    requires WfThread(t) && 0 <= t.pc && t.id <= h.nextId && NotReady(h.ready, t.id)
    requires h.current.Some? ==> h.current.value.id != t.id
    ensures HostInv(Queue(Log(h, e), t), outside)
  {
    hide HandInv, NotReady, Queue, Owed;
    LogKeeps(h, outside + multiset{t.block}, None, e);
    OwedSnoc(h.log, e, t.id);
    QueueKeeps(Log(h, e), outside, t);
  }

  // ---- the builtins ------------------------------------------------------------

  /** What the invariant says of one waiting thread. */
  lemma WaitingFacts(h: Host, outside: multiset<nat>, k: nat)
    requires HostInv(h, outside) && k < |h.ready|
    ensures var t := h.ready[k];
            && WfThread(t) && 0 <= t.pc && t.id <= h.nextId && Holds(t, Owed(h.log, t.id))
            && (h.current.Some? ==> h.current.value.id != t.id)
  {
    hide Owned, Pooled, Owed, Faithful;
  }

  lemma WakeKeeps(h: Host, outside: multiset<nat>, id: nat, wake: u64)
    requires HostInv(h, outside)
    ensures HostInv(Wake(h, id, wake), outside)
  {
    hide HandInv, HostInv, NotReady, Owed, Queue, Position, FindThread, RemoveAt;
    var k := FindThread(h.ready, id);
    if k < |h.ready| {
      var t := h.ready[k].(wake := wake, acc := 0);
      WaitingFacts(h, outside, k);
      TakeKeeps(h, outside, k);
      LogKeeps(TakeAt(h, k), outside + multiset{t.block}, Some(id), Woken(id));
      OwedSnoc(h.log, Woken(id), id);
      QueueKeeps(Log(TakeAt(h, k), Woken(id)), outside, t);
    }
  }

  lemma KillKeeps(h: Host, outside: multiset<nat>, id: nat)
    requires HostInv(h, outside)
    ensures HostInv(Kill(h, id), outside)
  {
    var k := FindThread(h.ready, id);
    if k < |h.ready| {
      assert WfThread(h.ready[k]);
      TakeKeeps(h, outside, k);
      hide HandInv, FindThread, RemoveAt, NotReady;
      LogKeeps(TakeAt(h, k), outside + multiset{h.ready[k].block}, Some(id), Killed(id));
      ReleaseKeeps(Log(TakeAt(h, k), Killed(id)), outside, h.ready[k]);
    }
  }

  /** The running thread's own wake time and depth are not part of the invariant. */
  lemma CurrentKeeps(h: Host, outside: multiset<nat>, t: Thread)
    requires HostInv(h, outside) && h.current.Some?
    requires t.block == h.current.value.block && t.id == h.current.value.id && |t.stack| <= LOCALS
    ensures HostInv(h.(current := Some(t)), outside)
  {
  }

  /** Nor are the joystick state and the events, as long as there are at most a hundred. */
  lemma InertKeeps(h: Host, outside: multiset<nat>, h1: Host)
    requires HostInv(h, outside)
    requires h1 == h.(pad := h1.pad, events := h1.events, dropped := h1.dropped) && |h1.events| <= EVENTS
    ensures HostInv(h1, outside)
  {
  }

  lemma ForkIntoKeeps(h: Host, outside: multiset<nat>, c: Core, varCount: nat, t: Thread)
    requires HostInv(h, outside + multiset{t.block}) && h.current.Some? && Ready(varCount, c)
    requires t.acc == 0 && c.sp <= |t.stack| <= LOCALS && t.id <= h.nextId
    requires NotReady(h.ready, t.id) && h.current.value.id != t.id
    ensures HostInv(ForkInto(h, c, varCount, t), outside)
  {
    assert |h.current.value.stack| <= LOCALS;
    hide HandInv, HostInv, NotReady, Owed, Queue;
    var live := c.vars[varCount..varCount + c.sp];
    var parent := h.current.value.(depth := c.sp);
    var h2 := h.(current := Some(parent));
    var born := t.(pc := c.pc, depth := c.sp, wake := parent.wake, stack := live + t.stack[|live|..]);
    var e := Born(t.id, Context(c.pc, 0, c.sp, live));
    assert ForkInto(h, c, varCount, t) == Queue(Log(h2, e), born);
    CurrentKeeps(h, outside + multiset{t.block}, parent);
    EnterKeeps(h2, outside, e, born);
  }

  lemma ForkKeeps(h: Host, outside: multiset<nat>, c: Core, varCount: nat)
    requires HostInv(h, outside) && h.current.Some? && Ready(varCount, c)
    ensures HostInv(Fork(h, c, varCount).env, outside)
  {
    hide HandInv, HostInv, NotReady, ForkInto, ThreadAlloc;
    if h.count <= MAX_THREADS - 1 {
      AllocKeeps(h, outside, c.sp);
      var (h1, child) := ThreadAlloc(h, c.sp);
      if child.Some? {
        ForkIntoKeeps(h1, outside, c, varCount, child.value);
      } else {
        assert outside + Held(child) == outside;
      }
    }
  }

  /** Four builtins touch the thread lists; the others only read, post an event or move the stick. */
  lemma NativeEnv(h: Host, c: Core, varCount: nat, id: u32)
    requires h.current.Some? && |h.events| <= EVENTS
    ensures var h1 := Native(h, c, varCount, id).env;
            var self := h.current.value;
            var a1 := NativeArg(c, varCount, 1);
            if id == FN_WAKE then h1 == Wake(h, a1, self.wake)
            else if id == FN_KILL then h1 == if self.id == a1 then h else Kill(h, a1)
            else if id == FN_FORK then h1 == Fork(h, c, varCount).env
            else if id == FN_SLEEP then h1 == h.(current := Some(self.(wake := SleepUntil(self.wake, a1))))
            else h1 == h.(pad := h1.pad, events := h1.events, dropped := h1.dropped) && |h1.events| <= EVENTS
  {
    hide TimeOf, NativeArg, Button, Stick, Clamp, Wake, Kill, Fork, SleepUntil;
  }

  /** Every builtin, called from any script in any state, keeps the invariant. */
  lemma NativeKeeps(h: Host, outside: multiset<nat>, c: Core, varCount: nat, id: u32)
    requires HostInv(h, outside) && Ready(varCount, c)
    ensures HostInv(Native(h, c, varCount, id).env, outside)
  {
    if h.current.Some? {
      NativeEnv(h, c, varCount, id);
      assert |h.current.value.stack| <= LOCALS;
      hide HandInv, HostInv, Native, Wake, Kill, Fork, SleepUntil, NativeArg;
      var self := h.current.value;
      var a1 := NativeArg(c, varCount, 1);
      if id == FN_WAKE {
        WakeKeeps(h, outside, a1, self.wake);
      } else if id == FN_KILL {
        KillKeeps(h, outside, a1);
      } else if id == FN_FORK {
        ForkKeeps(h, outside, c, varCount);
      } else if id == FN_SLEEP {
        CurrentKeeps(h, outside, self.(wake := SleepUntil(self.wake, a1)));
      } else {
        InertKeeps(h, outside, Native(h, c, varCount, id).env);
      }
    }
  }
}

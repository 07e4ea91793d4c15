/**
  The scheduler as one object: its lists, its bucket, its latch, its post-mortem slot,
  updated in place by the driver's own entry points. Each method is proved to take the
  state where the specification takes it; callers that arrive while a pass is in flight
  go through the same entry points and meet the latch.
*/
module SchedEngine {
  import opened Words
  import opened Script
  import opened ScriptMachine
  import opened SchedState
  import opened SchedInvariant
  import opened SchedPass
  import opened SchedRun
  import opened SchedLoad
  import SchedTheorems

  /** Walk to the first thread due strictly later. */
  method Scan(ready: seq<Thread>, wake: u64) returns (k: nat)
    ensures k == Position(ready, wake)
  {
    hide Position;
    k := 0;
    PositionFrom(ready, wake, 0);
    while k < |ready| && wake >= ready[k].wake
      invariant k <= |ready| && Position(ready, wake) == k + Position(ready[k..], wake)
    {
      PositionFrom(ready, wake, k);
      k := k + 1;
    }
    PositionFrom(ready, wake, k);
  }

  /** A thread that can be interpreted, and is still on its node when it stops. */
  ghost predicate Runnable(s: Sched, t: Thread) {
    && Loaded(s) && |s.vars| == s.varCount + LOCALS && WfThread(t)
    && Resume(s, t).env.current.Some?
  }

  /** What interpreting a thread made of the scheduler, and how it stopped. */
  ghost predicate Ran(s: Sched, t: Thread, r: Sched, status: Status, core: Core, node: Thread) {
    Runnable(s, t)
    && var run := Resume(s, t);
       r == Return(s, run) && status == run.status && core == run.core && node == run.env.current.value
  }

  /** How the interpreter left its machine. */
  ghost predicate MachineRan(p: Program<Host>, env: Host, c: Core, budget: int,
                             status: Status, core: Core, host: Host, tokens: int) {
    && Storage(p.varCount, c) && 0 <= c.sp <= LOCALS
    && var r := Script.Run(p, env, c, budget);
       status == r.status && core == r.core && host == r.env && tokens == r.budget
  }

  lemma RunnableMeans(s: Sched, t: Thread)
    requires Runnable(s, t)
    ensures Loaded(s) && |s.vars| == s.varCount + LOCALS && WfThread(t)
    ensures 0 <= t.depth <= LOCALS && |t.stack| <= LOCALS
  {
    hide Resume;
  }

  lemma RanOnMachine(s: Sched, t: Thread, status: Status, core: Core, host: Host, tokens: int)
    requires Runnable(s, t)
    requires var c := Unpack(s, t);
             MachineRan(HostProgram(s.code, s.varCount), Enter(s, t, c), c, s.budget, status, core, host, tokens)
    ensures Resume(s, t) == RunResult(host, core, tokens, status, Resume(s, t).executed) && host.current.Some?
  {
    hide Script.Run, Unpack, Enter;
  }

  lemma RanMeans(s: Sched, t: Thread, r: Sched, status: Status, core: Core, node: Thread)
    requires Runnable(s, t) && Loaded(s) && |s.vars| == s.varCount + LOCALS && WfThread(t)
    requires var x := Resume(s, t);
             && x.env.current == Some(node) && status == x.status && core == x.core
             && r == s.(host := x.env.(current := None), vars := x.core.vars, budget := x.budget,
                        executed := s.executed + x.executed)
    ensures Ran(s, t, r, status, core, node)
  {
    hide Resume;
  }

  /** Moving to a bigger node: the old one is still live when it is released. */
  lemma GrowingFreesALiveNode(s: Sched, t: Thread, depth: nat)
    requires InHand(s, t) && |t.stack| < depth <= LOCALS
    ensures var (heap, b) := Alloc(s.host.heap);
            && t.block in heap.live
            && Regrow(s, t, depth)
            == (SetHeap(s, Free(heap, t.block)),
                if b.None? then None
                else Some(Thread(b.value, t.id, 0, 0, 0, t.wake, Junk(Free(heap, t.block), b.value, depth), 0)))
  {
    var (s1, b) := Grab(s, multiset{t.block});
    assert multiset{t.block} + Opt(b) == Opt(b) + multiset{t.block};
    DropKeeps(s1, Opt(b), t.block);
    hide Between, Alloc, Free, Junk;
  }

  /** A faulted thread parked, with the heap as the allocation and the releases left it. */
  function Parked(s: Sched, t: Thread, snapshot: Option<Snapshot>, status: Status, heap: Heap): Sched {
    var host := s.host.(heap := heap);
    Occupy(s, t, snapshot, status).(
      host := if s.faultThread.None? then PostEvent(host, EVENT_FAULT, StatusCode(status), s.deviceTag) else host)
  }

  function SnapshotOf(s: Sched, b: Option<nat>): Option<Snapshot>
    requires s.varCount <= |s.vars|
  {
    if b.None? then None else Some(Snapshot(b.value, s.vars[..s.varCount]))
  }

  lemma HandFacts(s: Sched, t: Thread)
    requires InHand(s, t)
    ensures Between(s, multiset{t.block}) && Loaded(s) && |s.vars| == s.varCount + LOCALS
  {
    hide HandInv, HostInv;
  }

  /** What a fault's exchange takes out of the slot can be released, thread first. */
  ghost predicate OldIsReleasable(s: Sched) {
    && |s.vars| == s.varCount + LOCALS
    && Releasable(Alloc(s.host.heap).0, NodeBlock(s.faultThread), SnapBlock(s.faultVars))
  }

  /** A fault, step by step. */
  ghost predicate FaultIs(s: Sched, t: Thread, status: Status, r: Sched) {
    && OldIsReleasable(s)
    && var (heap, b) := Alloc(s.host.heap);
       r == Parked(s, t, SnapshotOf(s, b), status, Freed(Freed(heap, NodeBlock(s.faultThread)), SnapBlock(s.faultVars)))
  }

  lemma FaultSteps(s: Sched, t: Thread, status: Status)
    requires InHand(s, t)
    ensures FaultIs(s, t, status, Fault(s, t, status)) && OldIsReleasable(s)
  {
    hide InHand, SchedInv, Between, Alloc, Freed, Opt, PostEvent, StatusCode, Releasable;
    HandFacts(s, t);
    var (s1, b) := Grab(s, multiset{t.block});
    OccupyKeeps(s1, t, SnapshotOf(s, b), status);
  }

  lemma OldOccupantCanGo(s: Sched, t: Thread, status: Status)
    requires InHand(s, t)
    ensures |s.vars| == s.varCount + LOCALS
    ensures Releasable(Alloc(s.host.heap).0, NodeBlock(s.faultThread), SnapBlock(s.faultVars))
  {
    hide InHand, Fault, Parked, Freed, SnapshotOf, Alloc, Releasable;
    FaultSteps(s, t, status);
  }

  lemma FaultIsFault(s: Sched, t: Thread, status: Status, snapshot: Option<Snapshot>, r: Sched)
    requires InHand(s, t) && OldIsReleasable(s)
    requires snapshot == SnapshotOf(s, Alloc(s.host.heap).1)
    requires r == Parked(s, t, snapshot, status,
                         Freed(Freed(Alloc(s.host.heap).0, NodeBlock(s.faultThread)), SnapBlock(s.faultVars)))
    ensures r == Fault(s, t, status)
  {
    hide InHand, Fault, Parked, Freed, SnapshotOf, Alloc;
    FaultSteps(s, t, status);
  }

  /** The first `i` words written over a sequence from `at` on. */
  function Overlay(v: seq<u32>, at: nat, words: seq<u32>, i: nat): seq<u32>
    requires i <= |words| && at + |words| <= |v|
  {
    v[..at] + words[..i] + v[at + i..]
  }

  lemma OverlayStep(v: seq<u32>, at: nat, words: seq<u32>, i: nat)
    requires i < |words| && at + |words| <= |v|
    ensures |Overlay(v, at, words, i)| == |v|
    ensures Overlay(v, at, words, i)[at + i := words[i]] == Overlay(v, at, words, i + 1)
  {
  }

  lemma OverlayEnds(v: seq<u32>, at: nat, words: seq<u32>)
    requires at + |words| <= |v|
    ensures Overlay(v, at, words, 0) == v
    ensures Overlay(v, at, words, |words|) == v[..at] + words + v[at + |words|..]
  {
    assert words[..|words|] == words;
  }

  /** The variable array of a load: one block for globals and locals, of which only the globals are zeroed. */
  method NewStorage(heap: Heap, count: nat, at: nat) returns (vars: array<u32>)
    ensures fresh(vars) && vars[..] == seq(count, _ => 0) + Junk(heap, at, LOCALS)
  {
    var junk := heap.junk;
    var locals := Junk(heap, at, LOCALS);
    vars := new u32[count + LOCALS](i requires 0 <= i < count + LOCALS =>
              if i < count then junk(at, LOCALS + i) else locals[i - count]);
    for i := 0 to count
      invariant forall k :: 0 <= k < i ==> vars[k] == 0
      invariant forall k :: count <= k < count + LOCALS ==> vars[k] == locals[k - count]
    {
      vars[i] := 0;
    }
  }

  method CopyCode(source: seq<u32>) returns (code: seq<u32>)
    ensures code == source
  {
    code := [];
    for i := 0 to |source|
      invariant code == source[..i]
    {
      code := code + [source[i]];
    }
  }

  /** The post-mortem slot. */
  datatype Slot = Slot(thread: Option<Thread>, vars: Option<Snapshot>, status: Status, total: nat)

  /** What the environment was told and what was done, for the proofs alone. */
  datatype Books = Books(emitted: seq<Event>, armed: seq<u64>, handed: multiset<nat>, executed: int, sweeps: seq<Sweep>,
                         signals: nat, takes: nat)

  function PutToSleep(s: Sched, t: Thread, context: Context): Sched {
    s.(host := Queue(Log(s.host, Slept(t.id, context)), t))
  }

  /** The four ways a thread is disposed of. */
  lemma SettleUnfolds(s: Sched, t: Thread, c: Core, status: Status)
    requires InHand(s, t) && Storage(s.varCount, c) && status != Running
    requires status == Sleeping ==> Script.Ready(s.varCount, c)
    ensures status == Terminated ==> Settle(s, t, c, status) == s.(host := ThreadRelease(s.host, t))
    ensures status != Terminated ==>
              var depth := Clamp(c.sp, 0, LOCALS);
              var (s1, node) := Regrow(s, t, depth);
              && (node.None? ==> Settle(s, t, c, status) == s1)
              && (node.Some? ==> InHand(s1, node.value) && depth <= |node.value.stack| && s1.varCount == s.varCount)
              && (node.Some? && status == Sleeping ==>
                    Settle(s, t, c, status)
                    == PutToSleep(s1, Fill(node.value, c, s.varCount, depth), Snap(c, s.varCount, depth)))
              && (node.Some? && status != Sleeping ==>
                    && InHand(s1, Fill(node.value, c, s.varCount, depth))
                    && Settle(s, t, c, status) == Fault(s1, Fill(node.value, c, s.varCount, depth), status))
  {
    hide Between, NotReady, Fault, Queue, Snap;
    if status != Terminated {
      var depth := Clamp(c.sp, 0, LOCALS);
      var (s1, node) := Regrow(s, t, depth);
      if node.Some? {
        FillKeepsHand(s1, node.value, c, depth);
      }
    }
    hide Regrow, InHand;
  }

  function Unlinked(s: Sched): Sched
    requires s.host.ready != []
  {
    s.(host := s.host.(ready := s.host.ready[1..], count := s.host.count - 1))
  }

  lemma DispatchUnfolds(s: Sched)
    requires SchedInv(s) && Loaded(s) && s.host.ready != []
    ensures Runnable(Unlinked(s), s.host.ready[0])
  {
    hide SchedInv, Resume;
    TakePicks(s, 0);
    assert RemoveAt(s.host.ready, 0) == s.host.ready[1..];
    ReturnKeeps(Unlinked(s), s.host.ready[0]);
    hide Between, HandInv, HostInv, InHand;
  }

  lemma RanThenSettles(s: Sched, t: Thread, r: Sched, status: Status, core: Core, node: Thread)
    requires SchedInv(s) && Loaded(s) && s.host.ready != [] && t == s.host.ready[0]
    requires Ran(Unlinked(s), t, r, status, core, node)
    ensures InHand(r, node) && Storage(r.varCount, core) && status != Running
    ensures status == Sleeping ==> Script.Ready(r.varCount, core)
    ensures DispatchOne(s) == Settle(r, node, core, status)
  {
    hide SchedInv, Resume, Settle, Between, InHand, Storage, Script.Ready;
    TakePicks(s, 0);
    assert RemoveAt(s.host.ready, 0) == s.host.ready[1..];
    PickedFacts(Unlinked(s), t);
    ReturnKeeps(Unlinked(s), t);
    ResumeSpends(Unlinked(s), t);
    hide Picked, HandInv, HostInv;
  }

  lemma PickedFacts(s: Sched, t: Thread)
    requires Picked(s, t)
    ensures Loaded(s) && |s.vars| == s.varCount + LOCALS && WfThread(t) && 0 <= t.pc
  {
    hide HandInv, HostInv;
  }

  lemma StorageFacts(s: Sched)
    requires SchedInv(s) && Loaded(s)
    ensures |s.vars| == s.varCount + LOCALS
  {
    hide HandInv, HostInv;
  }

  lemma SpawnUnfolds(s: Sched, h: Handler, now: u64)
    requires SchedInv(s) && Loaded(s) && |s.vars| == s.varCount + LOCALS
    ensures !Bound(s, h.slot) ==> Spawn(s, h, now) == s
    ensures var (host, node) := ThreadAlloc(s.host, |h.args|);
            Bound(s, h.slot) ==>
              && (node.None? ==> Spawn(s, h, now) == s.(host := host))
              && (node.Some? ==>
                    && |h.args| <= |node.value.stack|
                    && Spawn(s, h, now) == Started(s.(host := host), node.value, TagValue(s.vars[h.slot]), h.args, now))
  {
    hide SchedInv, Between, ThreadAlloc, Requeue, Queue, InHand;
    SpawnKeeps(s, |h.args|);
  }

  /** A handler's thread queued at its address. */
  function Started(s: Sched, t: Thread, pc: nat, args: Args, now: u64): Sched
    requires |args| <= |t.stack|
  {
    s.(host := Queue(Log(s.host, Start(t, pc, args)), Armed(t, pc, args, now)))
  }

  lemma ButtonHandlersSplit(cur: Packed, prev: Packed, n: nat)
    requires n < 16 && Button(cur, n) != Button(prev, n)
    ensures ButtonHandlers(cur, prev, n) != []
    ensures ButtonHandlers(cur, prev, n)[0] == Handler(n, [if Button(cur, n) then 1 else 0])
    ensures ButtonHandlers(cur, prev, n)[1..] == ButtonHandlers(cur, prev, n + 1)
  {
    hide Button;
  }

  /** Spawning handlers one list after the other. */
  lemma {:induction false} SpawnAllJoins(s: Sched, a: seq<Handler>, b: seq<Handler>, now: u64)
    requires SchedInv(s) && Loaded(s)
    ensures SpawnAll(s, a + b, now) == SpawnAll(SpawnAll(s, a, now), b, now)
    decreases |a|
  {
    hide SchedInv, Spawn;
    if a == [] {
      assert a + b == b;
    } else {
      assert (a + b)[1..] == a[1..] + b;
      SpawnAllJoins(Spawn(s, a[0], now), a[1..], b, now);
    }
  }

  lemma SpawnAllOne(s: Sched, h: Handler, now: u64)
    requires SchedInv(s) && Loaded(s)
    ensures SpawnAll(s, [h], now) == Spawn(s, h, now)
  {
    hide SchedInv, Spawn;
    assert [h][1..] == [];
  }

  lemma SpawnAllNone(s: Sched, now: u64)
    requires SchedInv(s) && Loaded(s)
    ensures SpawnAll(s, [], now) == s
  {
  }

  /** While a pass is in flight, what an arrival does is what its entry point does. */
  lemma ArriveIsACall(s: Sched, a: Arrival)
    requires SchedInv(s) && Loaded(s) && s.running
    ensures a.RunAt? ==> SchedRun.Arrive(s, a) == SchedRun.Run(s, a.now)
    ensures a.Packet? ==> SchedRun.Arrive(s, a) == SchedRun.OnInput(s, a.raw, a.now)
    ensures a.TakeFault? ==> SchedRun.Arrive(s, a) == FaultTake(s)
  {
    hide SchedInv, Input, FaultTake, Passes, Turn;
  }

  /** The holders left after each release of a teardown. */
  ghost function Rest(s: Sched, step: nat): multiset<nat> {
    var slot := s.handed + Opt(SnapBlock(s.faultVars)) + Opt(NodeBlock(s.faultThread));
    if step <= 1 then slot + Blocks(s.host.free) + Blocks(s.host.ready) + Opt(s.varsBlock)
    else if step == 2 then slot + Blocks(s.host.free) + Blocks(s.host.ready)
    else if step == 3 then slot + Blocks(s.host.free)
    else if step == 4 then slot
    else if step == 5 then s.handed + Opt(SnapBlock(s.faultVars))
    else s.handed
  }

  lemma TeardownOwned(s: Sched)
    requires SchedInv(s)
    ensures Owned(s.host.heap, Rest(s, 1) + Opt(s.codeBlock))
  {
    hide Waiting, Pooled, Debts, StorageOk, SlotOk, Blocks, Opt, NodeBlock, SnapBlock;
    assert Held(None) == multiset{};
    assert Blocks(s.host.ready) + Blocks(s.host.free) + Held(s.host.current) + (Outside(s) + multiset{})
        == Rest(s, 1) + Opt(s.codeBlock);
  }

  lemma TeardownRests(s: Sched)
    ensures Rest(s, 1) == Rest(s, 2) + Opt(s.varsBlock) && Rest(s, 2) == Rest(s, 3) + Blocks(s.host.ready)
    ensures Rest(s, 3) == Rest(s, 4) + Blocks(s.host.free) && Rest(s, 4) == Rest(s, 5) + Opt(NodeBlock(s.faultThread))
    ensures Rest(s, 5) == Rest(s, 6) + Opt(SnapBlock(s.faultVars))
  {
    hide Blocks, Opt, NodeBlock, SnapBlock;
  }

  lemma TeardownSteps(s: Sched)
    requires SchedInv(s)
    ensures Owned(s.host.heap, Rest(s, 1) + Opt(s.codeBlock))
    ensures Rest(s, 1) == Rest(s, 2) + Opt(s.varsBlock) && Rest(s, 2) == Rest(s, 3) + Blocks(s.host.ready)
    ensures Rest(s, 3) == Rest(s, 4) + Blocks(s.host.free) && Rest(s, 4) == Rest(s, 5) + Opt(NodeBlock(s.faultThread))
    ensures Rest(s, 5) == Rest(s, 6) + Opt(SnapBlock(s.faultVars))
    ensures var h1 := FreeOpt(s.host.heap, s.codeBlock, Rest(s, 1));
            var h2 := FreeOpt(h1, s.varsBlock, Rest(s, 2));
            var h3 := FreeAll(h2, s.host.ready, Rest(s, 3));
            var h4 := FreeAll(h3, s.host.free, Rest(s, 4));
            var h5 := FreeOpt(h4, NodeBlock(s.faultThread), Rest(s, 5));
            FreeEverything(s) == FreeOpt(h5, SnapBlock(s.faultVars), Rest(s, 6))
  {
    hide SchedInv, Owned, Blocks, Opt, FreeOpt, FreeAll, NodeBlock, SnapBlock, Outside;
    TeardownOwned(s);
    TeardownRests(s);
  }

  lemma UnloadIs(s: Sched, r: Sched)
    requires SchedInv(s) && r == Cleared(s, FreeEverything(s))
    ensures r == Unload(s)
  {
    hide SchedInv, FreeEverything, Cleared;
  }

  /** The outcomes of a load's allocations. */
  lemma AllocateUnfolds(s: Sched, code: seq<u32>, varCount: nat, now: u64)
    requires SchedInv(s) && !Loaded(s) && Idle(s) && code != [] && varCount > 0 && s.faultVars == None
    ensures var (h1, c) := Alloc(s.host.heap);
            && (c.None? ==> Allocate(s, code, varCount, now) == LoadResult(SetHeap(s, h1), false))
            && (c.Some? ==>
                  var (h2, v) := Alloc(h1);
                  && c.value in h2.live
                  && (v.None? ==> Allocate(s, code, varCount, now) == LoadResult(SetHeap(s, Freed(h2, c)), false))
                  && (v.Some? ==>
                        var s1 := Installed(SetHeap(s, h2), code, c.value, varCount, v.value, now);
                        Allocate(s, code, varCount, now) == LoadResult(s1, true)))
  {
    hide Between, Installed, Freed, Idle;
    var (s1, c) := Grab(s, multiset{});
  }

  lemma InstalledIs(s: Sched, code: seq<u32>, codeAt: nat, count: nat, varsAt: nat, now: u64, r: Sched)
    requires r == s.(codeBlock := Some(codeAt), code := code, varsBlock := Some(varsAt), varCount := count,
                     vars := seq(count, _ => 0) + Junk(s.host.heap, varsAt, LOCALS),
                     host := s.host.(loadTime := now), schedTime := now, budget := BUDGET)
    ensures r == Installed(s, code, codeAt, count, varsAt, now)
  {
    hide Junk;
  }

  lemma LoadUnfolds(s: Sched, code: seq<u32>, varCount: int, now: u64)
    requires SchedInv(s)
    ensures var s1 := Unload(s);
            && s1.faultVars == None && !Loaded(s1) && Idle(s1)
            && (code == [] || varCount <= 0 ==> Load(s, code, varCount, now) == LoadResult(s1, false))
            && (code != [] && varCount > 0 ==>
                  var a := Allocate(s1, code, varCount, now);
                  && (!a.ok ==> Load(s, code, varCount, now) == a)
                  && (a.ok ==>
                        var f := FirstThread(a.sched, now);
                        && (!f.ok ==> Load(s, code, varCount, now) == f)
                        && (f.ok ==> Load(s, code, varCount, now) == LoadResult(SchedRun.Run(f.sched, now), true))))
  {
    hide SchedInv, Unload, Allocate, FirstThread, SchedRun.Run, Settled;
    UnloadedSlot(Unload(s));
  }

  lemma FirstThreadUnfolds(s: Sched, now: u64)
    requires SchedInv(s) && Loaded(s) && Idle(s)
    ensures var (host, node) := ThreadAlloc(s.host, 0);
            && (node.None? ==>
                  SchedInv(s.(host := host)) && FirstThread(s, now) == LoadResult(Unload(s.(host := host)), false))
            && (node.Some? ==>
                  FirstThread(s, now) == LoadResult(Started(s.(host := host), node.value, 0, [], now), true))
  {
    hide SchedInv, Between, ThreadAlloc, Requeue, Queue, InHand, Unload;
    SpawnKeeps(s, 0);
  }

  /** A pass that is over. */
  function Closed(s: Sched): Sched {
    s.(running := false, armed := if s.host.ready == [] then s.armed else s.armed + [s.host.ready[0].wake])
  }

  lemma PassesUnfolds(s: Sched, now: u64)
    requires SchedInv(s) && Loaded(s) && s.pending == None
    ensures var s1 := Turn(s, now);
            var s2 := s1.(pending := None);
            && SchedInv(s2) && Loaded(s2)
            && Passes(s, now) == if s1.pending.Some? then Passes(s2, s1.pending.value) else Closed(s2)
  {
    hide SchedInv, Turn, Settled, NothingDue;
    var s1 := Turn(s, now);
    BooksKeep(s1, s1.(pending := None));
  }

  class Scheduler {
    // The lists, the heap, the events: everything a builtin can reach, and so what the interpreter is handed.
    var host: Host

    // Script storage; the variables and the local region are one array.
    var codeBlock: Option<nat>
    var code: seq<u32>
    var varsBlock: Option<nat>
    var vars: array<u32>
    var varCount: nat
    ghost var words: seq<u32>

    // The pass.
    var budget: int
    var schedTime: u64
    var running: bool
    var pending: Option<u64>

    var slot: Slot
    var cur: Packed
    var prev: Packed
    var deviceTag: u32

    // Who arrives during which turn, and the books of the model.
    var arrivals: seq<seq<Arrival>>
    ghost var books: Books

    /** `words` are the contents of the variable array. */
    ghost predicate Valid()
      reads this`vars, this`words, vars
    {
      vars[..] == words
    }

    ghost function View(): Sched
      reads this
    {
      Sched(host, codeBlock, code, varsBlock, words, varCount, budget, schedTime, running, pending,
            slot.thread, slot.vars, slot.status, slot.total, cur, prev, deviceTag,
            books.emitted, books.armed, books.handed, arrivals, books.executed, books.sweeps, books.signals,
            books.takes)
    }

    /** `core_sched_init`. */
    constructor (grants: seq<bool>, junk: (nat, nat) -> u32, arrivals: seq<seq<Arrival>>, pad: Option<Pad>, tag: u32)
      ensures Valid() && fresh(vars) && View() == SchedTheorems.Init(grants, junk, arrivals, pad, tag)
    {
      host := Host(Heap({}, 0, grants, junk), [], [], 0, 0, None, [], 0, pad, 0, 0, []);
      codeBlock, code, varsBlock, varCount := None, [], None, 0;
      vars, words := new u32[0], [];
      budget, schedTime, running, pending := 0, 0, false, None;
      slot := Slot(None, None, Status.Running, 0);
      cur, prev, deviceTag := [0, 0, 0, 0], [0, 0, 0, 0], tag;
      this.arrivals := arrivals;
      books := Books([], [], multiset{}, 0, [], 0, 0);
    }

    // ---- lists, memory, events -----------------------------------------------------

    /** `core_sched_queue`. */
    method Enqueue(t: Thread)
      modifies this`host
      ensures host == Queue(old(host), t)
    {
      hide InsertAt;
      var k := Scan(host.ready, t.wake);
      host := host.(ready := InsertAt(host.ready, k, t.(stamp := host.stamp)));
      host := host.(count := host.count + 1, stamp := host.stamp + 1);
    }

    /** The head of the pool, unless it is too small: then it goes back. */
    method FromPool(size: nat) returns (node: Option<Thread>)
      modifies this`host
      ensures if old(host).free != [] && |old(host).free[0].stack| >= size
              then node == Some(old(host).free[0]) && host == old(host).(free := old(host).free[1..])
              else node == None && host == old(host)
    {
      node := None;
      if host.free != [] {
        var t := host.free[0];
        host := host.(free := host.free[1..]);
        if |t.stack| < size {
          host := host.(free := [t] + host.free);
          assert host.free == old(host).free;
        } else {
          node := Some(t);
        }
      }
    }

    /** `core_sched_thread_alloc`. */
    method NewThread(stackSize: int) returns (node: Option<Thread>)
      modifies this`host
      ensures (host, node) == ThreadAlloc(old(host), stackSize)
    {
      var size := if stackSize < MIN_STACK then MIN_STACK else if stackSize > LOCALS then LOCALS else stackSize;
      assert size == Clamp(stackSize, MIN_STACK, LOCALS);
      hide Alloc, Junk, Clamp;
      node := FromPool(size);
      if node == None {
        var (heap, b) := Alloc(host.heap);
        host := host.(heap := heap);
        if b == None {
          return;
        }
        node := Some(Thread(b.value, 0, 0, 0, 0, 0, Junk(heap, b.value, size), 0));
      }
      host := host.(nextId := host.nextId + 1);
      node := Some(node.value.(id := host.nextId, pc := 0, acc := 0, depth := 0, wake := 0));
    }

    /** `core_sched_post_event`. */
    method Post(kind: u32, arg1: u32, arg2: u32)
      modifies this`host
      ensures host == PostEvent(old(host), kind, arg1, arg2)
    {
      if |host.events| >= EVENTS {
        host := host.(events := host.events[1..], dropped := host.dropped + 1);
      }
      host := host.(events := host.events + [Event(kind, arg1, arg2)]);
    }

    /** `sched_drain_events`. */
    method DrainEvents()
      modifies this`host, this`books
      ensures host == old(host).(events := []) && books == old(books).(emitted := old(books).emitted + old(host).events)
    {
      while host.events != []
        invariant host == old(host).(events := host.events) && books == old(books).(emitted := books.emitted)
        invariant books.emitted + host.events == old(books).emitted + old(host).events
        decreases |host.events|
      {
        var e := host.events[0];
        host := host.(events := host.events[1..]);
        books := books.(emitted := books.emitted + [e]);
      }
    }

    /** `sched_alloc`. */
    method TakeBlock() returns (b: Option<nat>)
      modifies this`host
      ensures host == old(host).(heap := Alloc(old(host).heap).0) && b == Alloc(old(host).heap).1
    {
      var (heap, block) := Alloc(host.heap);
      host, b := host.(heap := heap), block;
    }

    /** `sched_free`: nothing is done for no block, and a block must be live. */
    method FreeBlock(b: Option<nat>)
      requires b.Some? ==> b.value in host.heap.live
      modifies this`host
      ensures host == old(host).(heap := Freed(old(host).heap, b))
    {
      if b.Some? {
        host := host.(heap := Free(host.heap, b.value));
      }
    }

    // ---- running one thread ----------------------------------------------------------

    /** Unpack a node into the bottom of the shared local region. */
    method UnpackStack(t: Thread)
      requires vars.Length == varCount + LOCALS && |t.stack| <= LOCALS
      modifies vars
      ensures vars[..] == old(vars[..])[..varCount] + t.stack + old(vars[..])[varCount + |t.stack|..]
    {
      hide Overlay;
      ghost var was := vars[..];
      OverlayEnds(was, varCount, t.stack);
      for i := 0 to |t.stack|
        invariant vars[..] == Overlay(was, varCount, t.stack, i)
      {
        OverlayStep(was, varCount, t.stack, i);
        vars[varCount + i] := t.stack[i];
      }
    }

    /** Put a thread on the processor: its stack into the shared storage, its name into the books. */
    method Board(t: Thread)
      requires Valid() && Loaded(View()) && vars.Length == varCount + LOCALS && |t.stack| <= LOCALS
      modifies this`host, vars
      ensures Core(t.pc, t.acc, t.depth, vars[..]) == Unpack(old(View()), t)
      ensures host == Enter(old(View()), t, Unpack(old(View()), t))
    {
      hide Snap;
      UnpackStack(t);
      assert Core(t.pc, t.acc, t.depth, vars[..]) == Unpack(old(View()), t);
      host := Log(host.(current := Some(t)),
                  Dispatched(t.id, Snap(Core(t.pc, t.acc, t.depth, vars[..]), varCount, LOCALS)));
    }

    /** `core_script_run` on the shared storage. */
    method RunMachine(t: Thread) returns (status: Status, core: Core)
      requires vars.Length == varCount + LOCALS && 0 <= t.depth <= LOCALS
      modifies this`host, this`budget, vars
      ensures MachineRan(HostProgram(code, varCount), old(host), Core(t.pc, t.acc, t.depth, old(vars[..])),
                         old(budget), status, core, host, budget)
      ensures core.vars == vars[..]
    {
      hide Script.Run;
      var m := new Machine<Host>(HostProgram(code, varCount), vars, host);
      m.pc, m.acc, m.sp, m.budget := t.pc, t.acc, t.depth, budget;
      status := m.Run();
      core := Core(m.pc, m.acc, m.sp, vars[..]);
      budget, host := m.budget, m.env;
    }

    /** Take the running thread off the processor and note what it executed. */
    method TakeBack(ghost executed: int) returns (node: Thread)
      requires host.current.Some?
      modifies this`host, this`books, this`words
      ensures Valid() && words == vars[..] && Some(node) == old(host).current && host == old(host).(current := None)
      ensures books == old(books).(executed := old(books).executed + executed)
    {
      node := host.current.value;
      books := books.(executed := books.executed + executed);
      host := host.(current := None);
      words := vars[..];
    }

    /** Unpack a thread, interpret it and take it off the processor. */
    method Interpret(t: Thread) returns (status: Status, core: Core, node: Thread)
      requires Valid() && Runnable(View(), t)
      modifies this`host, this`budget, this`books, this`words, vars
      ensures Valid() && Ran(old(View()), t, View(), status, core, node)
    {
      hide Runnable, Ran, Resume, Script.Run, MachineRan, HostProgram, Unpack, Enter, Loaded, WfThread, Storage;
      ghost var s := View();
      RunnableMeans(s, t);
      Board(t);
      status, core := RunMachine(t);
      RanOnMachine(s, t, status, core, host, budget);
      node := TakeBack(Resume(s, t).executed);
      RanMeans(s, t, View(), status, core, node);
    }

    /** Copy the live words of the operand stack into a node's stack. */
    method CopyStack(core: Core, stack: seq<u32>, depth: nat) returns (r: seq<u32>)
      requires Storage(varCount, core) && depth <= |stack| && depth <= LOCALS
      ensures r == core.vars[varCount..varCount + depth] + stack[depth..]
    {
      r := stack;
      for i := 0 to depth
        invariant r == core.vars[varCount..varCount + i] + stack[i..]
      {
        r := r[i := core.vars[varCount + i]];
      }
    }

    /** A node big enough for the live stack: the same one, or a fresh one in its place. */
    method GrowNode(t: Thread, depth: nat) returns (node: Option<Thread>)
      requires InHand(View(), t) && depth <= LOCALS
      modifies this`host
      ensures (View(), node) == Regrow(old(View()), t, depth)
    {
      ghost var s := View();
      node := Some(t);
      if |t.stack| < depth {
        GrowingFreesALiveNode(s, t, depth);
        hide InHand, Between, Alloc, Free, Junk;
        var b := TakeBlock();
        FreeBlock(Some(t.block));
        node := None;
        if b.Some? {
          node := Some(Thread(b.value, t.id, 0, 0, 0, t.wake, Junk(host.heap, b.value, depth), 0));
        }
      }
    }

    /** Copy the globals. */
    method CopyGlobals() returns (words: seq<u32>)
      requires varCount <= vars.Length
      ensures words == vars[..varCount]
    {
      words := [];
      for i := 0 to varCount
        invariant words == vars[..i]
      {
        words := words + [vars[i]];
      }
    }

    /** The exchange made under the lock. */
    method ExchangeSlot(t: Thread, snapshot: Option<Snapshot>, status: Status)
      returns (wasEmpty: bool, oldThread: Option<Thread>, oldVars: Option<Snapshot>)
      modifies this`slot, this`books
      ensures slot == Slot(Some(t), snapshot, status, old(slot).total + 1)
      ensures wasEmpty == old(slot).thread.None? && oldThread == old(slot).thread && oldVars == old(slot).vars
      ensures books == old(books).(signals := old(books).signals + if wasEmpty then 1 else 0)
    {
      wasEmpty, oldThread, oldVars := slot.thread.None?, slot.thread, slot.vars;
      slot := Slot(Some(t), snapshot, status, slot.total + 1);
      books := books.(signals := books.signals + if wasEmpty then 1 else 0);
    }

    /** Copy the globals into a fresh block, if there is one. */
    method TakeSnapshot() returns (snapshot: Option<Snapshot>)
      requires vars.Length == varCount + LOCALS
      modifies this`host
      ensures host == old(host).(heap := Alloc(old(host).heap).0)
      ensures var b := Alloc(old(host).heap).1;
              snapshot == if b.None? then None else Some(Snapshot(b.value, vars[..varCount]))
    {
      hide Alloc;
      var b := TakeBlock();
      snapshot := None;
      if b.Some? {
        var globals := CopyGlobals();
        snapshot := Some(Snapshot(b.value, globals));
      }
    }

    /** Release what an exchange took out: nothing else can reach either block now. */
    method ReleaseOld(oldThread: Option<Thread>, oldVars: Option<Snapshot>)
      requires Releasable(host.heap, NodeBlock(oldThread), SnapBlock(oldVars))
      modifies this`host
      ensures host == old(host).(heap := Freed(Freed(old(host).heap, NodeBlock(oldThread)), SnapBlock(oldVars)))
    {
      FreeBlock(NodeBlock(oldThread));
      FreeBlock(SnapBlock(oldVars));
    }

    /** The steps of `sched_fault`: the exchange is one of them; what it took out is released afterwards. */
    method SwapAndRelease(t: Thread, status: Status)
      requires vars.Length == varCount + LOCALS
      requires Releasable(Alloc(host.heap).0, NodeBlock(slot.thread), SnapBlock(slot.vars))
      modifies this`host, this`slot, this`books
      ensures slot.thread == Some(t) && slot.status == status && slot.total == old(slot).total + 1
      ensures var b := Alloc(old(host).heap).1;
              slot.vars == if b.None? then None else Some(Snapshot(b.value, vars[..varCount]))
      ensures books == old(books).(signals := old(books).signals + if old(slot).thread.None? then 1 else 0)
      ensures var taken := Alloc(old(host).heap).0;
              var h := old(host).(heap := Freed(Freed(taken, NodeBlock(old(slot).thread)), SnapBlock(old(slot).vars)));
              host == if old(slot).thread.None? then PostEvent(h, EVENT_FAULT, StatusCode(status), deviceTag) else h
    {
      hide Alloc, Freed, PostEvent, StatusCode, NodeBlock, SnapBlock, Releasable;
      var snapshot := TakeSnapshot();
      var wasEmpty, oldThread, oldVars := ExchangeSlot(t, snapshot, status);
      ReleaseOld(oldThread, oldVars);
      if wasEmpty {
        Post(EVENT_FAULT, StatusCode(status), deviceTag);
      }
    }

    /** `sched_fault`. */
    method ParkFaulted(t: Thread, status: Status)
      requires Valid() && InHand(View(), t)
      modifies this`host, this`slot, this`books
      ensures View() == Fault(old(View()), t, status)
    {
      hide InHand, SchedInv, Between, Alloc, Freed, Fault, PostEvent, StatusCode, NodeBlock, SnapBlock, Releasable;
      ghost var s := View();
      OldOccupantCanGo(s, t, status);
      SwapAndRelease(t, status);
      FaultIsFault(s, t, status, slot.vars, View());
    }

    /** What becomes of a thread once it stopped: the end of `sched_execute` and its caller's disposition. */
    method Dispose(t: Thread, core: Core, status: Status)
      requires Valid() && InHand(View(), t) && Storage(varCount, core)
      requires status != Running && (status == Sleeping ==> Script.Ready(varCount, core))
      modifies this`host, this`slot, this`books
      ensures View() == Settle(old(View()), t, core, status)
    {
      hide InHand, SchedInv, Between, Fault, Regrow, Retire, Requeue, InsertAt, Position, Storage, Script.Ready, Snap;
      hide StorageOk, SlotOk, Fill;
      ghost var s := View();
      SettleUnfolds(s, t, core, status);
      if status == Terminated {
        host := ThreadRelease(host, t);
      } else {
        var depth := if core.sp > LOCALS then LOCALS else if core.sp < 0 then 0 else core.sp;
        var node := GrowNode(t, depth);
        if node.Some? {
          FillKeepsHand(View(), node.value, core, depth);
          var saved := SaveThread(node.value, core, depth);
          if status == Sleeping {
            host := Log(host, Slept(saved.id, Snap(core, varCount, depth)));
            Enqueue(saved);
          } else {
            ParkFaulted(saved, status);
          }
        }
      }
    }

    /** Save the registers and the live stack into a node. */
    method SaveThread(t: Thread, core: Core, depth: nat) returns (saved: Thread)
      requires Storage(varCount, core) && depth <= |t.stack| && depth <= LOCALS
      ensures saved == Fill(t, core, varCount, depth)
    {
      var stack := CopyStack(core, t.stack, depth);
      saved := t.(pc := core.pc, acc := core.acc, depth := depth, stack := stack);
    }

    /** Unlink the first thread of the ready list, run it and dispose of it. */
    method DispatchFirst()
      requires Valid() && SchedInv(View()) && Loaded(View()) && host.ready != []
      modifies this`host, this`slot, this`books, this`budget, this`words, vars
      ensures Valid() && View() == DispatchOne(old(View()))
    {
      hide SchedInv, Between, Picked, InHand, Settle, Resume, Return, Runnable, Ran, Storage, Script.Ready, Max;
      ghost var s := View();
      var t := host.ready[0];
      DispatchUnfolds(s);
      host := host.(ready := host.ready[1..], count := host.count - 1);
      var status, core, node := Interpret(t);
      ghost var stopped := View();
      RanThenSettles(s, t, stopped, status, core, node);
      Dispose(node, core, status);
    }

    // ---- the pass ----------------------------------------------------------------------

    /** Run every thread that is due. */
    method DispatchDue(now: u64)
      requires Valid() && SchedInv(View()) && Loaded(View())
      modifies this`host, this`slot, this`books, this`budget, this`words, vars
      ensures Valid() && View() == DispatchAll(old(View()), now)
    {
      hide SchedInv, DispatchOne, SameBooks;
      while host.ready != [] && now >= host.ready[0].wake
        invariant Valid() && SchedInv(View()) && Loaded(View())
        invariant DispatchAll(View(), now) == DispatchAll(old(View()), now)
        decreases Max(budget, 0), |host.ready|
      {
        DispatchFirst();
      }
    }

    /** Credit the bucket with the time since the last sweep. */
    method CreditBucket(now: u64)
      modifies this`budget, this`schedTime
      ensures View() == Credit(old(View()), now)
    {
      var elapsed := TruncDiv(ToS64(Wrap64(now - schedTime)), TICK_100NS);
      if elapsed < 0 {
        elapsed := 0;
      }
      if elapsed > BUDGET {
        elapsed := BUDGET;
      }
      budget := budget + elapsed;
      if budget > BUDGET {
        budget := BUDGET;
      }
      schedTime := now;
    }

    /** One sweep of the ready list. */
    method Sweep(now: u64)
      requires Valid() && SchedInv(View()) && Loaded(View())
      modifies this`host, this`slot, this`books, this`budget, this`schedTime, this`words, vars
      ensures Valid() && View() == SweepOnce(old(View()), now)
    {
      hide SchedInv, DispatchAll, Credit, Max, NothingDue;
      ghost var s := View();
      CreditKeeps(s, now);
      CreditBucket(now);
      DispatchDue(now);
      books := books.(sweeps := books.sweeps + [SchedPass.Sweep(now, books.executed - s.executed)]);
    }

    /** `core_sched_fault_take`: both blocks become the client's. */
    method TakeSlot() returns (thread: Option<Thread>, words: Option<Snapshot>)
      requires SchedInv(View())
      modifies this`slot, this`books
      ensures View() == FaultTake(old(View())) && thread == old(slot).thread && words == old(slot).vars
    {
      hide SchedInv;
      thread, words := slot.thread, slot.vars;
      slot := slot.(thread := None, vars := None);
      books := books.(handed := books.handed + Opt(NodeBlock(thread)) + Opt(SnapBlock(words)),
                      takes := books.takes + if thread.Some? then 1 else 0);
    }

    // ---- controller input ----------------------------------------------------------------

    /** `sched_spawn_handler`: one thread for a bound slot, its arguments on its stack. */
    method SpawnHandler(number: nat, args: Args, now: u64)
      requires Valid() && SchedInv(View()) && Loaded(View())
      modifies this`host
      ensures View() == Spawn(old(View()), Handler(number, args), now)
    {
      hide SchedInv, ThreadAlloc, Requeue, Queue, InHand;
      ghost var s := View();
      StorageFacts(s);
      SpawnUnfolds(s, Handler(number, args), now);
      if number >= varCount { return; }
      var target := vars[number];
      if Tag(target) != TAG_CODE { return; }
      var node := NewThread(|args|);
      if node == None { return; }
      var stack := CopyArgs(args, node.value.stack);
      var t := node.value.(pc := TagValue(target), wake := now, stack := stack);
      host := Log(host, Start(node.value, TagValue(target), args));
      Enqueue(t);
    }

    method CopyArgs(args: Args, stack: seq<u32>) returns (r: seq<u32>)
      requires |args| <= |stack|
      ensures r == args + stack[|args|..]
    {
      r := stack;
      var i := 0;
      while i < |args| && i < |stack|
        invariant 0 <= i <= |args|
        invariant r == args[..i] + stack[i..]
      {
        r := r[i := args[i]];
        i := i + 1;
      }
      assert args[..i] == args;
    }

    /** One thread for each changed button, in slot order. */
    method SpawnButtons(now: u64)
      requires Valid() && SchedInv(View()) && Loaded(View())
      modifies this`host
      ensures View() == SpawnAll(old(View()), ButtonHandlers(cur, prev, 0), now)
    {
      hide SchedInv, Spawn, Button;
      ghost var s := View();
      for n := 0 to 16
        invariant SchedInv(View()) && Loaded(View())
        invariant SpawnAll(View(), ButtonHandlers(cur, prev, n), now) == SpawnAll(s, ButtonHandlers(cur, prev, 0), now)
      {
        if Button(cur, n) != Button(prev, n) {
          ButtonHandlersSplit(cur, prev, n);
          SpawnHandler(n, [if Button(cur, n) then 1 else 0], now);
        }
      }
    }

    /** Spawn every handler the packet calls for. */
    method SpawnHandlers(now: u64)
      requires Valid() && SchedInv(View()) && Loaded(View())
      modifies this`host
      ensures View() == SpawnAll(old(View()), Handlers(cur, prev), now)
    {
      hide SchedInv, Spawn, SpawnAll, ButtonHandlers, Dword, ButtonWord, SignedByte, SignedWord;
      ghost var s := View();
      var pre: Args := [Dword(cur), Dword(prev)];
      SpawnHandler(SLOT_PRE, pre, now);
      ghost var a := [Handler(SLOT_PRE, pre)];
      SpawnAllOne(s, a[0], now);
      ghost var b := [];
      SpawnAllNone(View(), now);
      ghost var s1 := View();
      if cur[..2] != prev[..2] {
        var stick: Args := [SignedByte(cur[0]), SignedByte(cur[1]), SignedByte(prev[0]), SignedByte(prev[1])];
        SpawnHandler(SLOT_STICK, stick, now);
        b := [Handler(SLOT_STICK, stick)];
        SpawnAllOne(s1, b[0], now);
      }
      ghost var s2 := View();
      ghost var c := [];
      SpawnAllNone(s2, now);
      if cur[2..] != prev[2..] {
        var words: Args := [SignedWord(ButtonWord(cur)), SignedWord(ButtonWord(prev))];
        SpawnHandler(SLOT_BUTTONS, words, now);
        SpawnAllOne(s2, Handler(SLOT_BUTTONS, words), now);
        SpawnAllJoins(s2, [Handler(SLOT_BUTTONS, words)], ButtonHandlers(cur, prev, 0), now);
        SpawnButtons(now);
        c := [Handler(SLOT_BUTTONS, words)] + ButtonHandlers(cur, prev, 0);
      }
      ghost var s3 := View();
      var post: Args := [Dword(cur), Dword(prev)];
      SpawnHandler(SLOT_POST, post, now);
      ghost var d := [Handler(SLOT_POST, post)];
      SpawnAllOne(s3, d[0], now);
      SpawnAllJoins(s, a, b, now);
      SpawnAllJoins(s, a + b, c, now);
      SpawnAllJoins(s, a + b + c, d, now);
    }

    /** Advance the packed pair; false if no script is loaded or nothing changed. */
    method TakePacket(raw: Raw) returns (changed: bool)
      requires SchedInv(View())
      modifies this`cur, this`prev
      ensures View() == Advance(old(View()), raw) && changed == Fires(old(View()), raw)
    {
      hide SchedInv;
      prev := cur;
      cur := [raw[0], raw[1], raw[3], raw[4]];
      changed := codeBlock.Some? && cur != prev;
    }

    /** `core_sched_on_input`: answers whether a script is loaded. */
    method OnInput(raw: Raw, now: u64) returns (loaded: bool)
      requires Valid() && SchedInv(View()) && (!running ==> pending == None)
      modifies this, vars
      ensures Valid() && vars == old(vars) && View() == SchedRun.OnInput(old(View()), raw, now)
      ensures loaded == Loaded(old(View()))
      decreases |arrivals|, 4
    {
      hide SchedInv, SpawnAll, Handlers, SchedRun.Run;
      ghost var s := View();
      AdvanceKeeps(s, raw);
      var changed := TakePacket(raw);
      loaded := codeBlock.Some?;
      if changed {
        SpawnHandlers(now);
        Run(now);
      }
    }

    // ---- the latch and the outer loop -------------------------------------------------------

    /** A caller that arrives while a pass is in flight uses the ordinary entry points. */
    method Arrive(a: Arrival)
      requires Valid() && SchedInv(View()) && Loaded(View()) && running
      modifies this, vars
      ensures Valid() && vars == old(vars) && View() == SchedRun.Arrive(old(View()), a)
      decreases |arrivals|, 5
    {
      hide SchedInv, SchedRun.OnInput, SchedRun.Run, Input, FaultTake, Handlers;
      ArriveIsACall(View(), a);
      match a
      case RunAt(now) => Run(now);
      case Packet(raw, now) => var _ := OnInput(raw, now);
      case TakeFault => var _, _ := TakeSlot();
    }

    /** Let the callers of this turn arrive, then drain the events. */
    method ServeCallers()
      requires Valid() && SchedInv(View()) && Loaded(View()) && running
      modifies this, vars
      ensures Valid() && vars == old(vars) && View() == Serve(old(View()))
      decreases |arrivals|, 1
    {
      hide SchedInv, SchedRun.Arrive, Drain;
      ghost var s := View();
      if arrivals != [] {
        var batch := arrivals[0];
        arrivals := arrivals[1..];
        BooksKeep(s, View());
        ghost var s1 := View();
        var i := 0;
        while i < |batch|
          invariant 0 <= i <= |batch| && Valid() && vars == old(vars)
          invariant SchedInv(View()) && Loaded(View()) && running && |arrivals| < |old(arrivals)|
          invariant ArriveAll(View(), batch[i..]) == ArriveAll(s1, batch)
          decreases |batch| - i
        {
          assert batch[i..][0] == batch[i] && batch[i..][1..] == batch[i + 1..];
          Arrive(batch[i]);
          i := i + 1;
        }
      } else {
        BooksKeep(s, s);
      }
      DrainEvents();
    }

    /** One turn of the outer loop. */
    method TakeTurn(now: u64)
      requires Valid() && SchedInv(View()) && Loaded(View()) && running
      modifies this, vars
      ensures Valid() && vars == old(vars) && View() == Turn(old(View()), now)
      decreases |arrivals|, 2
    {
      hide SchedInv, SweepOnce, Serve, Loaded;
      Sweep(now);
      ServeCallers();
    }

    /** One turn, and the time another was asked for. */
    method AnotherTurn(at: u64) returns (next: Option<u64>)
      requires Valid() && SchedInv(View()) && Loaded(View()) && running && pending == None
      modifies this, vars
      ensures Valid() && vars == old(vars) && SchedInv(View()) && Loaded(View()) && running && pending == None
      ensures var s1 := Turn(old(View()), at); next == s1.pending && View() == s1.(pending := None)
      ensures |arrivals| <= |old(arrivals)| && (next.Some? ==> |arrivals| < |old(arrivals)|)
      decreases |arrivals|, 3, 0
    {
      hide SchedInv, Turn, NothingDue, Valid;
      TakeTurn(at);
      next := pending;
      BooksKeep(View(), View().(pending := None));
      pending := None;
    }

    /** The end of a pass: the latch is cleared and the timer armed. */
    method ClosePass()
      modifies this`running, this`books
      ensures View() == Closed(old(View()))
    {
      running := false;
      if host.ready != [] {
        books := books.(armed := books.armed + [host.ready[0].wake]);
      }
    }

    /** Turn after turn, while callers keep arriving; then the timer is armed. */
    method OuterLoop(now: u64)
      requires Valid() && SchedInv(View()) && Loaded(View()) && running && pending == None
      modifies this, vars
      ensures Valid() && vars == old(vars) && View() == Passes(old(View()), now)
      decreases |arrivals|, 3, 1
    {
      hide SchedInv, Turn, Settled, NothingDue, Valid, Passes, Closed;
      ghost var s := View();
      var at := now;
      while true
        invariant Valid() && vars == old(vars) && SchedInv(View()) && Loaded(View())
        invariant running && pending == None && |arrivals| <= |old(arrivals)|
        invariant Passes(View(), at) == Passes(s, now)
        decreases |arrivals|
      {
        PassesUnfolds(View(), at);
        var next := AnotherTurn(at);
        if next == None { break; }
        at := next.value;
      }
      ClosePass();
    }

    /** `core_sched_run`: a caller that finds a pass in flight leaves its time and returns. */
    method Run(now: u64)
      requires Valid() && SchedInv(View()) && (!running ==> pending == None)
      modifies this, vars
      ensures Valid() && vars == old(vars) && View() == SchedRun.Run(old(View()), now)
      decreases |arrivals|, 3, 2
    {
      hide SchedInv, Passes, Settled;
      if codeBlock == None { return; }
      if running {
        pending := Some(now);
        return;
      }
      BooksKeep(View(), View().(running := true));
      running := true;
      OuterLoop(now);
    }

    // ---- teardown and load --------------------------------------------------------------------

    /** `free_list`: release the nodes one by one, head first. */
    method FreeList(ts: seq<Thread>, ghost rest: multiset<nat>)
      requires Owned(host.heap, rest + Blocks(ts))
      modifies this`host
      ensures host == old(host).(heap := FreeAll(old(host).heap, ts, rest))
    {
      hide Owned, Blocks;
      var left := ts;
      while left != []
        invariant Owned(host.heap, rest + Blocks(left)) && host == old(host).(heap := host.heap)
        invariant FreeAll(host.heap, left, rest) == FreeAll(old(host).heap, ts, rest)
        decreases |left|
      {
        HeadIsLive(host.heap, left, rest);
        FreeBlock(Some(left[0].block));
        left := left[1..];
      }
    }

    method FreeHeld(b: Option<nat>, ghost rest: multiset<nat>)
      requires Owned(host.heap, rest + Opt(b))
      modifies this`host
      ensures host == old(host).(heap := FreeOpt(old(host).heap, b, rest))
    {
      if b.Some? {
        OwnedIsLive(host.heap, rest, b.value);
        FreeBlock(b);
      }
    }

    /** Every block the scheduler owns, released in order. */
    method FreeEverythingHeld()
      requires SchedInv(View())
      modifies this`host
      ensures host == old(host).(heap := FreeEverything(old(View())))
    {
      hide SchedInv, Owned, Blocks, Opt, FreeAll, FreeOpt, NodeBlock, SnapBlock;
      ghost var s := View();
      TeardownSteps(s);
      FreeHeld(codeBlock, Rest(s, 1));
      FreeHeld(varsBlock, Rest(s, 2));
      FreeList(host.ready, Rest(s, 3));
      FreeList(host.free, Rest(s, 4));
      FreeHeld(NodeBlock(slot.thread), Rest(s, 5));
      FreeHeld(SnapBlock(slot.vars), Rest(s, 6));
    }

    /** No script: its storage is gone. */
    method ClearStorage()
      modifies this`codeBlock, this`code, this`varsBlock, this`varCount, this`vars, this`words
      ensures codeBlock == None && code == [] && varsBlock == None && varCount == 0 && words == []
      ensures Valid() && fresh(vars)
    {
      codeBlock, code, varsBlock, varCount := None, [], None, 0;
      vars, words := new u32[0], [];
    }

    /** No thread, no pass, nothing parked. */
    method ClearPass()
      modifies this`host, this`slot, this`budget, this`schedTime, this`running, this`pending, this`books
      ensures books == old(books).(armed := old(books).armed + [0], sweeps := [], signals := 0, takes := 0)
      ensures host == old(host).(ready := [], free := [], count := 0, nextId := 0, current := None, events := [],
                                 log := old(host).log + [Unloaded])
      ensures slot == Slot(None, None, Status.Running, 0) && budget == 0 && schedTime == 0
      ensures !running && pending == None
    {
      host := host.(ready := [], free := [], count := 0, nextId := 0, current := None, events := [],
                    log := host.log + [Unloaded]);
      slot := Slot(None, None, Status.Running, 0);
      budget, schedTime, running, pending := 0, 0, false, None;
      books := books.(armed := books.armed + [0], sweeps := [], signals := 0, takes := 0);
    }

    method ClearAll()
      modifies this`codeBlock, this`code, this`varsBlock, this`varCount, this`vars, this`words,
               this`host, this`slot, this`budget, this`schedTime, this`running, this`pending, this`books
      ensures Valid() && fresh(vars)
      ensures View() == Cleared(old(View()), old(host).heap)
    {
      ClearPass();
      ClearStorage();
    }

    /** `core_sched_unload`, apart from the releases it sends to the keyboard and mouse. */
    method UnloadScript()
      requires Valid() && SchedInv(View())
      modifies this
      ensures Valid() && fresh(vars) && View() == Unload(old(View()))
    {
      hide SchedInv, FreeEverything, Valid, Unload, Idle, Loaded;
      ghost var s := View();
      FreeEverythingHeld();
      ClearAll();
      UnloadIs(s, View());
    }

    /** The script's storage filled in: the code copied, the globals zeroed, the local region as it was allocated. */
    method FillStorage(source: seq<u32>, codeAt: nat, count: nat, varsAt: nat, now: u64)
      modifies this`codeBlock, this`code, this`varsBlock, this`varCount, this`vars, this`words, this`host,
               this`schedTime, this`budget
      ensures codeBlock == Some(codeAt) && code == source && varsBlock == Some(varsAt) && varCount == count
      ensures Valid() && fresh(vars) && words == seq(count, _ => 0) + Junk(old(host).heap, varsAt, LOCALS)
      ensures host == old(host).(loadTime := now) && schedTime == now && budget == BUDGET
    {
      hide Junk;
      vars := NewStorage(host.heap, count, varsAt);
      words := vars[..];
      code := CopyCode(source);
      codeBlock, varsBlock, varCount := Some(codeAt), Some(varsAt), count;
      host := host.(loadTime := now);
      schedTime, budget := now, BUDGET;
    }

    /** A block for the code and one for the variables; if the second fails, the first goes back. */
    method TakeBoth() returns (c: Option<nat>, v: Option<nat>)
      requires var (h, b) := Alloc(host.heap); b.Some? ==> b.value in Alloc(h).0.live
      modifies this`host
      ensures c == Alloc(old(host).heap).1
      ensures c.None? ==> v == None && host == old(host).(heap := Alloc(old(host).heap).0)
      ensures c.Some? ==>
                var (h, b) := Alloc(Alloc(old(host).heap).0);
                v == b && host == old(host).(heap := if b.None? then Freed(h, c) else h)
    {
      hide Alloc, Freed;
      c := TakeBlock();
      v := None;
      if c.Some? {
        v := TakeBlock();
        if v.None? {
          FreeBlock(c);
        }
      }
    }

    /** The two allocations of a load, and what follows if both succeed. */
    method AllocateScript(source: seq<u32>, count: nat, now: u64) returns (ok: bool)
      requires Valid() && SchedInv(View()) && !Loaded(View()) && Idle(View()) && source != [] && count > 0
      requires slot.vars == None
      modifies this
      ensures Valid() && (vars == old(vars) || fresh(vars))
      ensures LoadResult(View(), ok) == Allocate(old(View()), source, count, now)
    {
      hide SchedInv, Allocate, Alloc, Freed, Free, Installed, Idle, Loaded, Junk, Valid;
      ghost var s := View();
      AllocateUnfolds(s, source, count, now);
      var c, v := TakeBoth();
      ok := c.Some? && v.Some?;
      if !ok { return; }
      InstallScript(source, c.value, count, v.value, now);
    }

    method InstallScript(source: seq<u32>, codeAt: nat, count: nat, varsAt: nat, now: u64)
      modifies this
      ensures Valid() && fresh(vars)
      ensures View() == Installed(old(View()), source, codeAt, count, varsAt, now)
    {
      hide Installed, Junk, Valid;
      ghost var s := View();
      FillStorage(source, codeAt, count, varsAt, now);
      InstalledIs(s, source, codeAt, count, varsAt, now, View());
    }

    /** `core_sched_load`: tear down, then load unless a count is not positive or an allocation fails. */
    method LoadScript(source: seq<u32>, count: int, now: u64) returns (ok: bool)
      requires Valid() && SchedInv(View())
      modifies this, vars
      ensures Valid() && fresh(vars)
      ensures LoadResult(View(), ok) == Load(old(View()), source, count, now)
    {
      hide SchedInv, Unload, Allocate, FirstThread, SchedRun.Run, Settled, Valid, Loaded;
      ghost var s := View();
      LoadUnfolds(s, source, count, now);
      UnloadScript();
      ok := false;
      if source == [] || count <= 0 { return; }
      ok := AllocateScript(source, count, now);
      if !ok { return; }
      ok := StartFirstThread(now);
      if !ok { return; }
      Run(now);
    }

    /** Thread 0 at program counter 0, due at once. */
    method StartFirstThread(now: u64) returns (ok: bool)
      requires Valid() && SchedInv(View()) && Loaded(View()) && Idle(View())
      modifies this
      ensures Valid() && (vars == old(vars) || fresh(vars))
      ensures LoadResult(View(), ok) == FirstThread(old(View()), now)
    {
      hide SchedInv, ThreadAlloc, Requeue, Queue, InHand, Unload, Idle, Loaded;
      ghost var s := View();
      FirstThreadUnfolds(s, now);
      var node := NewThread(0);
      ok := node.Some?;
      if ok {
        assert [] + node.value.stack[0..] == node.value.stack;
        host := Log(host, Start(node.value, 0, []));
        Enqueue(node.value.(pc := 0, wake := now));
      } else {
        UnloadScript();
      }
    }
  }
}

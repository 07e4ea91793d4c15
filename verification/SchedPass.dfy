/**
  The scheduler: dispatching, retiring and faulting threads, the pass with its
  token bucket and re-entrancy latch, loading and unloading, and controller input.

  Every function demands the invariant of its argument and returns a state that
  has it again, so each release below is of a block that is proved live.
*/
module SchedPass {
  import opened Words
  import opened Script
  import opened ScriptTheorems
  import opened SchedState
  import opened SchedNative
  import opened SchedInvariant

  const TICK_100NS: int := 100

  /** A snapshot of the globals parked beside a faulted thread. */
  datatype Snapshot = Snapshot(block: nat, words: seq<u32>)

  type Raw = r: seq<u8> | |r| == 5 witness [0, 0, 0, 0, 0]
  type Packed = p: seq<u8> | |p| == 4 witness [0, 0, 0, 0]

  /** What may reach the scheduler while a pass is in flight. */
  datatype Arrival = RunAt(now: u64) | Packet(raw: Raw, now: u64) | TakeFault

  /** One finished sweep: the time it ran at and the instructions it executed. */
  datatype Sweep = Sweep(now: u64, executed: int)

  datatype Sched = Sched(
    host: Host,
    codeBlock: Option<nat>, code: seq<u32>,
    varsBlock: Option<nat>, vars: seq<u32>, varCount: nat,
    budget: int, schedTime: u64,
    running: bool, pending: Option<u64>,
    faultThread: Option<Thread>, faultVars: Option<Snapshot>, faultStatus: Status, faultTotal: nat,
    cur: Packed, prev: Packed, deviceTag: u32,
    // the environment and the books of the model
    emitted: seq<Event>, armed: seq<u64>, handed: multiset<nat>,
    arrivals: seq<seq<Arrival>>, executed: int, sweeps: seq<Sweep>, signals: nat, takes: nat)

  // ---- the invariant ---------------------------------------------------------

  function Opt(b: Option<nat>): multiset<nat> {
    if b.None? then multiset{} else multiset{b.value}
  }

  function SnapBlock(v: Option<Snapshot>): Option<nat> {
    if v.None? then None else Some(v.value.block)
  }

  function NodeBlock(t: Option<Thread>): Option<nat> {
    if t.None? then None else Some(t.value.block)
  }

  /** The live blocks that are not thread nodes of the lists: code, variables, the fault slot, the client's. */
  ghost function Outside(s: Sched): multiset<nat> {
    Opt(s.codeBlock) + Opt(s.varsBlock) + Opt(NodeBlock(s.faultThread)) + Opt(SnapBlock(s.faultVars)) + s.handed
  }

  predicate Loaded(s: Sched) {
    s.codeBlock.Some?
  }

  ghost predicate StorageOk(s: Sched) {
    && (s.codeBlock.Some? <==> s.varsBlock.Some?)
    && (Loaded(s) ==> s.code != [] && s.varCount > 0 && |s.vars| == s.varCount + LOCALS)
    && (!Loaded(s) ==> s.host.ready == [] && s.host.free == [] && s.faultThread == None)
  }

  /** The post-mortem slot: one signal per occupation, and a parked snapshot has `varCount` words. */
  ghost predicate SlotOk(s: Sched) {
    && (s.faultVars.Some? ==> s.faultThread.Some? && |s.faultVars.value.words| == s.varCount)
    && s.signals == s.takes + if s.faultThread.Some? then 1 else 0
  }

  /** Everything that holds between any two steps of the scheduler; `extra` are blocks in its hands. */
  ghost predicate Between(s: Sched, extra: multiset<nat>) {
    && HostInv(s.host, Outside(s) + extra) && s.host.current == None
    && StorageOk(s) && SlotOk(s)
    && s.budget <= BUDGET
  }

  ghost predicate SchedInv(s: Sched) {
    Between(s, multiset{})
  }

  /** A thread taken off every list, as `core_sched_run` holds it around a dispatch. */
  ghost predicate InHand(s: Sched, t: Thread) {
    && Between(s, multiset{t.block}) && Loaded(s)
    && |t.stack| <= LOCALS && t.id <= s.host.nextId && NotReady(s.host.ready, t.id)
  }

  /** A waiting thread just unlinked, not yet dispatched. */
  ghost predicate Picked(s: Sched, t: Thread) {
    && HandInv(s.host, Outside(s) + multiset{t.block}, Some(t.id)) && s.host.current == None
    && StorageOk(s) && SlotOk(s) && s.budget <= BUDGET && Loaded(s)
    && WfThread(t) && 0 <= t.pc && t.id <= s.host.nextId && NotReady(s.host.ready, t.id)
    && Holds(t, Owed(s.host.log, t.id))
  }

  // ---- running one thread ------------------------------------------------------

  function HostProgram(code: seq<u32>, varCount: nat): Program<Host> {
    Program(code, varCount, Some((h: Host, c: Core, id: u32) => Native(h, c, varCount, id)))
  }

  /** The node's whole stack is unpacked over the bottom of the shared local region. */
  function Unpack(s: Sched, t: Thread): Core
    requires Loaded(s) && |s.vars| == s.varCount + LOCALS && |t.stack| <= LOCALS
  {
    Core(t.pc, t.acc, t.depth,
         s.vars[..s.varCount] + t.stack + s.vars[s.varCount + |t.stack|..])
  }

  /** What the virtual machine holds of a thread: its registers and the shared local region. */
  function Snap(c: Core, varCount: nat, words: nat): Context
    requires Storage(varCount, c) && words <= LOCALS
  {
    Context(c.pc, c.acc, c.sp, c.vars[varCount..varCount + words])
  }

  function Enter(s: Sched, t: Thread, c: Core): Host
    requires Storage(s.varCount, c)
  {
    Log(s.host.(current := Some(t)), Dispatched(t.id, Snap(c, s.varCount, LOCALS)))
  }

  /** Unpack a thread and interpret it. */
  function Resume(s: Sched, t: Thread): RunResult<Host>
    requires Loaded(s) && |s.vars| == s.varCount + LOCALS && WfThread(t)
  {
    var c := Unpack(s, t);
    Run(HostProgram(s.code, s.varCount), Enter(s, t, c), c, s.budget)
  }

  /** The running thread is still there, on the same node. */
  ghost predicate SameNode(h: Host, t: Thread) {
    && h.current.Some? && h.current.value.block == t.block && h.current.value.id == t.id
    && h.current.value.stack == t.stack
  }

  lemma NativeSameNode(h: Host, outside: multiset<nat>, c: Core, varCount: nat, id: u32, t: Thread)
    requires HostInv(h, outside) && SameNode(h, t)
    ensures SameNode(Native(h, c, varCount, id).env, t)
  {
    NativeEnv(h, c, varCount, id);
    hide HandInv, HostInv, Native, SleepUntil, NativeArg, Position, FindThread, LiveStack, Junk, Alloc;
  }

  /** Any run of any program keeps the host's invariant and the running node. */
  lemma LoopKeepsHost(p: Program<Host>, outside: multiset<nat>, t: Thread, h: Host, c: Core, budget: int)
    requires p == HostProgram(p.code, p.varCount)
    requires Script.Ready(p.varCount, c) && HostInv(h, outside) && SameNode(h, t)
    ensures var r := Loop(p, h, c, budget); HostInv(r.env, outside) && SameNode(r.env, t)
  {
    hide HandInv, HostInv, SameNode, Exec, Native, Loop;
    var inv := (h: Host) => HostInv(h, outside) && SameNode(h, t);
    forall h: Host, d: Core, id: u32 | inv(h) && Script.Ready(p.varCount, d)
      ensures inv(p.native.value(h, d, id).env)
    {
      NativeKeeps(h, outside, d, p.varCount, id);
      NativeSameNode(h, outside, d, p.varCount, id, t);
    }
    LoopKeeps(p, inv, h, c, budget);
  }

  lemma ResumeKeeps(s: Sched, t: Thread)
    requires Picked(s, t)
    ensures var r := Resume(s, t);
            HostInv(r.env, Outside(s)) && SameNode(r.env, t)
  {
    hide HandInv, HostInv, SameNode, Loop, Outside, NotReady, Owed, Holds;
    var c := Unpack(s, t);
    BoardKeeps(s, t, c);
    if c.pc >= 0 {
      LoopKeepsHost(HostProgram(s.code, s.varCount), Outside(s), t, Enter(s, t, c), c, s.budget);
    }
  }

  lemma BoardKeeps(s: Sched, t: Thread, c: Core)
    requires Picked(s, t)
    requires c == Unpack(s, t)
    ensures HostInv(Enter(s, t, c), Outside(s)) && SameNode(Enter(s, t, c), t)
  {
    var got := Snap(c, s.varCount, LOCALS);
    assert got.words[..|t.stack|] == t.stack;
    var owed := Owed(s.host.log, t.id).value;
    assert owed.words <= got.words by {
      assert got.words[..|owed.words|] == t.stack[..|owed.words|];
    }
    var h := s.host.(current := Some(t));
    hide Owned, Waiting, Debts, Blocks, Owed, Outside;
    assert Blocks(h.ready) + Blocks(h.free) + Held(h.current) + Outside(s)
        == Blocks(s.host.ready) + Blocks(s.host.free) + Held(s.host.current) + (Outside(s) + multiset{t.block});
    assert OnCpu(h.current, h.ready, h.nextId);
    LogKeeps(h, Outside(s), Some(t.id), Dispatched(t.id, got));
  }

  /** The run is over: the node is back in the scheduler's hands and its tokens are spent. */
  function Return(s: Sched, r: RunResult<Host>): Sched {
    s.(host := r.env.(current := None), vars := r.core.vars, budget := r.budget,
       executed := s.executed + r.executed)
  }

  lemma LeaveCpu(h: Host, outside: multiset<nat>, t: Thread)
    requires HostInv(h, outside) && h.current == Some(t)
    ensures HostInv(h.(current := None), outside + multiset{t.block})
    ensures |t.stack| <= LOCALS && t.id <= h.nextId && NotReady(h.ready, t.id)
  {
    hide Owned, Waiting, Debts, Blocks;
    assert Blocks(h.ready) + Blocks(h.free) + Held(None) + (outside + multiset{t.block})
        == Blocks(h.ready) + Blocks(h.free) + Held(h.current) + outside;
  }

  lemma ResumeSpends(s: Sched, t: Thread)
    requires Loaded(s) && |s.vars| == s.varCount + LOCALS && WfThread(t) && 0 <= t.pc
    ensures var r := Resume(s, t);
            && Storage(s.varCount, r.core) && r.status != Running
            && (r.status == Sleeping ==> Ready(s.varCount, r.core))
            && r.budget < s.budget && r.executed <= Max(s.budget, 0) - Max(r.budget, 0)
            && (s.budget <= 0 ==> r.status == BudgetOut && r.core.sp == t.depth && r.env.ready == s.host.ready)
  {
    hide Exec, Native;
  }

  lemma ReturnHolders(s: Sched, r: RunResult<Host>)
    ensures Outside(Return(s, r)) == Outside(s)
  {
  }

  lemma ReturnKeeps(s: Sched, t: Thread)
    requires Picked(s, t)
    ensures var r := Resume(s, t);
            r.env.current.Some? && InHand(Return(s, r), r.env.current.value)
              && r.env.current.value.id == t.id && |r.env.current.value.stack| == |t.stack|
  {
    hide HandInv, HostInv, Resume, NotReady, Outside, Owed, Script.Ready;
    var r := Resume(s, t);
    ResumeKeeps(s, t);
    ResumeSpends(s, t);
    LeaveCpu(r.env, Outside(s), r.env.current.value);
    ReturnHolders(s, r);
  }

  // ---- memory given back and taken ----------------------------------------------

  function SetHeap(s: Sched, heap: Heap): Sched {
    s.(host := s.host.(heap := heap))
  }

  ghost function Holders(h: Host, outside: multiset<nat>): multiset<nat> {
    Blocks(h.ready) + Blocks(h.free) + Held(h.current) + outside
  }

  lemma FreeKeeps(h: Host, outside: multiset<nat>, b: nat)
    requires HostInv(h, outside + multiset{b})
    ensures b in h.heap.live && HostInv(h.(heap := Free(h.heap, b)), outside)
  {
    hide Owned, Waiting, Debts, Blocks;
    assert Blocks(h.ready) + Blocks(h.free) + Held(h.current) + (outside + multiset{b})
        == Holders(h, outside) + multiset{b};
    OwnedIsLive(h.heap, Holders(h, outside), b);
  }

  lemma DropKeeps(s: Sched, extra: multiset<nat>, b: nat)
    requires Between(s, extra + multiset{b})
    ensures b in s.host.heap.live && Between(SetHeap(s, Free(s.host.heap, b)), extra)
  {
    hide HandInv, HostInv;
    assert Outside(s) + (extra + multiset{b}) == Outside(s) + extra + multiset{b};
    FreeKeeps(s.host, Outside(s) + extra, b);
  }

  function Freed(heap: Heap, b: Option<nat>): Heap
    requires b.Some? ==> b.value in heap.live
  {
    if b.Some? then Free(heap, b.value) else heap
  }

  /** `sched_free` of a block in hand, if there is one: it is still live. */
  function Drop(s: Sched, ghost extra: multiset<nat>, b: Option<nat>): (r: Sched)
    requires Between(s, extra + Opt(b))
    ensures Between(r, extra)
    ensures b.Some? ==> b.value in s.host.heap.live
    ensures r == SetHeap(s, Freed(s.host.heap, b))
  {
    match b
    case None =>
      assert extra + Opt(b) == extra;
      s
    case Some(block) =>
      DropKeeps(s, extra, block);
      SetHeap(s, Free(s.host.heap, block))
  }

  /** The two blocks can be released one after the other. */
  predicate Releasable(heap: Heap, first: Option<nat>, second: Option<nat>) {
    (first.Some? ==> first.value in heap.live) && (second.Some? ==> second.value in Freed(heap, first).live)
  }

  /** Release what an exchange took out of the slot. */
  function DropBoth(s: Sched, first: Option<nat>, second: Option<nat>): (r: Sched)
    requires Between(s, Opt(second) + Opt(first))
    ensures SchedInv(r)
    ensures Releasable(s.host.heap, first, second)
    ensures r == SetHeap(s, Freed(Freed(s.host.heap, first), second))
  {
    hide Between, Opt, Freed;
    assert Opt(second) == multiset{} + Opt(second);
    Drop(Drop(s, Opt(second), first), multiset{}, second)
  }

  lemma GrabKeeps(s: Sched, extra: multiset<nat>)
    requires Between(s, extra)
    ensures var (heap, b) := Alloc(s.host.heap);
            Between(SetHeap(s, heap), extra + Opt(b))
  {
    FreshKeeps(s.host, Outside(s) + extra);
    hide HandInv, HostInv, Alloc;
    var (heap, b) := Alloc(s.host.heap);
    assert Outside(s) + (extra + Opt(b)) == Outside(s) + extra + Opt(b);
  }

  /** `sched_alloc`: a fresh block in hand, or nothing. */
  function Grab(s: Sched, ghost extra: multiset<nat>): (r: (Sched, Option<nat>))
    requires Between(s, extra)
    ensures Between(r.0, extra + Opt(r.1))
    ensures r.0 == SetHeap(s, r.0.host.heap)
    ensures (r.0.host.heap, r.1) == Alloc(s.host.heap)
  {
    GrabKeeps(s, extra);
    var (heap, b) := Alloc(s.host.heap);
    (SetHeap(s, heap), b)
  }

  // ---- saving the thread ---------------------------------------------------------

  /** A node to save into: the same one, or a bigger one when the live stack outgrew it. */
  function Regrow(s: Sched, t: Thread, depth: nat): (r: (Sched, Option<Thread>))
    requires InHand(s, t) && depth <= LOCALS
    ensures r.1.None? ==> SchedInv(r.0)
    ensures r.1.Some? ==>
              InHand(r.0, r.1.value) && depth <= |r.1.value.stack| && r.1.value.id == t.id && r.1.value.wake == t.wake
    ensures r.0 == SetHeap(s, r.0.host.heap)
    ensures depth <= |t.stack| ==> r == (s, Some(t))
  {
    if |t.stack| >= depth then (s, Some(t))
    else
      var (s1, b) := Grab(s, multiset{t.block});
      assert multiset{t.block} + Opt(b) == Opt(b) + Opt(Some(t.block));
      var s2 := Drop(s1, Opt(b), Some(t.block));
      match b
      case None => (s2, None)
      case Some(block) =>
        (s2, Some(Thread(block, t.id, 0, 0, 0, t.wake, Junk(s2.host.heap, block, depth), 0)))
  }

  /** Write the machine's registers and live stack into a node. */
  function Fill(t: Thread, c: Core, varCount: nat, depth: nat): (r: Thread)
    requires Storage(varCount, c) && depth <= |t.stack| && depth <= LOCALS
    ensures WfThread(r) || |t.stack| > LOCALS
    ensures r.block == t.block && r.id == t.id && r.wake == t.wake && |r.stack| == |t.stack|
    ensures r.stack[..depth] == c.vars[varCount..varCount + depth]
  {
    var words := c.vars[varCount..varCount + depth];
    t.(pc := c.pc, acc := c.acc, depth := depth, stack := words + t.stack[depth..])
  }

  // ---- the post-mortem slot --------------------------------------------------------

  function StatusCode(status: Status): u32 {
    match status
    case Running => 0
    case Terminated => 1
    case BadVar => 2
    case Underflow => 3
    case Overflow => 4
    case DivZero => 5
    case Range => 6
    case Illegal => 7
    case BadNative => 8
    case Sleeping => 9
    case BudgetOut => 10
    case NoMemory => 11
  }

  /** The exchange made under the lock: the new occupant in, the old one out. */
  function Occupy(s: Sched, t: Thread, snapshot: Option<Snapshot>, status: Status): Sched {
    s.(faultThread := Some(t), faultVars := snapshot, faultStatus := status,
       faultTotal := s.faultTotal + 1, signals := s.signals + if s.faultThread.None? then 1 else 0)
  }

  lemma ExchangeHolders(code: multiset<nat>, vars: multiset<nat>, node: multiset<nat>, words: multiset<nat>,
                        handed: multiset<nat>, newNode: multiset<nat>, newWords: multiset<nat>)
    ensures code + vars + node + words + handed + (newNode + newWords)
         == code + vars + newNode + newWords + handed + (words + node)
  {
  }

  lemma OccupyHolders(s: Sched, t: Thread, snapshot: Option<Snapshot>, status: Status)
    ensures Outside(s) + (multiset{t.block} + Opt(SnapBlock(snapshot)))
         == Outside(Occupy(s, t, snapshot, status)) + (Opt(SnapBlock(s.faultVars)) + Opt(NodeBlock(s.faultThread)))
  {
    assert Opt(NodeBlock(Some(t))) == multiset{t.block};
    ExchangeHolders(Opt(s.codeBlock), Opt(s.varsBlock), Opt(NodeBlock(s.faultThread)), Opt(SnapBlock(s.faultVars)),
                    s.handed, multiset{t.block}, Opt(SnapBlock(snapshot)));
    hide Opt, SnapBlock, NodeBlock;
  }

  lemma OccupyKeeps(s: Sched, t: Thread, snapshot: Option<Snapshot>, status: Status)
    requires Between(s, multiset{t.block} + Opt(SnapBlock(snapshot))) && Loaded(s)
    requires snapshot.Some? ==> |snapshot.value.words| == s.varCount
    ensures Between(Occupy(s, t, snapshot, status), Opt(SnapBlock(s.faultVars)) + Opt(NodeBlock(s.faultThread)))
  {
    OccupyHolders(s, t, snapshot, status);
    hide HandInv, HostInv, Outside, Opt, SnapBlock, NodeBlock;
  }

  function Signal(s: Sched, kind: u32, arg1: u32): (r: Sched)
    requires SchedInv(s)
    ensures SchedInv(r) && r == s.(host := r.host)
    ensures r.host == s.host.(events := r.host.events, dropped := r.host.dropped)
  {
    SignalKeeps(s, kind, arg1);
    s.(host := PostEvent(s.host, kind, arg1, s.deviceTag))
  }

  lemma SignalKeeps(s: Sched, kind: u32, arg1: u32)
    requires SchedInv(s)
    ensures SchedInv(s.(host := PostEvent(s.host, kind, arg1, s.deviceTag)))
  {
    var h1 := PostEvent(s.host, kind, arg1, s.deviceTag);
    assert |h1.events| <= EVENTS;
    InertKeeps(s.host, Outside(s) + multiset{}, h1);
    hide HandInv, HostInv;
  }

  /** `sched_fault`: park the thread with a snapshot of the globals and release what was parked before. */
  function Fault(s: Sched, t: Thread, status: Status): (r: Sched)
    requires InHand(s, t)
    ensures SchedInv(r)
    ensures r.host.ready == s.host.ready && r.host.log == s.host.log && Loaded(r)
    ensures r == s.(host := r.host, faultThread := r.faultThread, faultVars := r.faultVars,
                    faultStatus := r.faultStatus, faultTotal := r.faultTotal, signals := r.signals)
    ensures r.faultThread == Some(t) && r.faultStatus == status
    ensures r.host.events == if s.faultThread.Some? then s.host.events
                             else PostEvent(s.host, EVENT_FAULT, StatusCode(status), s.deviceTag).events
  {
    var (s1, b) := Grab(s, multiset{t.block});
    var snapshot := if b.None? then None else Some(Snapshot(b.value, s.vars[..s.varCount]));
    OccupyKeeps(s1, t, snapshot, status);
    var s2 := DropBoth(Occupy(s1, t, snapshot, status), NodeBlock(s.faultThread), SnapBlock(s.faultVars));
    if s.faultThread.None? then Signal(s2, EVENT_FAULT, StatusCode(status)) else s2
  }

  /** Running threads leaves the clock, the latch and the environment's script alone. */
  predicate SameBooks(r: Sched, s: Sched) {
    && r.schedTime == s.schedTime && r.running == s.running && r.pending == s.pending
    && r.arrivals == s.arrivals && r.sweeps == s.sweeps && r.armed == s.armed && r.emitted == s.emitted
  }

  // ---- one dispatch ------------------------------------------------------------

  lemma TakePicks(s: Sched, k: nat)
    requires SchedInv(s) && Loaded(s) && k < |s.host.ready|
    ensures Picked(s.(host := TakeAt(s.host, k)), s.host.ready[k])
  {
    hide Outside, Owned, Owed, Blocks, NotReady, Ordered, Faithful, RemoveAt;
    var t := s.host.ready[k];
    WaitingThread(s.host, Outside(s) + multiset{}, k);
    TakeKeeps(s.host, Outside(s) + multiset{}, k);
    assert Outside(s) + multiset{} + multiset{t.block} == Outside(s) + multiset{t.block};
    hide HandInv, HostInv;
    TakenOutside(s, k);
  }

  /** What the invariant says of one waiting thread. */
  lemma WaitingThread(h: Host, outside: multiset<nat>, k: nat)
    requires HostInv(h, outside) && k < |h.ready|
    ensures var t := h.ready[k];
            WfThread(t) && 0 <= t.pc && t.id <= h.nextId && Holds(t, Owed(h.log, t.id))
  {
    hide Owned, Owed, Blocks, NotReady, Ordered, Faithful;
  }

  lemma TakenOutside(s: Sched, k: nat)
    requires k < |s.host.ready|
    ensures Outside(s.(host := TakeAt(s.host, k))) == Outside(s)
  {
  }

  function Retire(s: Sched, t: Thread): (r: Sched)
    requires InHand(s, t)
    ensures SchedInv(r) && r == s.(host := ThreadRelease(s.host, t))
  {
    assert Outside(s) + multiset{} == Outside(s);
    ReleaseKeeps(s.host, Outside(s), t);
    s.(host := ThreadRelease(s.host, t))
  }

  function Requeue(s: Sched, t: Thread, e: Entry): (r: Sched)
    requires InHand(s, t) && WfThread(t) && 0 <= t.pc
    requires (e.Born? || e.Slept?) && e.id == t.id && Holds(t, Some(e.context))
    ensures SchedInv(r) && r == s.(host := Queue(Log(s.host, e), t))
  {
    assert Outside(s) + multiset{} == Outside(s);
    EnterKeeps(s.host, Outside(s), e, t);
    s.(host := Queue(Log(s.host, e), t))
  }

  lemma HandIsLoaded(s: Sched, t: Thread)
    requires InHand(s, t)
    ensures Loaded(s)
  {
  }

  /** Saving into a node in hand: it stays in hand, and holds what the machine held. */
  lemma FillKeepsHand(s: Sched, n: Thread, c: Core, depth: nat)
    requires InHand(s, n) && Storage(s.varCount, c) && depth <= |n.stack| && depth <= LOCALS
    ensures var saved := Fill(n, c, s.varCount, depth);
            && InHand(s, saved) && WfThread(saved) && saved.pc == c.pc
            && (c.sp == depth ==> Holds(saved, Some(Snap(c, s.varCount, depth))))
  {
    hide HandInv, HostInv, Outside, NotReady;
  }

  /** What becomes of a thread once it stopped. */
  function Settle(s: Sched, t: Thread, c: Core, status: Status): (r: Sched)
    requires InHand(s, t) && Storage(s.varCount, c) && status != Running
    requires status == Sleeping ==> Ready(s.varCount, c)
    ensures SchedInv(r) && Loaded(r)
    ensures r == s.(host := r.host, faultThread := r.faultThread, faultVars := r.faultVars,
                    faultStatus := r.faultStatus, faultTotal := r.faultTotal, signals := r.signals)
    ensures status == BudgetOut && 0 <= c.sp <= |t.stack| ==> r.host.ready == s.host.ready
  {
    hide SchedInv, Between, InHand, Regrow, Fill, ThreadRelease, Queue, Fault;
    HandIsLoaded(s, t);
    if status == Terminated then Retire(s, t)
    else
      var depth := Clamp(c.sp, 0, LOCALS);
      var (s1, node) := Regrow(s, t, depth);
      match node
      case None => s1
      case Some(n) =>
        var saved := Fill(n, c, s.varCount, depth);
        FillKeepsHand(s1, n, c, depth);
        if status == Sleeping then Requeue(s1, saved, Slept(saved.id, Snap(c, s.varCount, depth)))
        else Fault(s1, saved, status)
  }

  /** Run the first thread of the ready list and dispose of it. */
  function DispatchOne(s: Sched): (r: Sched)
    requires SchedInv(s) && Loaded(s) && s.host.ready != []
    ensures SchedInv(r) && Loaded(r) && SameBooks(r, s)
    ensures r.budget <= s.budget
    ensures s.executed <= r.executed <= s.executed + Max(s.budget, 0) - Max(r.budget, 0)
    ensures Max(r.budget, 0) == Max(s.budget, 0) ==> |r.host.ready| < |s.host.ready|
  {
    hide SchedInv, Picked, SettleResumed, RemoveAt;
    TakePicks(s, 0);
    SettleResumed(s.(host := TakeAt(s.host, 0)), s.host.ready[0])
  }

  /** Interpret a thread in hand and dispose of it. */
  function SettleResumed(s: Sched, t: Thread): (r: Sched)
    requires Picked(s, t)
    ensures SchedInv(r) && Loaded(r) && SameBooks(r, s)
    ensures r.budget < s.budget
    ensures s.executed <= r.executed <= s.executed + Max(s.budget, 0) - Max(r.budget, 0)
    ensures s.budget <= 0 ==> r.host.ready == s.host.ready
  {
    ReturnKeeps(s, t);
    ResumeSpends(s, t);
    var run := Resume(s, t);
    Settle(Return(s, run), run.env.current.value, run.core, run.status)
  }

  // ---- the pass ------------------------------------------------------------------

  /** The tokens a time span earns: one per ten microseconds, never negative, at most a full bucket. */
  function Earned(since: u64, now: u64): (e: int)
    ensures 0 <= e <= BUDGET
  {
    Clamp(TruncDiv(ToS64(Wrap64(now - since)), TICK_100NS), 0, BUDGET)
  }

  function Credit(s: Sched, now: u64): (r: Sched)
    ensures r == s.(budget := r.budget, schedTime := now)
  {
    s.(budget := Min(s.budget + Earned(s.schedTime, now), BUDGET), schedTime := now)
  }

  predicate NothingDue(ready: seq<Thread>, now: u64) {
    ready == [] || now < ready[0].wake
  }

  /** Run every thread that is due. Terminates for every script: see the measure. */
  function DispatchAll(s: Sched, now: u64): (r: Sched)
    requires SchedInv(s) && Loaded(s)
    ensures SchedInv(r) && Loaded(r) && SameBooks(r, s)
    ensures NothingDue(r.host.ready, now)
    ensures r.budget <= s.budget
    ensures s.executed <= r.executed <= s.executed + Max(s.budget, 0) - Max(r.budget, 0)
    decreases Max(s.budget, 0), |s.host.ready|
  {
    hide SchedInv, DispatchOne;
    if NothingDue(s.host.ready, now) then s else DispatchAll(DispatchOne(s), now)
  }

  function Drain(s: Sched): (r: Sched)
    requires SchedInv(s)
    ensures SchedInv(r)
    ensures r == s.(emitted := s.emitted + s.host.events, host := s.host.(events := []))
  {
    InertKeeps(s.host, Outside(s) + multiset{}, s.host.(events := []));
    s.(emitted := s.emitted + s.host.events, host := s.host.(events := []))
  }

  /** Leave a timestamp for the pass in flight. */
  function Latch(s: Sched, now: u64): Sched {
    s.(pending := Some(now))
  }

  /** `core_sched_fault_take`: both blocks become the client's. */
  function FaultTake(s: Sched): (r: Sched)
    requires SchedInv(s)
    ensures SchedInv(r) && r.faultThread == None && r.faultVars == None && r.host == s.host
    ensures r.handed == s.handed + Opt(NodeBlock(s.faultThread)) + Opt(SnapBlock(s.faultVars))
    ensures SameBooks(r, s) && r.budget == s.budget && r.executed == s.executed
    ensures Loaded(r) == Loaded(s)
  {
    TakeHolders(s);
    s.(faultThread := None, faultVars := None,
       handed := s.handed + Opt(NodeBlock(s.faultThread)) + Opt(SnapBlock(s.faultVars)),
       takes := s.takes + if s.faultThread.Some? then 1 else 0)
  }

  lemma TakeHolders(s: Sched)
    ensures var r := s.(faultThread := None, faultVars := None,
                        handed := s.handed + Opt(NodeBlock(s.faultThread)) + Opt(SnapBlock(s.faultVars)),
                        takes := s.takes + if s.faultThread.Some? then 1 else 0);
            Outside(r) == Outside(s)
  {
    assert Opt(NodeBlock(None)) == multiset{} && Opt(SnapBlock(None)) == multiset{};
  }
}

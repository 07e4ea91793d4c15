/** Unloading, loading, and the calls a client can make in any order. */
module SchedLoad {
  import opened Words
  import opened Script
  import opened SchedState
  import opened SchedInvariant
  import opened SchedPass
  import opened SchedRun

  // ---- teardown --------------------------------------------------------------------

  /** `free_list`: release every node of a list, head first. */
  function FreeAll(heap: Heap, ts: seq<Thread>, ghost rest: multiset<nat>): (r: Heap)
    requires Owned(heap, rest + Blocks(ts))
    ensures Owned(r, rest)
    decreases |ts|
  {
    if ts == [] then
      assert rest + Blocks(ts) == rest;
      heap
    else
      assert rest + Blocks(ts) == rest + Blocks(ts[1..]) + multiset{ts[0].block};
      OwnedIsLive(heap, rest + Blocks(ts[1..]), ts[0].block);
      FreeAll(Free(heap, ts[0].block), ts[1..], rest)
  }

  lemma HeadIsLive(heap: Heap, ts: seq<Thread>, rest: multiset<nat>)
    requires Owned(heap, rest + Blocks(ts)) && ts != []
    ensures ts[0].block in heap.live
    ensures Owned(Free(heap, ts[0].block), rest + Blocks(ts[1..]))
    ensures FreeAll(heap, ts, rest) == FreeAll(Free(heap, ts[0].block), ts[1..], rest)
  {
    assert rest + Blocks(ts) == rest + Blocks(ts[1..]) + multiset{ts[0].block};
    OwnedIsLive(heap, rest + Blocks(ts[1..]), ts[0].block);
    hide Owned, Blocks;
  }

  function FreeOpt(heap: Heap, b: Option<nat>, ghost rest: multiset<nat>): (r: Heap)
    requires Owned(heap, rest + Opt(b))
    ensures Owned(r, rest)
  {
    match b
    case None =>
      assert rest + Opt(b) == rest;
      heap
    case Some(block) =>
      OwnedIsLive(heap, rest, block);
      Free(heap, block)
  }

  /** Every block the scheduler owns, released in the order of `core_sched_unload`. */
  function FreeEverything(s: Sched): (r: Heap)
    requires SchedInv(s)
    ensures Owned(r, s.handed)
  {
    hide Owned, Blocks, Opt, Waiting, Pooled, Debts, StorageOk, SlotOk;
    ghost var slot := s.handed + Opt(SnapBlock(s.faultVars)) + Opt(NodeBlock(s.faultThread));
    assert Blocks(s.host.ready) + Blocks(s.host.free) + Held(s.host.current) + (Outside(s) + multiset{})
        == slot + Blocks(s.host.free) + Blocks(s.host.ready) + Opt(s.varsBlock) + Opt(s.codeBlock);
    var h1 := FreeOpt(s.host.heap, s.codeBlock, slot + Blocks(s.host.free) + Blocks(s.host.ready) + Opt(s.varsBlock));
    var h2 := FreeOpt(h1, s.varsBlock, slot + Blocks(s.host.free) + Blocks(s.host.ready));
    var h3 := FreeAll(h2, s.host.ready, slot + Blocks(s.host.free));
    var h4 := FreeAll(h3, s.host.free, slot);
    var h5 := FreeOpt(h4, NodeBlock(s.faultThread), s.handed + Opt(SnapBlock(s.faultVars)));
    FreeOpt(h5, SnapBlock(s.faultVars), s.handed)
  }

  /** `core_sched_unload`, apart from the releases it sends to the keyboard and mouse. */
  function Unload(s: Sched): (r: Sched)
    requires SchedInv(s)
    ensures SchedInv(r) && !Loaded(r) && Idle(r)
    ensures multiset(r.host.heap.live) == s.handed == r.handed
    ensures r.executed == s.executed && r.sweeps == [] && r.budget == 0 && r.arrivals == s.arrivals
    ensures r.armed == s.armed + [0]
  {
    var heap := FreeEverything(s);
    var r := Cleared(s, heap);
    ClearedInv(s, heap);
    r
  }

  function Cleared(s: Sched, heap: Heap): Sched {
    s.(host := s.host.(heap := heap, ready := [], free := [], count := 0, nextId := 0, current := None,
                       events := [], log := s.host.log + [Unloaded]),
       codeBlock := None, code := [], varsBlock := None, vars := [], varCount := 0,
       budget := 0, schedTime := 0, running := false, pending := None,
       faultThread := None, faultVars := None, faultStatus := Running, faultTotal := 0,
       armed := s.armed + [0], sweeps := [], signals := 0, takes := 0)
  }

  /** No pass in flight and nothing left to do for one. */
  predicate Idle(s: Sched) {
    !s.running && s.pending == None && s.host.events == []
  }

  lemma ClearedInv(s: Sched, heap: Heap)
    requires SchedInv(s) && Owned(heap, s.handed)
    ensures SchedInv(Cleared(s, heap))
  {
    hide Faithful, Owned;
    var r := Cleared(s, heap);
    FaithfulSnoc(s.host.log, Unloaded);
    assert Blocks([]) + Blocks([]) + Held(None) + (Outside(r) + multiset{}) == s.handed;
  }

  // ---- load ------------------------------------------------------------------------

  /** Everything a load writes once both allocations succeeded. */
  function Installed(s: Sched, code: seq<u32>, codeBlock: nat, varCount: nat, varsBlock: nat, now: u64): Sched {
    s.(codeBlock := Some(codeBlock), code := code, varsBlock := Some(varsBlock), varCount := varCount,
       vars := seq(varCount, _ => 0) + Junk(s.host.heap, varsBlock, LOCALS),
       host := s.host.(loadTime := now), schedTime := now, budget := BUDGET)
  }

  lemma InstalledInv(s: Sched, code: seq<u32>, codeBlock: nat, varCount: nat, varsBlock: nat, now: u64)
    requires Between(s, multiset{codeBlock, varsBlock}) && !Loaded(s) && SlotOk(s) && s.faultVars == None
    requires code != [] && varCount > 0
    ensures SchedInv(Installed(s, code, codeBlock, varCount, varsBlock, now))
    ensures Loaded(Installed(s, code, codeBlock, varCount, varsBlock, now))
  {
    var r := Installed(s, code, codeBlock, varCount, varsBlock, now);
    assert Outside(r) + multiset{} == Outside(s) + multiset{codeBlock, varsBlock};
    hide Owned, Waiting, Pooled, Debts, Blocks, Outside;
  }

  lemma UnloadedSlot(s: Sched)
    requires SchedInv(s) && !Loaded(s)
    ensures s.faultVars == None
  {
  }

  datatype LoadResult = LoadResult(sched: Sched, ok: bool)

  /** The two allocations of a load; a failure of either leaves nothing allocated. */
  function Allocate(s: Sched, code: seq<u32>, varCount: nat, now: u64): (r: LoadResult)
    requires SchedInv(s) && !Loaded(s) && Idle(s) && code != [] && varCount > 0 && s.faultVars == None
    ensures SchedInv(r.sched) && Idle(r.sched) && r.ok == Loaded(r.sched)
    ensures !r.ok ==> multiset(r.sched.host.heap.live) == s.handed == r.sched.handed
    ensures r.ok ==> r.sched.schedTime == now && r.sched.host.ready == []
    ensures r.sched.handed == s.handed && r.sched.sweeps == s.sweeps && r.sched.budget <= BUDGET
  {
    var (s1, c) := Grab(s, multiset{});
    assert multiset{} + Opt(c) == Opt(c);
    match c
    case None =>
      NothingHeld(s1);
      LoadResult(s1, false)
    case Some(codeBlock) =>
      var (s2, v) := Grab(s1, Opt(c));
      match v
      case None =>
        assert Opt(c) + Opt(v) == multiset{} + Opt(c);
        var s3 := Drop(s2, multiset{}, c);
        NothingHeld(s3);
        LoadResult(s3, false)
      case Some(varsBlock) =>
        assert Opt(c) + Opt(v) == multiset{codeBlock, varsBlock};
        InstalledInv(s2, code, codeBlock, varCount, varsBlock, now);
        LoadResult(Installed(s2, code, codeBlock, varCount, varsBlock, now), true)
  }

  /** With no script loaded only the client holds memory. */
  lemma NothingHeld(s: Sched)
    requires SchedInv(s) && !Loaded(s)
    ensures multiset(s.host.heap.live) == s.handed
  {
    hide Debts, Waiting, Pooled;
    assert Blocks([]) == multiset{};
    assert Outside(s) + multiset{} == s.handed;
    assert Blocks(s.host.ready) + Blocks(s.host.free) + Held(s.host.current) + (Outside(s) + multiset{}) == s.handed;
  }

  /** Thread 0 at program counter 0, due at once. */
  function FirstThread(s: Sched, now: u64): (r: LoadResult)
    requires SchedInv(s) && Loaded(s) && Idle(s)
    ensures SchedInv(r.sched) && Idle(r.sched) && r.ok == Loaded(r.sched)
    ensures !r.ok ==> multiset(r.sched.host.heap.live) == s.handed == r.sched.handed
    ensures r.sched.budget <= BUDGET && (r.sched.sweeps == s.sweeps || r.sched.sweeps == [])
  {
    var (host, node) := ThreadAlloc(s.host, 0);
    SpawnKeeps(s, 0);
    var s1 := s.(host := host);
    match node
    case None => LoadResult(Unload(s1), false)
    case Some(t) => LoadResult(Requeue(s1, Armed(t, 0, [], now), Start(t, 0, [])), true)
  }

  /** `core_sched_load`: tear down, and load unless a count is not positive or an allocation fails. */
  function Load(s: Sched, code: seq<u32>, varCount: int, now: u64): (r: LoadResult)
    requires SchedInv(s)
    ensures SchedInv(r.sched) && Idle(r.sched) && r.ok == Loaded(r.sched)
    ensures r.ok ==> Settled(r.sched)
    ensures !r.ok ==> multiset(r.sched.host.heap.live) == s.handed == r.sched.handed
  {
    hide SchedInv, Unload, Allocate, FirstThread, SchedRun.Run, NothingDue;
    var s1 := Unload(s);
    UnloadedSlot(s1);
    if code == [] || varCount <= 0 then LoadResult(s1, false)
    else
      var a := Allocate(s1, code, varCount, now);
      if !a.ok then a
      else
        var f := FirstThread(a.sched, now);
        if !f.ok then f else LoadResult(SchedRun.Run(f.sched, now), true)
  }
}

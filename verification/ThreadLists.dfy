/**
  The ready list and the node pool side by side, as the scheduler holds them: two
  circles of linked nodes with no node in common, the running thread's node on
  neither, and the thread count. Every operation that moves a node between them does
  to the nodes what the specification does to the host's sequences.
*/
module ThreadLists {
  import opened Words
  import opened Script
  import opened SchedState
  import opened SchedInvariant
  import opened ThreadRing
  import SchedLoad
  import SchedNative

  lemma Members<T>(a: seq<T>, b: seq<T>, x: T)
    requires multiset(a) == multiset(b) + multiset{x}
    ensures forall y :: y in a <==> y in b || y == x
  {
    forall y
      ensures y in a <==> y in b || y == x
    {
      assert y in a <==> y in multiset(a);
      assert y in b <==> y in multiset(b);
    }
  }

  class Lists {
    const ready: Ring
    const pool: Ring
    var current: Node?
    var count: int
    var nextId: nat
    var stamp: nat

    // The allocator the nodes come from, and whatever else the host holds.
    var heap: Heap
    ghost var others: Host

    /** Two circles apart, and the running node on neither. */
    ghost predicate Valid()
      reads this, ready, pool, ready.head, pool.head, ready.nodes, pool.nodes
    {
      && ready.Valid() && pool.Valid() && ready != pool
      && ready.head != pool.head && ready.head !in pool.nodes && pool.head !in ready.nodes
      && (forall n :: n in ready.nodes ==> n !in pool.nodes)
      && (current != null ==> Off(current))
    }

    /** A node on neither circle. */
    ghost predicate Off(t: Node)
      reads this, ready, pool
    {
      t != ready.head && t != pool.head && t !in ready.nodes && t !in pool.nodes
    }

    ghost predicate Loose(t: Node)
      reads this, ready, pool
    {
      Off(t) && t != current
    }

    /** The host these lists stand for. */
    ghost function View(): Host
      reads this, ready, pool, ready.nodes, pool.nodes, current
    {
      others.(heap := heap, ready := Items(ready.nodes), free := Items(pool.nodes), count := count, nextId := nextId,
              current := if current == null then None else Some(current.item), stamp := stamp)
    }

    /** Both circles empty, nothing running. */
    constructor (heap: Heap, sentinel: Thread, ghost others: Host)
      ensures Valid() && fresh(ready) && fresh(pool) && fresh(ready.head) && fresh(pool.head)
      ensures View() == others.(heap := heap, ready := [], free := [], count := 0, nextId := 0, current := None,
                                stamp := 0)
    {
      ready := new Ring(sentinel);
      pool := new Ring(sentinel);
      current, count, nextId, stamp := null, 0, 0, 0;
      this.heap, this.others := heap, others;
    }

    /** `core_sched_queue`. */
    method Queue(t: Node)
      requires Valid() && Loose(t)
      modifies this`count, this`stamp, ready`nodes, ready.head, ready.nodes, t
      ensures Valid() && View() == SchedState.Queue(old(View()), old(t.item))
      ensures pool.nodes == old(pool.nodes) && t in ready.nodes
    {
      hide Linked, Items, InsertAt, Position;
      ready.Enqueue(View(), t, stamp);
      Members(ready.nodes, old(ready.nodes), t);
      assert pool.nodes == old(pool.nodes);
      assert forall n :: n in pool.nodes ==> n !in old(ready.nodes) && n != t && n != ready.head;
      forall i | 0 <= i < |pool.nodes|
        ensures unchanged(pool.nodes[i])
      {
        assert pool.nodes[i] in pool.nodes;
      }
      assert Items(pool.nodes) == old(Items(pool.nodes));
      assert pool.Valid();
      assert current != null ==> current.item == old(current.item);
      assert View().current == old(View().current);
      count := count + 1;
      stamp := stamp + 1;
    }

    /** `thread_release`: to the head of the pool. */
    method Release(t: Node)
      requires Valid() && Loose(t)
      modifies pool`nodes, pool.head, pool.nodes, t
      ensures Valid() && View() == ThreadRelease(old(View()), old(t.item))
      ensures ready.nodes == old(ready.nodes) && pool.nodes == [t] + old(pool.nodes)
    {
      hide Linked, Items;
      pool.PushFront(t);
      forall i | 0 <= i < |ready.nodes|
        ensures unchanged(ready.nodes[i])
      {
        assert ready.nodes[i] in ready.nodes;
      }
      assert ready.Valid() && Items(ready.nodes) == old(Items(ready.nodes));
      assert current != null ==> current.item == old(current.item);
      assert pool.nodes[1..] == old(pool.nodes);
    }

    /** Unlink a waiting thread. */
    method TakeOut(t: Node, ghost k: nat)
      requires Valid() && k < |ready.nodes| && ready.nodes[k] == t
      modifies this`count, ready`nodes, ready.head, ready.nodes
      ensures Valid() && Loose(t) && View() == TakeAt(old(View()), k) && t.item == old(t.item)
      ensures t.item == old(Items(ready.nodes))[k] && pool.nodes == old(pool.nodes)
      ensures forall n :: n in old(ready.nodes) <==> n in ready.nodes || n == t
    {
      hide Linked, Items, RemoveAt;
      ItemAt(ready.nodes, k);
      ready.Remove(t, k);
      Members(old(ready.nodes), ready.nodes, t);
      count := count - 1;
      forall i | 0 <= i < |pool.nodes|
        ensures unchanged(pool.nodes[i])
      {
        assert pool.nodes[i] in pool.nodes;
      }
      assert pool.Valid() && Items(pool.nodes) == old(Items(pool.nodes));
      assert current != null ==> current.item == old(current.item);
    }

    /** The dispatch loop's unlinking of the first thread. */
    method TakeFirst() returns (t: Node)
      requires Valid() && ready.nodes != []
      modifies this`count, ready`nodes, ready.head, ready.nodes
      ensures Valid() && Loose(t) && t.item == old(View()).ready[0] && View() == TakeAt(old(View()), 0)
    {
      hide Linked, Items;
      Neighbours(ready.head, ready.nodes, 0);
      t := ready.head.flink;
      TakeOut(t, 0);
    }

    /** The node in hand becomes the running thread's. */
    method Board(t: Node)
      requires Valid() && Loose(t) && current == null
      modifies this`current
      ensures Valid() && current == t && View() == old(View()).(current := Some(t.item))
    {
      current := t;
    }

    /** The running thread's node comes back into the scheduler's hands. */
    method Leave() returns (t: Node)
      requires Valid() && current != null
      modifies this`current
      ensures Valid() && Loose(t) && t == old(current) && View() == old(View()).(current := None)
    {
      t := current;
      current := null;
    }

    /** A thread that exits: its node leaves the processor for the head of the pool. */
    method Exit()
      requires Valid() && current != null
      modifies this`current, current, pool`nodes, pool.head, pool.nodes
      ensures Valid() && View() == ThreadRelease(old(View()).(current := None), old(View()).current.value)
      ensures pool.nodes == [old(current)] + old(pool.nodes) && ready.nodes == old(ready.nodes)
    {
      hide Linked, Items;
      var t := Leave();
      Release(t);
    }

    /** `free_list` of both lists: every node is unlinked and its block released, waiting ones first. */
    method FreeLists(ghost rest: multiset<nat>)
      requires Valid() && Owned(heap, rest + Blocks(View().free) + Blocks(View().ready))
      modifies this`heap, ready`nodes, pool`nodes, ready.head, pool.head, ready.nodes, pool.nodes
      ensures Valid() && Owned(heap, rest)
      ensures var h := old(View());
              var heap1 := SchedLoad.FreeAll(h.heap, h.ready, rest + Blocks(h.free));
              View() == h.(ready := [], free := [], heap := SchedLoad.FreeAll(heap1, h.free, rest))
    {
      hide Linked, Items, Owned, Blocks, SchedLoad.FreeAll;
      FreeReady(rest + Blocks(View().free));
      FreePool(rest);
    }

    /** Unlink the first waiting thread without counting it off. */
    method PopReady() returns (t: Node)
      requires Valid() && ready.nodes != []
      modifies ready`nodes, ready.head, ready.nodes
      ensures Valid() && Loose(t) && t.item == old(View()).ready[0]
      ensures View() == old(View()).(ready := old(View()).ready[1..])
      ensures pool.nodes == old(pool.nodes) && ready.nodes == old(ready.nodes)[1..]
    {
      hide Linked, Items;
      t := ready.PopFront();
      assert old(ready.nodes) == [t] + ready.nodes;
      forall i | 0 <= i < |pool.nodes|
        ensures unchanged(pool.nodes[i])
      {
        assert pool.nodes[i] in pool.nodes;
      }
      assert pool.Valid() && Items(pool.nodes) == old(Items(pool.nodes));
      assert current != null ==> current.item == old(current.item);
    }

    /** Unlink the first waiting thread and release its block. */
    method FreeFirstReady(ghost rest: multiset<nat>)
      requires Valid() && ready.nodes != [] && Owned(heap, rest + Blocks(View().ready))
      modifies this`heap, ready`nodes, ready.head, ready.nodes
      ensures Valid() && Owned(heap, rest + Blocks(View().ready))
      ensures ready.nodes == old(ready.nodes)[1..] && pool.nodes == old(pool.nodes)
      ensures View() == old(View()).(ready := View().ready, heap := heap)
      ensures SchedLoad.FreeAll(heap, View().ready, rest) == SchedLoad.FreeAll(old(heap), old(View()).ready, rest)
    {
      hide Linked, Items, Owned, Blocks, Free;
      SchedLoad.HeadIsLive(heap, View().ready, rest);
      var t := PopReady();
      heap := Free(heap, t.item.block);
    }

    method FreeReady(ghost rest: multiset<nat>)
      requires Valid() && Owned(heap, rest + Blocks(View().ready))
      modifies this`heap, ready`nodes, ready.head, ready.nodes
      ensures Valid() && Owned(heap, rest) && pool.nodes == old(pool.nodes)
      ensures View() == old(View()).(ready := [], heap := SchedLoad.FreeAll(old(heap), old(View()).ready, rest))
    {
      hide Linked, Items, Owned, Blocks, Free, Valid, SchedLoad.FreeAll;
      ghost var h := View();
      ghost var done := 0;
      var empty := NoneReady();
      while !empty
        invariant Valid() && (empty <==> ready.nodes == []) && pool.nodes == old(pool.nodes)
        invariant done <= |old(ready.nodes)| && ready.nodes == old(ready.nodes)[done..]
        invariant Owned(heap, rest + Blocks(View().ready)) && View() == h.(ready := View().ready, heap := heap)
        invariant SchedLoad.FreeAll(heap, View().ready, rest) == SchedLoad.FreeAll(h.heap, h.ready, rest)
        decreases |ready.nodes|
      {
        FreeFirstReady(rest);
        done := done + 1;
        empty := NoneReady();
      }
      assert Items(ready.nodes) == [];
      NothingToFree(heap, rest);
    }

    method NoneReady() returns (empty: bool)
      requires Valid()
      ensures empty <==> ready.nodes == []
    {
      empty := ready.IsEmpty();
    }

    /** Unlink the pool's first node and release its block. */
    method FreeFirstPooled(ghost rest: multiset<nat>)
      requires Valid() && pool.nodes != [] && Owned(heap, rest + Blocks(View().free))
      modifies this`heap, pool`nodes, pool.head, pool.nodes
      ensures Valid() && Owned(heap, rest + Blocks(View().free)) && pool.nodes == old(pool.nodes)[1..]
      ensures View() == old(View()).(free := View().free, heap := heap)
      ensures SchedLoad.FreeAll(heap, View().free, rest) == SchedLoad.FreeAll(old(heap), old(View()).free, rest)
    {
      hide Linked, Items, Owned, Blocks, Free;
      SchedLoad.HeadIsLive(heap, View().free, rest);
      var t := TakePooled();
      heap := Free(heap, t.item.block);
    }

    method FreePool(ghost rest: multiset<nat>)
      requires Valid() && Owned(heap, rest + Blocks(View().free))
      modifies this`heap, pool`nodes, pool.head, pool.nodes
      ensures Valid() && Owned(heap, rest)
      ensures View() == old(View()).(free := [], heap := SchedLoad.FreeAll(old(heap), old(View()).free, rest))
    {
      hide Linked, Items, Owned, Blocks, Free, Valid, SchedLoad.FreeAll;
      ghost var h := View();
      ghost var done := 0;
      var empty := NonePooled();
      while !empty
        invariant Valid() && (empty <==> pool.nodes == [])
        invariant done <= |old(pool.nodes)| && pool.nodes == old(pool.nodes)[done..]
        invariant Owned(heap, rest + Blocks(View().free)) && View() == h.(free := View().free, heap := heap)
        invariant SchedLoad.FreeAll(heap, View().free, rest) == SchedLoad.FreeAll(h.heap, h.free, rest)
        decreases |pool.nodes|
      {
        FreeFirstPooled(rest);
        done := done + 1;
        empty := NonePooled();
      }
      assert Items(pool.nodes) == [];
      NothingToFree(heap, rest);
    }

    method NonePooled() returns (empty: bool)
      requires Valid()
      ensures empty <==> pool.nodes == []
    {
      empty := pool.IsEmpty();
    }

    /** `_kill` of another thread: from the ready list to the head of the pool. */
    method Kill(id: nat)
      requires Valid()
      modifies this, ready`nodes, pool`nodes, ready.head, pool.head, ready.nodes, pool.nodes
      ensures Valid() && View() == SchedNative.Kill(old(View()), id)
    {
      hide Linked, Items, FindThread;
      var t := ready.Find(id);
      if t == null { return; }
      TakeOut(t, FindThread(Items(ready.nodes), id));
      others := Log(others, Killed(id));
      Release(t);
    }

    /** `_wake`: requeue another thread for this wake time, its accumulator cleared. */
    method Wake(id: nat, wake: u64)
      requires Valid()
      modifies this, ready`nodes, ready.head, ready.nodes
      ensures Valid() && View() == SchedNative.Wake(old(View()), id, wake)
    {
      hide Linked, Items, FindThread, Position, InsertAt, RemoveAt;
      var t := ready.Find(id);
      if t == null { return; }
      assert t in ready.nodes;
      TakeOut(t, FindThread(Items(ready.nodes), id));
      others := Log(others, Woken(id));
      forall i | 0 <= i < |ready.nodes|
        ensures ready.nodes[i] in old(ready.nodes)
      {
        assert ready.nodes[i] in ready.nodes;
      }
      Reschedule(t, wake);
    }

    /** Queue a loose node for another wake time. */
    method Reschedule(t: Node, wake: u64)
      requires Valid() && Loose(t)
      modifies this`count, this`stamp, ready`nodes, ready.head, ready.nodes, t
      ensures Valid() && View() == SchedState.Queue(old(View()), old(t.item).(wake := wake, acc := 0))
    {
      SetItem(t, t.item.(wake := wake, acc := 0));
      Queue(t);
    }

    /** Write a loose node: no list and no running thread notices. */
    method SetItem(t: Node, item: Thread)
      requires Valid() && Loose(t)
      modifies t`item
      ensures Valid() && Loose(t) && View() == old(View()) && t.item == item
    {
      hide Linked, Items;
      t.item := item;
      assert Items(ready.nodes) == old(Items(ready.nodes)) && Items(pool.nodes) == old(Items(pool.nodes));
    }

    /** Take the pool's first node. */
    method TakePooled() returns (t: Node)
      requires Valid() && pool.nodes != []
      modifies pool`nodes, pool.head, pool.nodes
      ensures Valid() && Loose(t) && t in old(pool.nodes) && t.item == old(View()).free[0]
      ensures View() == old(View()).(free := old(View()).free[1..])
      ensures ready.nodes == old(ready.nodes) && pool.nodes == old(pool.nodes)[1..] && t == old(pool.nodes)[0]
    {
      hide Linked, Items;
      t := pool.PopFront();
      assert old(pool.nodes) == [t] + pool.nodes;
      forall i | 0 <= i < |ready.nodes|
        ensures unchanged(ready.nodes[i])
      {
        assert ready.nodes[i] in ready.nodes;
      }
      assert ready.Valid() && Items(ready.nodes) == old(Items(ready.nodes));
      assert current != null ==> current.item == old(current.item);
    }

    /** The pool's head if it is big enough; one that is not goes back. */
    method Reuse(size: nat) returns (t: Node?)
      requires Valid()
      modifies pool`nodes, pool.head, pool.nodes
      ensures Valid()
      ensures var h := old(View());
              if h.free != [] && |h.free[0].stack| >= size then
                && t != null && Loose(t) && t in old(pool.nodes) && t.item == h.free[0]
                && View() == h.(free := h.free[1..])
              else t == null && View() == h
    {
      hide Linked, Items;
      t := null;
      var empty := pool.IsEmpty();
      if !empty {
        t := TakePooled();
        if |t.item.stack| < size {
          Release(t);
          assert View().free == old(View()).free;
          t := null;
        }
      }
    }

    /** A node fresh from the allocator. */
    method Fresh(size: nat) returns (t: Node?)
      requires Valid()
      modifies this`heap
      ensures var (heap1, b) := Alloc(old(heap));
              && Valid() && View() == old(View()).(heap := heap1) && (t == null <==> b == None)
              && (t != null ==>
                    fresh(t) && Loose(t) && t.item == Thread(b.value, 0, 0, 0, 0, 0, Junk(heap1, b.value, size), 0))
    {
      hide Linked, Items, Junk;
      var (heap1, b) := Alloc(heap);
      heap := heap1;
      t := null;
      if b.Some? {
        t := new Node(Thread(b.value, 0, 0, 0, 0, 0, Junk(heap1, b.value, size), 0));
      }
      assert View() == old(View()).(heap := heap1);
    }

    /** `core_sched_thread_alloc`: from the pool if its head is big enough, otherwise fresh. */
    method NewThread(stackSize: int) returns (t: Node?)
      requires Valid()
      modifies this`heap, this`nextId, pool`nodes, pool.head, pool.nodes
      ensures Valid() && (t != null ==> Loose(t) && (fresh(t) || t in old(pool.nodes)))
      ensures (View(), if t == null then None else Some(t.item)) == ThreadAlloc(old(View()), stackSize)
    {
      hide Linked, Items, Junk, Alloc;
      var size := if stackSize < MIN_STACK then MIN_STACK else if stackSize > LOCALS then LOCALS else stackSize;
      assert size == Clamp(stackSize, MIN_STACK, LOCALS);
      t := Reuse(size);
      if t == null {
        t := Fresh(size);
        if t == null { return; }
      }
      Rename(t);
    }

    /** A node gets the next id and empty registers. */
    method Rename(t: Node)
      requires Valid() && Loose(t)
      modifies this`nextId, t`item
      ensures Valid() && Loose(t) && View() == old(View()).(nextId := old(nextId) + 1)
      ensures t.item == old(t.item).(id := old(nextId) + 1, pc := 0, acc := 0, depth := 0, wake := 0)
    {
      nextId := nextId + 1;
      SetItem(t, t.item.(id := nextId, pc := 0, acc := 0, depth := 0, wake := 0));
    }

    /** Copy the live words of the parent's stack into the child's. */
    method CopyLive(core: Core, varCount: nat, stack: seq<u32>, depth: nat) returns (r: seq<u32>)
      requires varCount + depth <= |core.vars|
      ensures var live := LiveWords(core, varCount, depth, |stack|); r == live + stack[|live|..]
    {
      r := stack;
      var n := if depth < |stack| then depth else |stack|;
      for i := 0 to n
        invariant |r| == |stack|
        invariant forall k :: 0 <= k < i ==> r[k] == core.vars[varCount + k]
        invariant forall k :: i <= k < |r| ==> r[k] == stack[k]
      {
        r := r[i := core.vars[varCount + i]];
      }
      ghost var live := LiveWords(core, varCount, depth, |stack|);
      assert live == core.vars[varCount..varCount + n];
      assert r == live + stack[n..];
    }

    /** Make a node the running thread's child and queue it. */
    method Launch(child: Node, core: Core, varCount: nat, depth: nat)
      requires Valid() && current != null && Loose(child)
      requires depth == Max(core.sp, 0) && varCount + depth <= |core.vars|
      modifies this, current, ready`nodes, ready.head, ready.nodes, child
      ensures Valid() && View() == SchedNative.ForkInto(old(View()), core, varCount, old(child.item))
    {
      hide Linked, Items, Position, InsertAt, SchedState.Queue;
      var stack := CopyLive(core, varCount, child.item.stack, depth);
      SetItem(child, child.item.(pc := core.pc, depth := depth, wake := current.item.wake, stack := stack));
      SetDepth(depth);
      ghost var born := Context(core.pc, 0, depth, SchedNative.LiveStack(core, varCount, depth));
      others := Log(others, Born(child.item.id, born));
      Queue(child);
    }

    /** `native_fork`: a child at the parent's place, in a node from the pool or the allocator. */
    method Fork(core: Core, varCount: nat) returns (acc: u32)
      requires Valid() && current != null && varCount + Max(core.sp, 0) <= |core.vars|
      modifies this, current, ready`nodes, pool`nodes, ready.head, pool.head, ready.nodes, pool.nodes
      ensures Valid()
      ensures var f := SchedNative.Fork(old(View()), core, varCount); View() == f.env && acc == f.acc
    {
      hide Linked, Items, ThreadAlloc, SchedNative.ForkInto;
      var depth := if core.sp < 0 then 0 else core.sp;
      acc := 0xFFFF_FFFF;
      if count > MAX_THREADS - 1 { return; }
      var child := NewThread(depth);
      if child == null { return; }
      acc := Wrap(child.item.id);
      Launch(child, core, varCount, depth);
    }

    /** `core_sched_native`, the builtins that touch the lists or the running node. */
    method ThreadNative(core: Core, varCount: nat, id: u32) returns (status: Status, acc: u32)
      requires Valid() && current != null && varCount + Max(core.sp, 0) <= |core.vars|
      requires id in [SchedNative.FN_SLEEP, SchedNative.FN_WAKE, SchedNative.FN_KILL, SchedNative.FN_FORK]
      modifies this, current, ready`nodes, pool`nodes, ready.head, pool.head, ready.nodes, pool.nodes
      ensures Valid()
      ensures NativeResult(View(), acc, status) == SchedNative.Native(old(View()), core, varCount, id)
    {
      hide Linked, Items, SchedNative.Fork, SchedNative.Wake, SchedNative.Kill, SchedNative.SleepUntil;
      var a1 := SchedNative.NativeArg(core, varCount, 1);
      status, acc := Running, core.acc;
      if id == SchedNative.FN_SLEEP {
        SetWake(SchedNative.SleepUntil(current.item.wake, a1));
        status, acc := Sleeping, 1;
      } else if id == SchedNative.FN_WAKE {
        Wake(a1, current.item.wake);
      } else if id == SchedNative.FN_KILL {
        if current.item.id == a1 {
          status := Terminated;
        } else {
          Kill(a1);
        }
      } else {
        ForkRuns(View(), core, varCount);
        acc := Fork(core, varCount);
      }
    }

    /** Write the running thread's wake time. */
    method SetWake(wake: u64)
      requires Valid() && current != null
      modifies current`item
      ensures Valid() && View() == old(View()).(current := Some(old(View()).current.value.(wake := wake)))
    {
      hide Linked, Items;
      current.item := current.item.(wake := wake);
      assert Items(ready.nodes) == old(Items(ready.nodes)) && Items(pool.nodes) == old(Items(pool.nodes));
    }

    /** Write the running thread's saved depth. */
    method SetDepth(depth: nat)
      requires Valid() && current != null
      modifies current`item
      ensures Valid() && View() == old(View()).(current := Some(old(View()).current.value.(depth := depth)))
    {
      hide Linked, Items;
      current.item := current.item.(depth := depth);
      assert Items(ready.nodes) == old(Items(ready.nodes)) && Items(pool.nodes) == old(Items(pool.nodes));
    }
  }

  lemma ForkRuns(h: Host, core: Core, varCount: nat)
    requires h.current.Some?
    ensures SchedNative.Fork(h, core, varCount).status == Status.Running
  {
  }

  lemma NothingToFree(heap: Heap, rest: multiset<nat>)
    requires Owned(heap, rest + Blocks([]))
    ensures Owned(heap, rest) && SchedLoad.FreeAll(heap, [], rest) == heap
  {
    assert rest + Blocks([]) == rest;
  }

  function LiveWords(core: Core, varCount: nat, depth: nat, room: nat): (live: seq<u32>)
    requires varCount + depth <= |core.vars|
    ensures |live| <= room
  {
    SchedNative.LiveStack(core, varCount, Min(depth, room))
  }
}

/** Which threads a controller packet adds to the ready list, and where they stand in it. */
module SchedInput {
  import opened Words
  import opened Script
  import opened SchedState
  import opened SchedInvariant
  import opened SchedPass
  import opened SchedRun

  /** This thread was queued for that handler: its entry point, its time and its arguments. */
  ghost predicate Carries(t: Thread, h: Handler, s: Sched, now: u64)
    requires Loaded(s) && |s.vars| == s.varCount + LOCALS
  {
    && Bound(s, h.slot) && t.pc == TagValue(s.vars[h.slot])
    && t.wake == now && t.acc == 0 && t.depth == 0 && h.args <= t.stack
  }

  /** The threads stand for a subsequence of the handlers, in the same order. */
  ghost predicate InOrder(ts: seq<Thread>, hs: seq<Handler>, s: Sched, now: u64)
    requires Loaded(s) && |s.vars| == s.varCount + LOCALS
  {
    if hs == [] then ts == []
    else
      || (ts != [] && Carries(ts[0], hs[0], s, now) && InOrder(ts[1..], hs[1..], s, now))
      || InOrder(ts, hs[1..], s, now)
  }

  ghost function BoundOnly(hs: seq<Handler>, s: Sched): seq<Handler>
    requires Loaded(s) && |s.vars| == s.varCount + LOCALS
  {
    if hs == [] then []
    else (if Bound(s, hs[0].slot) then [hs[0]] else []) + BoundOnly(hs[1..], s)
  }

  /** The heap grants the next `n` requests. */
  ghost predicate Grants(h: Heap, n: nat) {
    n <= |h.grants| && forall i :: 0 <= i < n ==> h.grants[i]
  }

  /** The threads a list of handlers adds, as they stand in the ready list. */
  ghost function Added(s: Sched, hs: seq<Handler>, now: u64): seq<Thread>
    requires SchedInv(s) && Loaded(s)
    decreases |hs|
  {
    if hs == [] then []
    else
      var t := Candidate(s, hs[0], now);
      (if t.Some? then [t.value] else []) + Added(Spawn(s, hs[0], now), hs[1..], now)
  }

  /** The node queued for one handler, if it is bound and a node was to be had. */
  ghost function Candidate(s: Sched, h: Handler, now: u64): Option<Thread>
    requires SchedInv(s) && Loaded(s)
  {
    if !Bound(s, h.slot) then None
    else
      var (host, node) := ThreadAlloc(s.host, |h.args|);
      match node
      case None => None
      case Some(t) => Some(Armed(t, TagValue(s.vars[h.slot]), h.args, now).(stamp := s.host.stamp))
  }

  lemma SpawnQueues(s: Sched, h: Handler, now: u64)
    requires SchedInv(s) && Loaded(s)
    ensures var t := Candidate(s, h, now);
            var r := Spawn(s, h, now);
            && (t.None? ==> r.host.ready == s.host.ready)
            && (t.Some? ==> r.host.ready == InsertAt(s.host.ready, Position(s.host.ready, now), t.value))
            && (t.Some? ==> Carries(t.value, h, s, now))
            && (Grants(s.host.heap, 1) && Bound(s, h.slot) ==> t.Some?)
  {
    hide HandInv, HostInv, InsertAt, Position, Junk;
  }

  lemma SpawnGrants(s: Sched, h: Handler, now: u64, n: nat)
    requires SchedInv(s) && Loaded(s) && Grants(s.host.heap, n + 1)
    ensures Grants(Spawn(s, h, now).host.heap, n)
  {
    hide HandInv, HostInv, ThreadAlloc, SchedInv, InsertAt, Position;
    VarsFit(s);
    if Bound(s, h.slot) {
      AllocGrants(s.host, |h.args|, n);
    }
  }

  lemma AllocGrants(h: Host, stackSize: int, n: nat)
    requires Grants(h.heap, n + 1)
    ensures Grants(ThreadAlloc(h, stackSize).0.heap, n)
  {
    hide Junk, Clamp;
  }

  /** Inserting at one time, the newcomer stands right behind everything already due by then. */
  lemma PositionAfter(ready: seq<Thread>, t: Thread)
    ensures var k := Position(ready, t.wake);
            Position(InsertAt(ready, k, t), t.wake) == k + 1
              && InsertAt(ready, k, t)[..k + 1] == ready[..k] + [t]
              && InsertAt(ready, k, t)[k + 1..] == ready[k..]
  {
    if ready != [] && t.wake >= ready[0].wake {
      PositionAfter(ready[1..], t);
      assert InsertAt(ready, Position(ready, t.wake), t)[1..]
          == InsertAt(ready[1..], Position(ready[1..], t.wake), t);
    } else {
      assert InsertAt(ready, 0, t) == [t] + ready;
    }
  }

  /** The block of new threads goes, in order, between those due by `now` and those due later. */
  lemma {:induction false} SpawnAllQueues(s: Sched, hs: seq<Handler>, now: u64)
    requires SchedInv(s) && Loaded(s)
    ensures var k := Position(s.host.ready, now);
            SpawnAll(s, hs, now).host.ready
              == s.host.ready[..k] + Added(s, hs, now) + s.host.ready[k..]
    decreases |hs|
  {
    hide HandInv, HostInv, Spawn, Candidate, Carries, Position, InsertAt, Bound;
    var ready := s.host.ready;
    var k := Position(ready, now);
    if hs == [] {
      assert ready[..k] + [] + ready[k..] == ready;
    } else {
      var t := Candidate(s, hs[0], now);
      var s1 := Spawn(s, hs[0], now);
      SpawnQueues(s, hs[0], now);
      SpawnAllQueues(s1, hs[1..], now);
      var rest := Added(s1, hs[1..], now);
      if t.Some? {
        CarriesNow(t.value, hs[0], s, now);
        PositionAfter(ready, t.value);
        assert ready[..k] + [t.value] + rest + ready[k..] == ready[..k] + ([t.value] + rest) + ready[k..];
      } else {
        assert [] + rest == rest;
      }
    }
  }

  lemma CarriesNow(t: Thread, h: Handler, s: Sched, now: u64)
    requires Loaded(s) && |s.vars| == s.varCount + LOCALS && Carries(t, h, s, now)
    ensures t.wake == now
  {
  }

  lemma {:induction false} SameStorage(ts: seq<Thread>, hs: seq<Handler>, s: Sched, r: Sched, now: u64)
    requires Loaded(s) && |s.vars| == s.varCount + LOCALS && SameButHost(r, s)
    ensures InOrder(ts, hs, r, now) == InOrder(ts, hs, s, now)
    ensures BoundOnly(hs, r) == BoundOnly(hs, s)
    decreases |hs|
  {
    if hs != [] {
      SameStorage(ts, hs[1..], s, r, now);
      if ts != [] {
        SameStorage(ts[1..], hs[1..], s, r, now);
      }
    }
  }

  /** A handler is dropped only when it is unbound or no node could be had for it. */
  lemma {:induction false} AddedInOrder(s: Sched, hs: seq<Handler>, now: u64)
    requires SchedInv(s) && Loaded(s)
    ensures InOrder(Added(s, hs, now), hs, s, now)
    decreases |hs|
  {
    hide HandInv, HostInv, Spawn, Carries, Candidate, Bound;
    if hs != [] {
      var s1 := Spawn(s, hs[0], now);
      SpawnQueues(s, hs[0], now);
      AddedInOrder(s1, hs[1..], now);
      var rest := Added(s1, hs[1..], now);
      SameStorage(rest, hs[1..], s, s1, now);
      var t := Candidate(s, hs[0], now);
      if t.Some? {
        assert ([t.value] + rest)[1..] == rest;
      } else {
        assert [] + rest == rest;
      }
    }
  }

  /** When the heap never refuses, every bound handler gets its thread. */
  lemma {:induction false} AddedAll(s: Sched, hs: seq<Handler>, now: u64)
    requires SchedInv(s) && Loaded(s) && Grants(s.host.heap, |hs|)
    ensures |Added(s, hs, now)| == |BoundOnly(hs, s)|
    decreases |hs|
  {
    hide HandInv, HostInv, Spawn, Carries, Candidate, Bound, Grants, SchedInv;
    VarsFit(s);
    if hs != [] {
      GrantsOne(s.host.heap, |hs|);
      SpawnGrants(s, hs[0], now, |hs| - 1);
      SpawnQueues(s, hs[0], now);
      UnboundIsSkipped(s, hs[0], now);
      var s1 := Spawn(s, hs[0], now);
      AddedAll(s1, hs[1..], now);
      SameStorage([], hs[1..], s, s1, now);
    }
  }

  lemma VarsFit(s: Sched)
    requires SchedInv(s) && Loaded(s)
    ensures |s.vars| == s.varCount + LOCALS
  {
    hide HandInv, HostInv;
  }

  lemma GrantsOne(h: Heap, n: nat)
    requires n > 0 && Grants(h, n)
    ensures Grants(h, 1)
  {
  }

  lemma UnboundIsSkipped(s: Sched, h: Handler, now: u64)
    requires SchedInv(s) && Loaded(s)
    ensures !Bound(s, h.slot) ==> Candidate(s, h, now).None?
  {
    hide HandInv, HostInv;
  }

  function ButtonHandler(cur: Packed, n: nat): Handler
    requires n < 16
  {
    Handler(n, [if Button(cur, n) then 1 else 0])
  }

  /** The slots of the changed buttons ascend. */
  lemma {:induction false} ChangedButtonsAscend(cur: Packed, prev: Packed, n: nat, i: nat, j: nat)
    requires n <= 16 && i <= j < |ButtonHandlers(cur, prev, n)|
    ensures var hs := ButtonHandlers(cur, prev, n);
            && n <= hs[i].slot <= hs[j].slot < 16
            && (i < j ==> hs[i].slot < hs[j].slot)
    decreases 16 - n
  {
    if n < 16 {
      if Button(cur, n) == Button(prev, n) {
        ChangedButtonsAscend(cur, prev, n + 1, i, j);
      } else {
        assert ButtonHandlers(cur, prev, n) == [ButtonHandler(cur, n)] + ButtonHandlers(cur, prev, n + 1);
        if j > 0 {
          ChangedButtonsAscend(cur, prev, n + 1, Max(i - 1, 0), j - 1);
        }
      }
    }
  }

  /** Exactly the changed buttons get a handler, each with the button's new state. */
  lemma {:induction false} ChangedButtonsHandled(cur: Packed, prev: Packed, n: nat, m: nat)
    requires n <= m < 16
    ensures ButtonHandler(cur, m) in ButtonHandlers(cur, prev, n) <==> Button(cur, m) != Button(prev, m)
    decreases m - n
  {
    var rest := ButtonHandlers(cur, prev, n + 1);
    if n < m {
      ChangedButtonsHandled(cur, prev, n + 1, m);
    } else if ButtonHandler(cur, m) in rest {
      var i :| 0 <= i < |rest| && rest[i] == ButtonHandler(cur, m);
      ChangedButtonsAscend(cur, prev, n + 1, i, i);
    }
    if Button(cur, n) != Button(prev, n) {
      assert ButtonHandlers(cur, prev, n) == [ButtonHandler(cur, n)] + rest;
      assert ([ButtonHandler(cur, n)] + rest)[0] == ButtonHandler(cur, n);
    }
  }

  /**
    A packet that changes something puts its handlers - pre, stick, buttons, each
    changed button ascending, post - behind every thread due by now and before
    every thread due later, skipping only unbound slots and failed allocations.
  */
  lemma PacketHandlersStandInOrder(s: Sched, raw: Raw, now: u64)
    requires SchedInv(s) && Fires(s, raw)
    ensures var hs := Handlers(Pack(raw), s.cur);
            var s1 := Advance(s, raw);
            var k := Position(s.host.ready, now);
            && SchedInv(s1)
            && var added := Added(s1, hs, now);
            && Input(s, raw, now).host.ready == s.host.ready[..k] + added + s.host.ready[k..]
            && InOrder(added, hs, s1, now)
            && (Grants(s.host.heap, |hs|) ==> |added| == |BoundOnly(hs, s1)|)
  {
    AdvanceKeeps(s, raw);
    var s1 := Advance(s, raw);
    SpawnAllQueues(s1, Handlers(s1.cur, s1.prev), now);
    AddedInOrder(s1, Handlers(s1.cur, s1.prev), now);
    if Grants(s.host.heap, |Handlers(s1.cur, s1.prev)|) {
      AddedAll(s1, Handlers(s1.cur, s1.prev), now);
    }
    hide SchedInv, Handlers, Added, InOrder, SpawnAll;
  }
}

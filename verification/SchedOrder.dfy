/** Which threads a sweep runs, and in which order: those due, the earliest first. */
module SchedOrder {
  import opened Words
  import opened Script
  import opened ScriptTheorems
  import opened SchedState
  import opened SchedNative
  import opened SchedInvariant
  import opened SchedPass

  /** The threads a log says were run, in order. */
  ghost function Ran(log: seq<Entry>): seq<nat> {
    if log == [] then []
    else
      var last := log[|log| - 1];
      Ran(log[..|log| - 1]) + if last.Dispatched? then [last.id] else []
  }

  lemma RanSnoc(log: seq<Entry>, e: Entry)
    ensures Ran(log + [e]) == Ran(log) + if e.Dispatched? then [e.id] else []
  {
    assert (log + [e])[..|log|] == log;
  }

  /** No builtin runs a thread. */
  lemma NativeRuns(h: Host, outside: multiset<nat>, c: Core, varCount: nat, id: u32)
    requires HostInv(h, outside) && h.current.Some?
    ensures Ran(Native(h, c, varCount, id).env.log) == Ran(h.log)
  {
    EventsFit(h, outside);
    var r := Native(h, c, varCount, id).env;
    NativeLogs(h, c, varCount, id);
    hide Native, HandInv, HostInv, Ran;
    if r.log != h.log {
      RanSnoc(h.log, r.log[|h.log|]);
    }
  }

  lemma EventsFit(h: Host, outside: multiset<nat>)
    requires HostInv(h, outside)
    ensures |h.events| <= EVENTS
  {
    hide Owned, Waiting, Debts, Blocks;
  }

  ghost predicate OneMore(was: seq<Entry>, log: seq<Entry>) {
    log == was || (|log| == |was| + 1 && log == was + [log[|was|]] && !log[|was|].Dispatched?)
  }

  /** A builtin writes at most one line into the log, and never a dispatch. */
  lemma NativeLogs(h: Host, c: Core, varCount: nat, id: u32)
    requires h.current.Some? && |h.events| <= EVENTS
    ensures OneMore(h.log, Native(h, c, varCount, id).env.log)
  {
    NativeEnv(h, c, varCount, id);
    hide Native, NativeArg, SleepUntil, FindThread, InsertAt, RemoveAt, Position, ThreadAlloc, LiveStack;
    var a1 := NativeArg(c, varCount, 1);
    if id == FN_FORK {
      ForkLogs(h, c, varCount);
    }
  }

  lemma ForkLogs(h: Host, c: Core, varCount: nat)
    requires h.current.Some?
    ensures OneMore(h.log, Fork(h, c, varCount).env.log)
  {
    hide InsertAt, Position, ThreadAlloc, LiveStack;
    if h.count <= MAX_THREADS - 1 {
      var depth := Max(c.sp, 0);
      var (h1, child) := ThreadAlloc(h, depth);
      if child.Some? {
        var e := Born(child.value.id, Context(c.pc, 0, depth, LiveStack(c, varCount, depth)));
        assert ForkInto(h1, c, varCount, child.value).log == h.log + [e];
      }
    }
  }

  lemma LoopRuns(p: Program<Host>, outside: multiset<nat>, t: Thread, h: Host, c: Core, budget: int)
    requires p == HostProgram(p.code, p.varCount)
    requires Script.Ready(p.varCount, c) && HostInv(h, outside) && SameNode(h, t)
    ensures Ran(Loop(p, h, c, budget).env.log) == Ran(h.log)
  {
    hide HandInv, HostInv, SameNode, Exec, Native, Loop, Ran;
    var ran := Ran(h.log);
    var inv := (g: Host) => HostInv(g, outside) && SameNode(g, t) && Ran(g.log) == ran;
    forall g: Host, d: Core, id: u32 | inv(g) && Script.Ready(p.varCount, d)
      ensures inv(p.native.value(g, d, id).env)
    {
      NativeKeeps(g, outside, d, p.varCount, id);
      NativeSameNode(g, outside, d, p.varCount, id, t);
      NodeRuns(g, t);
      NativeRuns(g, outside, d, p.varCount, id);
    }
    LoopKeeps(p, inv, h, c, budget);
  }

  lemma NodeRuns(h: Host, t: Thread)
    requires SameNode(h, t)
    ensures h.current.Some?
  {
  }

  /** Interpreting a thread in hand runs that thread. */
  lemma ResumeRuns(s: Sched, t: Thread)
    requires Picked(s, t)
    ensures Loaded(s) && |s.vars| == s.varCount + LOCALS && WfThread(t)
    ensures Ran(Resume(s, t).env.log) == Ran(s.host.log) + [t.id]
  {
    hide HandInv, HostInv, SameNode, Loop, Outside, NotReady, Owed, Holds, Ran;
    var c := Unpack(s, t);
    BoardKeeps(s, t, c);
    RanSnoc(s.host.log, Dispatched(t.id, Snap(c, s.varCount, LOCALS)));
    LoopRuns(HostProgram(s.code, s.varCount), Outside(s), t, Enter(s, t, c), c, s.budget);
  }

  // ---- one dispatch ----------------------------------------------------------------------

  /** The waiting thread whose turn it is: the earliest, and among those the first queued. */
  ghost predicate Next(t: Thread, ready: seq<Thread>) {
    t in ready && forall u :: u in ready && u != t ==> Before(t, u)
  }

  lemma HeadIsNext(s: Sched)
    requires SchedInv(s) && s.host.ready != []
    ensures Next(s.host.ready[0], s.host.ready)
  {
    hide Owned, Debts, Blocks, Outside, Before;
  }

  lemma SettleRuns(s: Sched, t: Thread, c: Core, status: Status)
    requires InHand(s, t) && Storage(s.varCount, c) && status != Running
    requires status == Sleeping ==> Script.Ready(s.varCount, c)
    ensures Ran(Settle(s, t, c, status).host.log) == Ran(s.host.log)
  {
    hide SchedInv, Between, InHand, Regrow, Fill, Fault, Position, InsertAt, Ran;
    HandIsLoaded(s, t);
    var depth := Clamp(c.sp, 0, LOCALS);
    var (s1, node) := Regrow(s, t, depth);
    if status == Sleeping && node.Some? {
      FillKeepsHand(s1, node.value, c, depth);
      var saved := Fill(node.value, c, s.varCount, depth);
      RanSnoc(s.host.log, Slept(saved.id, Snap(c, s.varCount, depth)));
    } else if status != Terminated && node.Some? {
      FillKeepsHand(s1, node.value, c, depth);
    }
  }

  /** A dispatch runs the thread whose turn it is, and no other. */
  lemma DispatchRunsTheNext(s: Sched)
    requires SchedInv(s) && Loaded(s) && s.host.ready != []
    ensures var t := s.host.ready[0];
            Next(t, s.host.ready) && Ran(DispatchOne(s).host.log) == Ran(s.host.log) + [t.id]
  {
    HeadIsNext(s);
    TakePicks(s, 0);
    var s1, t := s.(host := TakeAt(s.host, 0)), s.host.ready[0];
    assert s1.host.log == s.host.log;
    hide SchedInv, Picked, Resume, RemoveAt, TakeAt, Settle, InHand, Ran, Next;
    ResumeRuns(s1, t);
    ReturnKeeps(s1, t);
    ResumeSpends(s1, t);
    var run := Resume(s1, t);
    SettleRuns(Return(s1, run), run.env.current.value, run.core, run.status);
  }

  // ---- one sweep -------------------------------------------------------------------------

  /** The ids are run one after the other, each when it is the next of those waiting, and due. */
  ghost predicate TakeTurns(s: Sched, now: u64, ids: seq<nat>)
    requires SchedInv(s) && Loaded(s)
    decreases |ids|
  {
    if ids == [] then forall t :: t in s.host.ready ==> now < t.wake
    else
      && (exists t :: Next(t, s.host.ready) && t.id == ids[0] && t.wake <= now)
      && s.host.ready != [] && TakeTurns(DispatchOne(s), now, ids[1..])
  }

  lemma NothingDueAnywhere(s: Sched, now: u64)
    requires SchedInv(s) && NothingDue(s.host.ready, now)
    ensures forall t :: t in s.host.ready ==> now < t.wake
  {
    if s.host.ready != [] {
      HeadIsNext(s);
      hide SchedInv;
    }
  }

  /**
    A sweep runs threads one after the other, each the earliest of those waiting at that
    moment, none before its time, until every thread left is later.
  */
  lemma {:induction false} SweepsRunDueThreadsInTurn(s: Sched, now: u64) returns (ids: seq<nat>)
    requires SchedInv(s) && Loaded(s)
    ensures TakeTurns(s, now, ids) && Ran(DispatchAll(s, now).host.log) == Ran(s.host.log) + ids
    decreases Max(s.budget, 0), |s.host.ready|
  {
    hide SchedInv, DispatchOne, Ran, Next;
    if NothingDue(s.host.ready, now) {
      NothingDueAnywhere(s, now);
      ids := [];
    } else {
      var t := s.host.ready[0];
      DispatchRunsTheNext(s);
      var rest := SweepsRunDueThreadsInTurn(DispatchOne(s), now);
      ids := [t.id] + rest;
      assert ids[1..] == rest;
    }
  }
}

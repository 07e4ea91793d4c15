/** What holds over every run: any calls, any scripts, any allocation failures, any arrivals mid-pass. */
module SchedTheorems {
  import opened Words
  import opened Script
  import opened ScriptTheorems
  import opened SchedState
  import opened SchedNative
  import opened SchedInvariant
  import opened SchedPass
  import opened SchedRun
  import opened SchedLoad

  datatype Call =
    | LoadCall(code: seq<u32>, varCount: int, now: u64)
    | UnloadCall
    | RunCall(now: u64)
    | InputCall(raw: Raw, now: u64)
    | TakeCall
    | ReleaseCall(block: nat)  // the client gives back a block it took

  /** A fresh scheduler in an environment that decides every allocation and every arrival. */
  function Init(grants: seq<bool>, junk: (nat, nat) -> u32, arrivals: seq<seq<Arrival>>,
                pad: Option<Pad>, tag: u32): Sched {
    Sched(Host(Heap({}, 0, grants, junk), [], [], 0, 0, None, [], 0, pad, 0, 0, []),
          None, [], None, [], 0, 0, 0, false, None, None, None, Script.Status.Running, 0,
          [0, 0, 0, 0], [0, 0, 0, 0], tag, [], [], multiset{}, arrivals, 0, [], 0, 0)
  }

  lemma InitInv(grants: seq<bool>, junk: (nat, nat) -> u32, arrivals: seq<seq<Arrival>>, pad: Option<Pad>, tag: u32)
    ensures SchedInv(Init(grants, junk, arrivals, pad, tag)) && Idle(Init(grants, junk, arrivals, pad, tag))
  {
    var s := Init(grants, junk, arrivals, pad, tag);
    assert multiset(s.host.heap.live) == multiset{};
  }

  function Release(s: Sched, b: nat): (r: Sched)
    requires SchedInv(s) && b in s.handed
    ensures SchedInv(r) && r == s.(host := s.host.(heap := r.host.heap), handed := s.handed - multiset{b})
  {
    ReleaseHolders(s, b);
    hide SchedInv, Between;
    Drop(s.(handed := s.handed - multiset{b}), multiset{}, Some(b))
  }

  lemma ReleaseHolders(s: Sched, b: nat)
    requires SchedInv(s) && b in s.handed
    ensures Between(s.(handed := s.handed - multiset{b}), multiset{} + Opt(Some(b)))
  {
    hide HandInv, HostInv;
    HandedOver(s, b);
    hide Outside;
  }

  lemma HandedOver(s: Sched, b: nat)
    requires b in s.handed
    ensures Outside(s) + multiset{} == Outside(s.(handed := s.handed - multiset{b})) + (multiset{} + Opt(Some(b)))
  {
    var s1 := s.(handed := s.handed - multiset{b});
    assert s.handed == s1.handed + multiset{b};
    assert Opt(Some(b)) == multiset{b};
  }

  function Apply(s: Sched, c: Call): (r: Sched)
    requires SchedInv(s) && Idle(s)
    ensures SchedInv(r) && Idle(r)
  {
    hide SchedInv, NothingDue, Fires;
    match c
    case LoadCall(code, varCount, now) => Load(s, code, varCount, now).sched
    case UnloadCall => Unload(s)
    case RunCall(now) => SchedRun.Run(s, now)
    case InputCall(raw, now) => OnInput(s, raw, now)
    case TakeCall => FaultTake(s)
    case ReleaseCall(b) => if b in s.handed then Release(s, b) else s
  }

  function RunCalls(s: Sched, calls: seq<Call>): (r: Sched)
    requires SchedInv(s) && Idle(s)
    ensures SchedInv(r) && Idle(r)
    decreases |calls|
  {
    if calls == [] then s else RunCalls(Apply(s, calls[0]), calls[1..])
  }

  // ---- ownership -------------------------------------------------------------------

  /** Every place a block can be in, with the number of holders of each block. */
  ghost function Places(s: Sched): multiset<nat> {
    Blocks(s.host.ready) + Blocks(s.host.free) + Held(s.host.current) + Outside(s)
  }

  /**
    After any calls whatever, a live block is in exactly one place and a released
    one in none: the ready list, the pool, the fault slot, code, variables, or the
    client's hands.
  */
  lemma EveryBlockHasOneHolder(s: Sched, calls: seq<Call>, b: nat)
    requires SchedInv(s) && Idle(s)
    ensures var r := RunCalls(s, calls);
            Places(r)[b] == if b in r.host.heap.live then 1 else 0
  {
    var r := RunCalls(s, calls);
    hide RunCalls, Outside, Blocks, Held;
    assert Outside(r) + multiset{} == Outside(r);
    assert multiset(r.host.heap.live) == Places(r);
  }

  lemma {:induction false} RunCallsSnoc(s: Sched, calls: seq<Call>, c: Call)
    requires SchedInv(s) && Idle(s)
    ensures RunCalls(s, calls + [c]) == Apply(RunCalls(s, calls), c)
    decreases |calls|
  {
    hide SchedInv, Idle, Apply;
    if calls == [] {
      assert [c][1..] == [];
      assert RunCalls(s, calls + [c]) == RunCalls(Apply(s, c), []);
    } else {
      assert (calls + [c])[1..] == calls[1..] + [c];
      assert (calls + [c])[0] == calls[0];
      RunCallsSnoc(Apply(s, calls[0]), calls[1..], c);
    }
  }

  /** An unload leaves nothing allocated but what clients took and have not given back. */
  lemma UnloadLeaksNothing(s: Sched, calls: seq<Call>)
    requires SchedInv(s) && Idle(s)
    ensures var r := RunCalls(s, calls + [UnloadCall]);
            multiset(r.host.heap.live) == r.handed == RunCalls(s, calls).handed
  {
    RunCallsSnoc(s, calls, UnloadCall);
  }

  /** So does a load that fails, whichever allocation failed. */
  lemma FailedLoadLeaksNothing(s: Sched, calls: seq<Call>, code: seq<u32>, varCount: int, now: u64)
    requires SchedInv(s) && Idle(s)
    ensures var r := RunCalls(s, calls + [LoadCall(code, varCount, now)]);
            !Loaded(r) ==> multiset(r.host.heap.live) == r.handed
  {
    RunCallsSnoc(s, calls, LoadCall(code, varCount, now));
  }

  // ---- threads ---------------------------------------------------------------------

  /**
    Context switches are transparent: whenever a thread was dispatched, the
    virtual machine held the program counter, accumulator, stack pointer and stack
    words of that thread's latest birth or sleep, with the accumulator cleared if
    it was woken in between.
  */
  lemma ThreadsResumeAsTheyStopped(s: Sched, calls: seq<Call>, k: nat)
    requires SchedInv(s) && Idle(s)
    requires k < |RunCalls(s, calls).host.log| && RunCalls(s, calls).host.log[k].Dispatched?
    ensures var log := RunCalls(s, calls).host.log;
            var owed := Owed(log[..k], log[k].id);
            owed.Some? && Resumes(owed.value, log[k].context)
  {
    hide RunCalls, Outside, Blocks, Owned, Waiting;
  }

  /** No thread is lost and none is invented: the ready list holds exactly the ids that are owed a run. */
  lemma WaitingThreadsAreTheOwedOnes(s: Sched, calls: seq<Call>, id: nat)
    requires SchedInv(s) && Idle(s)
    ensures var h := RunCalls(s, calls).host;
            Owed(h.log, id).Some? <==> exists i :: 0 <= i < |h.ready| && h.ready[i].id == id
  {
    hide RunCalls, Outside, Blocks, Owned, Waiting, Owed;
    var h := RunCalls(s, calls).host;
    assert Owed(h.log, id).Some? ==> !NotReady(h.ready, id);
  }

  /** The thread count is the length of the ready list, after any calls. */
  lemma ThreadCountIsTheLength(s: Sched, calls: seq<Call>)
    requires SchedInv(s) && Idle(s)
    ensures RunCalls(s, calls).host.count == |RunCalls(s, calls).host.ready|
  {
    hide RunCalls, Outside, Blocks, Owned, Debts, Waiting;
  }

  /** The ready list is sorted by wake time, ties in queueing order, and no id is in it twice. */
  lemma ReadyListIsAStableQueue(s: Sched, calls: seq<Call>, i: nat, j: nat)
    requires SchedInv(s) && Idle(s)
    requires i < j < |RunCalls(s, calls).host.ready|
    ensures var h := RunCalls(s, calls).host;
            && (h.ready[i].wake < h.ready[j].wake
                || (h.ready[i].wake == h.ready[j].wake && h.ready[i].stamp < h.ready[j].stamp))
            && h.ready[i].id != h.ready[j].id
  {
    hide RunCalls, Outside, Blocks, Owned, Debts;
    assert Before(RunCalls(s, calls).host.ready[i], RunCalls(s, calls).host.ready[j]);
  }

  /** After a pass no thread is due, and the timer is armed for the earliest wake time. */
  lemma PassLeavesNothingDue(s: Sched, now: u64, i: nat)
    requires SchedInv(s) && Idle(s) && Loaded(s)
    requires i < |SchedRun.Run(s, now).host.ready|
    ensures var r := SchedRun.Run(s, now);
            && r.schedTime < r.host.ready[i].wake
            && r.armed != [] && r.armed[|r.armed| - 1] <= r.host.ready[i].wake
  {
    hide SchedRun.Run, Outside, Blocks, Owned, Debts;
    var r := SchedRun.Run(s, now);
    if i > 0 {
      assert Before(r.host.ready[0], r.host.ready[i]);
    }
  }

  // ---- the post-mortem slot -----------------------------------------------------------

  /** One signal per occupation of the slot, and a parked snapshot has one word per global. */
  lemma FaultsAreSignalledOncePerTake(s: Sched, calls: seq<Call>)
    requires SchedInv(s) && Idle(s)
    ensures var r := RunCalls(s, calls);
            && r.signals == r.takes + (if r.faultThread.Some? then 1 else 0)
            && (r.faultVars.Some? ==> r.faultThread.Some? && |r.faultVars.value.words| == r.varCount)
  {
    hide RunCalls, HandInv, HostInv;
  }

  // ---- slicing ------------------------------------------------------------------------

  lemma BuiltinsNeverBlameTheBudget(h: Host, c: Core, varCount: nat, id: u32)
    ensures Native(h, c, varCount, id).status != BudgetOut
  {
    hide Fork, Wake, Kill, PostEvent, NativeArg, SchedNative.Button, Stick;
    ForkRuns(h, c, varCount);
  }

  lemma ForkRuns(h: Host, c: Core, varCount: nat)
    ensures h.current.Some? ==> Fork(h, c, varCount).status == Script.Status.Running
  {
  }

  /** With the builtin library, a script handed its tokens in any slices does what one run does. */
  lemma ScriptsDoNotNoticeSlicing(code: seq<u32>, varCount: nat, h: Host, c: Core, slices: seq<int>)
    requires Script.Ready(varCount, c)
    requires slices != [] && forall i :: 0 <= i < |slices| ==> slices[i] >= 1
    ensures var p := HostProgram(code, varCount);
            Sliced(p, h, c, slices).(budget := 0) == Loop(p, h, c, Joined(slices)).(budget := 0)
  {
    var p := HostProgram(code, varCount);
    forall env: Host, d: Core, id: u32
      ensures p.native.value(env, d, id).status != BudgetOut
    {
      BuiltinsNeverBlameTheBudget(env, d, varCount, id);
    }
    hide Native;
    SlicingIsInvisible(p, h, c, slices);
    hide Sliced, Loop, Joined;
  }
}

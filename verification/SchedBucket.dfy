/**
  The token bucket as an account: what time puts in, what threads take out, and that a
  thread which keeps within its rate is never stopped for want of tokens.
*/
module SchedBucket {
  import opened Words
  import opened Script
  import opened ScriptTheorems
  import opened SchedState
  import opened SchedNative
  import opened SchedInvariant
  import opened SchedPass
  import opened SchedRun
  import opened SchedLoad
  import opened SchedTheorems

  // ---- one run of one thread -------------------------------------------------------------

  /** A run takes a token for every instruction, and at most one more on the way out. */
  lemma {:induction false} LoopSpends<E(!new)>(p: Program<E>, env: E, c: Core, budget: int)
    requires Ready(p.varCount, c) && HonestNative(p)
    ensures var r := Loop(p, env, c, budget);
            && r.executed <= budget - r.budget <= r.executed + 1
            && (r.status == BudgetOut && budget >= 1 ==> r.executed == budget - 1)
    decreases Max(budget, 0)
  {
    hide Exec;
    if budget > 1 && c.pc < |p.code| {
      var x := Exec(p, env, c);
      ExecHonest(p, env, c);
      if x.status == Running {
        LoopSpends(p, x.env, x.core, budget - 1);
      }
    }
  }

  lemma BuiltinsAreHonest(p: Program<Host>)
    requires p == HostProgram(p.code, p.varCount)
    ensures HonestNative(p)
  {
    forall h: Host, c: Core, id: u32
      ensures p.native.value(h, c, id).status != BudgetOut
    {
      NativeHonest(h, c, p.varCount, id);
      hide Native;
    }
  }

  lemma NativeHonest(h: Host, c: Core, varCount: nat, id: u32)
    ensures Native(h, c, varCount, id).status != BudgetOut
  {
    hide Wake, Kill, PostEvent, ForkInto, NativeArg, SleepUntil, TimeOf, ThreadAlloc;
  }

  /** The run of the first thread of the ready list. */
  ghost function FirstRun(s: Sched): (r: RunResult<Host>)
    requires SchedInv(s) && Loaded(s) && s.host.ready != []
  {
    hide SchedInv, Resume;
    TakePicks(s, 0);
    PickedRuns(s.(host := TakeAt(s.host, 0)), s.host.ready[0]);
    Resume(s.(host := TakeAt(s.host, 0)), s.host.ready[0])
  }

  lemma PickedRuns(s: Sched, t: Thread)
    requires Picked(s, t)
    ensures Loaded(s) && |s.vars| == s.varCount + LOCALS && WfThread(t) && 0 <= t.pc
  {
    hide HandInv, Outside, Owed;
  }

  /** A dispatch leaves the tokens its run left, and books its instructions. */
  lemma DispatchAccounts(s: Sched)
    requires SchedInv(s) && Loaded(s) && s.host.ready != []
    ensures var run, r := FirstRun(s), DispatchOne(s);
            && r.budget == run.budget && r.executed == s.executed + run.executed
            && run.executed <= s.budget - run.budget <= run.executed + 1
            && (run.status == BudgetOut && s.budget >= 1 ==> run.executed == s.budget - 1)
  {
    hide SchedInv, Picked, Resume, RemoveAt, TakeAt, Settle, InHand;
    TakePicks(s, 0);
    var s1, t := s.(host := TakeAt(s.host, 0)), s.host.ready[0];
    PickedRuns(s1, t);
    ResumeAccounts(s1, t);
    SettleAccounts(s1, t);
  }

  lemma ResumeAccounts(s: Sched, t: Thread)
    requires Loaded(s) && |s.vars| == s.varCount + LOCALS && WfThread(t) && 0 <= t.pc
    ensures var r := Resume(s, t);
            && r.executed <= s.budget - r.budget <= r.executed + 1
            && (r.status == BudgetOut && s.budget >= 1 ==> r.executed == s.budget - 1)
  {
    var p := HostProgram(s.code, s.varCount);
    var c := Unpack(s, t);
    BuiltinsAreHonest(p);
    hide Loop, HonestNative;
    LoopSpends(p, Enter(s, t, c), c, s.budget);
  }

  lemma SettleAccounts(s: Sched, t: Thread)
    requires Picked(s, t)
    ensures Loaded(s) && |s.vars| == s.varCount + LOCALS && WfThread(t)
    ensures var run, r := Resume(s, t), SettleResumed(s, t);
            r.budget == run.budget && r.executed == s.executed + run.executed
  {
    PickedRuns(s, t);
    hide Picked, Resume, Settle, InHand;
    ReturnKeeps(s, t);
    ResumeSpends(s, t);
  }

  // ---- one sweep -------------------------------------------------------------------------

  /** How many threads a sweep runs. */
  ghost function Dispatches(s: Sched, now: u64): nat
    requires SchedInv(s) && Loaded(s)
    decreases Max(s.budget, 0), |s.host.ready|
  {
    hide SchedInv, DispatchOne;
    if NothingDue(s.host.ready, now) then 0 else 1 + Dispatches(DispatchOne(s), now)
  }

  /** The tokens their runs take. */
  ghost function Taken(s: Sched, now: u64): int
    requires SchedInv(s) && Loaded(s)
    decreases Max(s.budget, 0), |s.host.ready|
  {
    hide SchedInv, DispatchOne, FirstRun;
    if NothingDue(s.host.ready, now) then 0
    else s.budget - FirstRun(s).budget + Taken(DispatchOne(s), now)
  }

  /** Some thread of the sweep is stopped for want of tokens. */
  ghost predicate Starves(s: Sched, now: u64)
    requires SchedInv(s) && Loaded(s)
    decreases Max(s.budget, 0), |s.host.ready|
  {
    hide SchedInv, DispatchOne, FirstRun;
    !NothingDue(s.host.ready, now) && (FirstRun(s).status == BudgetOut || Starves(DispatchOne(s), now))
  }

  lemma {:induction false} SweepAccounts(s: Sched, now: u64)
    requires SchedInv(s) && Loaded(s)
    ensures var r := DispatchAll(s, now);
            var executed := r.executed - s.executed;
            && s.budget - r.budget == Taken(s, now)
            && executed <= Taken(s, now) <= executed + Dispatches(s, now)
            && (s.budget >= 1 && Starves(s, now) ==> executed + Dispatches(s, now) >= s.budget)
    decreases Max(s.budget, 0), |s.host.ready|
  {
    hide SchedInv, DispatchOne, FirstRun;
    if !NothingDue(s.host.ready, now) {
      DispatchAccounts(s);
      SweepAccounts(DispatchOne(s), now);
    }
  }

  /** What a sweep does to the bucket: the time it is credited for, and what it takes out. */
  datatype Entry = Entry(since: u64, now: u64, found: int, taken: int, left: int,
                         executed: int, dispatched: nat, starved: bool)

  ghost function Book(s: Sched, now: u64): (e: Entry)
    requires SchedInv(s) && Loaded(s)
    ensures e.since == s.schedTime && e.now == now && e.found == s.budget
  {
    hide SchedInv, DispatchAll, Dispatches, Taken, Starves;
    CreditKeeps(s, now);
    var c := Credit(s, now);
    var r := DispatchAll(c, now);
    Entry(s.schedTime, now, s.budget, Taken(c, now), r.budget, r.executed - s.executed,
          Dispatches(c, now), Starves(c, now))
  }

  /** The clock did not run backwards, nor so far that the difference wraps. */
  predicate Forward(e: Entry) {
    e.since <= e.now < e.since + TWO_63
  }

  /** One token for every ten microseconds between the sweeps. */
  function Gain(e: Entry): int {
    (e.now - e.since) / TICK_100NS
  }

  /** The bucket had room for the whole gain. */
  predicate Uncapped(e: Entry) {
    Forward(e) && Gain(e) <= BUDGET && e.found + Gain(e) <= BUDGET
  }

  /** A full bucket's worth of time since the sweep before, and no debt. */
  predicate Rested(e: Entry) {
    Forward(e) && e.now - e.since >= TICK_100NS * BUDGET && e.found >= 0
  }

  predicate Sound(e: Entry) {
    && e.executed <= e.taken <= e.executed + e.dispatched
    && (Uncapped(e) ==> e.left == e.found + Gain(e) - e.taken)
    && (Rested(e) ==> e.left == BUDGET - e.taken)
    && (Rested(e) && e.executed + e.dispatched < BUDGET ==> !e.starved)
  }

  /** A span earns a token for every ten microseconds, and a long one a full bucket. */
  lemma CreditGains(s: Sched, now: u64)
    requires s.schedTime <= now < s.schedTime + TWO_63
    ensures var gain := (now - s.schedTime) / TICK_100NS;
            && (gain <= BUDGET && s.budget + gain <= BUDGET ==> Credit(s, now).budget == s.budget + gain)
            && (gain >= BUDGET && s.budget >= 0 ==> Credit(s, now).budget == BUDGET)
  {
  }

  lemma SoundFrom(e: Entry, credit: int)
    requires e.left == credit - e.taken && e.executed <= e.taken <= e.executed + e.dispatched
    requires e.starved && credit >= 1 ==> e.executed + e.dispatched >= credit
    requires Uncapped(e) ==> credit == e.found + Gain(e)
    requires Rested(e) ==> credit == BUDGET
    ensures Sound(e)
  {
    hide Uncapped, Rested, Gain;
  }

  lemma BookEarns(s: Sched, now: u64, e: Entry)
    requires e.since == s.schedTime && e.now == now && e.found == s.budget
    ensures Uncapped(e) ==> Credit(s, now).budget == e.found + Gain(e)
    ensures Rested(e) ==> Credit(s, now).budget == BUDGET
  {
    if Forward(e) {
      CreditGains(s, now);
    }
    hide Credit;
  }

  lemma BookIs(s: Sched, now: u64)
    requires SchedInv(s) && Loaded(s)
    ensures SchedInv(Credit(s, now)) && Loaded(Credit(s, now)) && Credit(s, now).executed == s.executed
    ensures var e, c := Book(s, now), Credit(s, now);
            && e.left == DispatchAll(c, now).budget && e.executed == DispatchAll(c, now).executed - s.executed
            && e.taken == Taken(c, now) && e.dispatched == Dispatches(c, now) && e.starved == Starves(c, now)
  {
    CreditKeeps(s, now);
    hide SchedInv, DispatchAll, Dispatches, Taken, Starves;
  }

  /** Every sweep is sound: the account holds, a rest fills the bucket, and keeping within it starves nobody. */
  lemma BookIsSound(s: Sched, now: u64)
    requires SchedInv(s) && Loaded(s)
    ensures Sound(Book(s, now))
  {
    hide *;
    BookIs(s, now);
    BookEarns(s, now, Book(s, now));
    SweepAccounts(Credit(s, now), now);
    SoundFrom(Book(s, now), Credit(s, now).budget);
  }

  lemma TurnLeaves(s: Sched, now: u64)
    requires SchedInv(s) && Loaded(s)
    ensures Turn(s, now).budget == Book(s, now).left && Turn(s, now).schedTime == now
  {
    hide SchedInv, DispatchAll, Dispatches, Taken, Starves, Serve, Credit, NothingDue;
    BookIs(s, now);
  }

  // ---- whole runs ------------------------------------------------------------------------

  ghost function PassBook(s: Sched, now: u64): seq<Entry>
    requires SchedInv(s) && Loaded(s) && s.pending == None
    decreases |s.arrivals|
  {
    hide SchedInv, Turn, Book;
    var s1 := Turn(s, now);
    [Book(s, now)]
    + if s1.pending.Some? then
        var s2 := s1.(pending := None);
        BooksKeep(s1, s2);
        PassBook(s2, s1.pending.value)
      else []
  }

  ghost function RunBook(s: Sched, now: u64): seq<Entry>
    requires SchedInv(s) && !s.running && s.pending == None
  {
    if !Loaded(s) then []
    else
      BooksKeep(s, s.(running := true));
      PassBook(s.(running := true), now)
  }

  /** Everything but a load or an unload, which start the bucket afresh. */
  predicate Steady(c: Call) {
    !c.LoadCall? && !c.UnloadCall?
  }

  /** The sweeps of one call. */
  ghost function CallBook(s: Sched, c: Call): seq<Entry>
    requires SchedInv(s) && Idle(s)
  {
    hide SchedInv, Input, RunBook;
    match c
    case RunCall(now) => RunBook(s, now)
    case InputCall(raw, now) => if Fires(s, raw) then RunBook(Input(s, raw, now), now) else []
    case _ => []
  }

  ghost function History(s: Sched, calls: seq<Call>): seq<Entry>
    requires SchedInv(s) && Idle(s)
    decreases |calls|
  {
    hide SchedInv, Idle, Apply, CallBook;
    if calls == [] then [] else CallBook(s, calls[0]) + History(Apply(s, calls[0]), calls[1..])
  }

  /** Each sweep finds the balance and the clock the one before it left. */
  ghost predicate Joined(es: seq<Entry>, found: int, since: u64, left: int, now: u64) {
    if es == [] then left == found && now == since
    else
      && es[0].found == found && es[0].since == since && Sound(es[0])
      && Joined(es[1..], es[0].left, es[0].now, left, now)
  }

  lemma {:induction false} JoinedOn(es: seq<Entry>, fs: seq<Entry>, found: int, since: u64, mid: int, at: u64,
                                    left: int, now: u64)
    requires Joined(es, found, since, mid, at) && Joined(fs, mid, at, left, now)
    ensures Joined(es + fs, found, since, left, now)
    decreases |es|
  {
    if es == [] {
      assert es + fs == fs;
    } else {
      assert (es + fs)[1..] == es[1..] + fs;
      JoinedOn(es[1..], fs, es[0].left, es[0].now, mid, at, left, now);
    }
  }

  lemma JoinedOne(e: Entry, es: seq<Entry>, left: int, now: u64)
    requires Sound(e) && Joined(es, e.left, e.now, left, now)
    ensures Joined([e] + es, e.found, e.since, left, now)
  {
    assert ([e] + es)[1..] == es;
  }

  lemma {:induction false} PassJoins(s: Sched, now: u64)
    requires SchedInv(s) && Loaded(s) && s.pending == None
    ensures var r := Passes(s, now);
            Joined(PassBook(s, now), s.budget, s.schedTime, r.budget, r.schedTime)
    decreases |s.arrivals|
  {
    hide SchedInv, Turn, Book, Sound, Settled;
    var s1 := Turn(s, now);
    BookIsSound(s, now);
    TurnLeaves(s, now);
    if s1.pending.Some? {
      var s2 := s1.(pending := None);
      BooksKeep(s1, s2);
      PassJoins(s2, s1.pending.value);
      JoinedOne(Book(s, now), PassBook(s2, s1.pending.value), Passes(s, now).budget, Passes(s, now).schedTime);
    } else {
      JoinedOne(Book(s, now), [], s1.budget, s1.schedTime);
      assert [Book(s, now)] + [] == PassBook(s, now);
    }
  }

  lemma RunJoins(s: Sched, now: u64)
    requires SchedInv(s) && !s.running && s.pending == None
    ensures var r := SchedRun.Run(s, now);
            Joined(RunBook(s, now), s.budget, s.schedTime, r.budget, r.schedTime)
  {
    hide SchedInv, Passes, PassBook, Settled;
    if Loaded(s) {
      BooksKeep(s, s.(running := true));
      PassJoins(s.(running := true), now);
    }
  }

  lemma CallJoins(s: Sched, c: Call)
    requires SchedInv(s) && Idle(s) && Steady(c)
    ensures var r := Apply(s, c);
            Joined(CallBook(s, c), s.budget, s.schedTime, r.budget, r.schedTime)
  {
    hide SchedInv, Unload, SchedRun.Run, Load, Input, Release, RunBook, Settled, FaultTake;
    match c
    case RunCall(now) => RunJoins(s, now);
    case InputCall(raw, now) =>
      if Fires(s, raw) {
        RunJoins(Input(s, raw, now), now);
      }
    case TakeCall =>
    case ReleaseCall(_) =>
  }

  lemma {:induction false} HistoryJoins(s: Sched, calls: seq<Call>)
    requires SchedInv(s) && Idle(s) && forall i :: 0 <= i < |calls| ==> Steady(calls[i])
    ensures var r := RunCalls(s, calls);
            Joined(History(s, calls), s.budget, s.schedTime, r.budget, r.schedTime)
    decreases |calls|
  {
    hide SchedInv, Idle, Apply, CallBook, Joined, Steady;
    if calls == [] {
      HistoryStarts(s);
    } else {
      var s1 := Apply(s, calls[0]);
      CallJoins(s, calls[0]);
      HistoryJoins(s1, calls[1..]);
      var r := RunCalls(s, calls);
      JoinedOn(CallBook(s, calls[0]), History(s1, calls[1..]), s.budget, s.schedTime,
               s1.budget, s1.schedTime, r.budget, r.schedTime);
    }
  }

  lemma HistoryStarts(s: Sched)
    ensures Joined([], s.budget, s.schedTime, s.budget, s.schedTime)
  {
  }

  // ---- the account -----------------------------------------------------------------------

  ghost function Gains(es: seq<Entry>): int {
    if es == [] then 0 else Gain(es[0]) + Gains(es[1..])
  }

  ghost function TakenBy(es: seq<Entry>): int {
    if es == [] then 0 else es[0].taken + TakenBy(es[1..])
  }

  lemma {:induction false} JoinedAccounts(es: seq<Entry>, found: int, since: u64, left: int, now: u64)
    requires Joined(es, found, since, left, now) && forall i :: 0 <= i < |es| ==> Uncapped(es[i])
    ensures left == found + Gains(es) - TakenBy(es)
    decreases |es|
  {
    hide Uncapped, Gain;
    if es != [] {
      assert Uncapped(es[0]);
      JoinedAccounts(es[1..], es[0].left, es[0].now, left, now);
    }
  }

  /** The clock of the sweeps: each is credited for the time since the one before it. */
  ghost predicate Consecutive(es: seq<Entry>, since: u64) {
    forall i :: 0 <= i < |es| ==> es[i].since == if i == 0 then since else es[i - 1].now
  }

  lemma {:induction false} JoinedClock(es: seq<Entry>, found: int, since: u64, left: int, now: u64)
    requires Joined(es, found, since, left, now)
    ensures Consecutive(es, since)
    ensures forall i :: 0 <= i < |es| ==> es[i].found == if i == 0 then found else es[i - 1].left
    ensures forall i :: 0 <= i < |es| ==> Sound(es[i])
    decreases |es|
  {
    hide Sound;
    if es != [] {
      var rest := es[1..];
      JoinedClock(rest, es[0].left, es[0].now, left, now);
      forall i | 0 <= i < |es|
        ensures es[i].since == if i == 0 then since else es[i - 1].now
        ensures es[i].found == if i == 0 then found else es[i - 1].left
        ensures Sound(es[i])
      {
        if i > 0 {
          assert es[i] == rest[i - 1];
        }
      }
    }
  }

  /**
    Over any calls between two loads in which the bucket is never full: the tokens left are
    those at the start, and one for every ten microseconds from each sweep to the next, less
    what the threads took; and what they took is a token for every instruction and at most
    one more for every dispatch.
  */
  lemma BucketIsAnAccount(s: Sched, calls: seq<Call>)
    requires SchedInv(s) && Idle(s) && forall i :: 0 <= i < |calls| ==> Steady(calls[i])
    requires forall i :: 0 <= i < |History(s, calls)| ==> Uncapped(History(s, calls)[i])
    ensures var es, r := History(s, calls), RunCalls(s, calls);
            && r.budget == s.budget + Gains(es) - TakenBy(es)
            && Consecutive(es, s.schedTime)
            && forall i :: 0 <= i < |es| ==> es[i].executed <= es[i].taken <= es[i].executed + es[i].dispatched
  {
    hide SchedInv, Idle, RunCalls, History, Steady, Uncapped;
    HistoryJoins(s, calls);
    var es, r := History(s, calls), RunCalls(s, calls);
    JoinedAccounts(es, s.budget, s.schedTime, r.budget, r.schedTime);
    JoinedClock(es, s.budget, s.schedTime, r.budget, r.schedTime);
  }

  /** A second of rest before the sweep, and less than a bucket's worth of work in it. */
  predicate Modest(e: Entry) {
    Forward(e) && e.now - e.since >= TICK_100NS * BUDGET && e.executed + e.dispatched < BUDGET
  }

  lemma {:induction false} JoinedModest(es: seq<Entry>, found: int, since: u64, left: int, now: u64)
    requires Joined(es, found, since, left, now) && found >= 0 && forall i :: 0 <= i < |es| ==> Modest(es[i])
    ensures left >= 0 && forall i :: 0 <= i < |es| ==> !es[i].starved && es[i].left == BUDGET - es[i].taken
    decreases |es|
  {
    if es != [] {
      assert Modest(es[0]);
      hide Modest;
      JoinedModest(es[1..], es[0].left, es[0].now, left, now);
      assert forall i :: 1 <= i < |es| ==> es[i] == es[1..][i - 1];
    }
  }

  /**
    Over any calls between two loads whose sweeps are a second apart, from no debt, and
    whose threads execute less than a bucket's worth in each: every sweep starts from a
    full bucket and no thread is ever stopped for want of tokens.
  */
  lemma ModestThreadsNeverStarve(s: Sched, calls: seq<Call>)
    requires SchedInv(s) && Idle(s) && forall i :: 0 <= i < |calls| ==> Steady(calls[i])
    requires s.budget >= 0 && forall i :: 0 <= i < |History(s, calls)| ==> Modest(History(s, calls)[i])
    ensures var es := History(s, calls);
            forall i :: 0 <= i < |es| ==> !es[i].starved && es[i].left + es[i].taken == BUDGET
  {
    hide SchedInv, Idle, RunCalls, History, Steady, Modest;
    HistoryJoins(s, calls);
    var r := RunCalls(s, calls);
    JoinedModest(History(s, calls), s.budget, s.schedTime, r.budget, r.schedTime);
  }
}

/** The token bucket as a rate limit over every window of sweeps since a load. */
module SchedRate {
  import opened Words
  import opened Script
  import opened SchedState
  import opened SchedInvariant
  import opened SchedPass
  import opened SchedRun
  import opened SchedLoad
  import opened SchedTheorems

  /** Instructions executed by all threads over a run of sweeps. */
  ghost function Total(sweeps: seq<Sweep>): int {
    if sweeps == [] then 0 else Total(sweeps[..|sweeps| - 1]) + sweeps[|sweeps| - 1].executed
  }

  ghost predicate Monotone(sweeps: seq<Sweep>) {
    forall i, j :: 0 <= i <= j < |sweeps| ==> sweeps[i].now <= sweeps[j].now
  }

  /** A hundred thousand instructions, and one more for every ten microseconds of the window. */
  function Allowance(first: u64, last: u64): int
    requires first <= last
  {
    BUDGET + (last - first) / TICK_100NS
  }

  ghost predicate Limited(sweeps: seq<Sweep>)
    requires Monotone(sweeps)
  {
    forall i, j :: 0 <= i <= j < |sweeps| ==>
      Total(sweeps[i..j + 1]) <= Allowance(sweeps[i].now, sweeps[j].now)
  }

  /** The tokens still in the bucket are part of what the allowance has already granted. */
  ghost predicate Metered(sweeps: seq<Sweep>, budget: int, last: u64)
    requires Monotone(sweeps)
  {
    && budget <= BUDGET
    && Limited(sweeps)
    && (sweeps != [] ==> sweeps[|sweeps| - 1].now == last)
    && forall i :: 0 <= i < |sweeps| ==>
         sweeps[i].now <= last && Total(sweeps[i..]) + Max(budget, 0) <= Allowance(sweeps[i].now, last)
  }

  ghost predicate RateInv(s: Sched) {
    s.budget <= BUDGET && (Monotone(s.sweeps) ==> Metered(s.sweeps, s.budget, s.schedTime))
  }

  lemma TotalSnoc(sweeps: seq<Sweep>, x: Sweep)
    ensures Total(sweeps + [x]) == Total(sweeps) + x.executed
  {
    assert (sweeps + [x])[..|sweeps|] == sweeps;
  }

  lemma MonotonePrefix(sweeps: seq<Sweep>, x: Sweep)
    requires Monotone(sweeps + [x])
    ensures Monotone(sweeps)
    ensures forall i :: 0 <= i < |sweeps| ==> sweeps[i].now <= x.now
  {
    var all := sweeps + [x];
    forall i, j | 0 <= i <= j < |sweeps|
      ensures sweeps[i].now <= sweeps[j].now
    {
      assert all[i].now <= all[j].now;
    }
    forall i | 0 <= i < |sweeps|
      ensures sweeps[i].now <= x.now
    {
      assert all[i].now <= all[|sweeps|].now;
    }
  }

  /** A credit never exceeds the time that passed. */
  lemma EarnedBounded(since: u64, now: u64)
    requires since <= now
    ensures Earned(since, now) <= (now - since) / TICK_100NS
  {
  }

  /** Credit truncates, so the allowance of a longer window has room for both parts. */
  lemma AllowanceGrows(first: u64, mid: u64, last: u64)
    requires first <= mid <= last
    ensures Allowance(first, mid) + (last - mid) / TICK_100NS <= Allowance(first, last)
  {
  }

  /** Windows that end with the new sweep. */
  lemma LatestWindow(sweeps: seq<Sweep>, budget: int, last: u64, x: Sweep, left: int, i: nat)
    requires Monotone(sweeps + [x]) && Monotone(sweeps) && Metered(sweeps, budget, last)
    requires x.executed <= Max(Min(budget + Earned(last, x.now), BUDGET), 0) - Max(left, 0) && left <= BUDGET
    requires i <= |sweeps|
    ensures var all := sweeps + [x];
            all[i].now <= x.now && Total(all[i..]) + Max(left, 0) <= Allowance(all[i].now, x.now)
  {
    var all := sweeps + [x];
    MonotonePrefix(sweeps, x);
    assert all[i..] == sweeps[i..] + [x];
    TotalSnoc(sweeps[i..], x);
    if i < |sweeps| {
      assert Total(sweeps[i..]) + Max(budget, 0) <= Allowance(sweeps[i].now, last);
      assert last <= x.now;
      EarnedBounded(last, x.now);
      AllowanceGrows(sweeps[i].now, last, x.now);
    } else {
      assert sweeps[i..] == [];
      EmptyWindow(x.now);
    }
    hide Earned, Allowance, Total, Monotone, Metered;
  }

  lemma SweepMetered(sweeps: seq<Sweep>, budget: int, last: u64, x: Sweep, left: int)
    requires Monotone(sweeps + [x]) && Monotone(sweeps) && Metered(sweeps, budget, last)
    requires x.executed <= Max(Min(budget + Earned(last, x.now), BUDGET), 0) - Max(left, 0) && left <= BUDGET
    ensures Metered(sweeps + [x], left, x.now)
  {
    var all := sweeps + [x];
    hide Earned, Allowance, Total, Monotone;
    forall i | 0 <= i < |all|
      ensures all[i].now <= x.now && Total(all[i..]) + Max(left, 0) <= Allowance(all[i].now, x.now)
    {
      LatestWindow(sweeps, budget, last, x, left, i);
    }
    forall i, j | 0 <= i <= j < |all|
      ensures all[i].now <= all[j].now && Total(all[i..j + 1]) <= Allowance(all[i].now, all[j].now)
    {
      MonotonePair(all, i, j);
      if j < |sweeps| {
        assert all[i..j + 1] == sweeps[i..j + 1];
      } else {
        assert all[i..j + 1] == all[i..];
      }
    }
  }

  lemma MonotonePair(sweeps: seq<Sweep>, i: nat, j: nat)
    requires Monotone(sweeps) && i <= j < |sweeps|
    ensures sweeps[i].now <= sweeps[j].now
  {
  }

  lemma EmptyWindow(now: u64)
    ensures Total([]) == 0 && Allowance(now, now) == BUDGET
  {
  }

  lemma TurnMetered(s: Sched, now: u64)
    requires SchedInv(s) && Loaded(s) && RateInv(s)
    ensures RateInv(Turn(s, now))
  {
    hide HandInv, HostInv, Turn, Earned, Metered, Monotone, NothingDue;
    var r := Turn(s, now);
    var x := Sweep(now, r.executed - s.executed);
    if Monotone(r.sweeps) {
      MonotonePrefix(s.sweeps, x);
      SweepMetered(s.sweeps, s.budget, s.schedTime, x, r.budget);
    }
  }

  lemma {:induction false} PassesMetered(s: Sched, now: u64)
    requires SchedInv(s) && Loaded(s) && s.pending == None && RateInv(s)
    ensures RateInv(Passes(s, now))
    decreases |s.arrivals|
  {
    TurnMetered(s, now);
    hide SchedInv, Turn, Metered, NothingDue;
    var s1 := Turn(s, now);
    if s1.pending.Some? {
      var s2 := s1.(pending := None);
      BooksKeep(s1, s2);
      PassesMetered(s2, s1.pending.value);
    }
  }

  lemma RunMetered(s: Sched, now: u64)
    requires SchedInv(s) && !s.running && s.pending == None && RateInv(s)
    ensures RateInv(SchedRun.Run(s, now))
  {
    if Loaded(s) {
      BooksKeep(s, s.(running := true));
      hide SchedInv, Passes, Metered;
      PassesMetered(s.(running := true), now);
    }
  }

  lemma LoadMetered(s: Sched, code: seq<u32>, varCount: int, now: u64)
    requires SchedInv(s) && RateInv(s)
    ensures RateInv(Load(s, code, varCount, now).sched)
  {
    hide SchedInv, Unload, SchedRun.Run, Allocate, FirstThread;
    var s1 := Unload(s);
    if code != [] && varCount > 0 {
      UnloadedSlot(s1);
      var a := Allocate(s1, code, varCount, now);
      if a.ok {
        var f := FirstThread(a.sched, now);
        if f.ok {
          RunMetered(f.sched, now);
        }
      }
    }
  }

  lemma ApplyMetered(s: Sched, c: Call)
    requires SchedInv(s) && Idle(s) && RateInv(s)
    ensures RateInv(Apply(s, c))
  {
    hide SchedInv, Unload, SchedRun.Run, Load, Input, Metered, Release;
    match c
    case LoadCall(code, varCount, now) => LoadMetered(s, code, varCount, now);
    case UnloadCall => FreshMetered(Unload(s));
    case RunCall(now) => RunMetered(s, now);
    case InputCall(raw, now) =>
      if Fires(s, raw) {
        RunMetered(Input(s, raw, now), now);
      }
    case TakeCall =>
    case ReleaseCall(b) =>
  }

  lemma FreshMetered(s: Sched)
    requires s.sweeps == [] && s.budget <= BUDGET
    ensures RateInv(s)
  {
  }

  /**
    For sweeps at non-decreasing times, the instructions all threads execute in any
    window of sweeps since the last load stay within a hundred thousand plus one
    per ten microseconds of the window, whatever the scripts do.
  */
  lemma {:induction false} InstructionRateIsLimited(s: Sched, calls: seq<Call>)
    requires SchedInv(s) && Idle(s) && RateInv(s)
    ensures var r := RunCalls(s, calls);
            RateInv(r) && (Monotone(r.sweeps) ==> Limited(r.sweeps))
    decreases |calls|
  {
    hide SchedInv, Apply;
    if calls != [] {
      ApplyMetered(s, calls[0]);
      InstructionRateIsLimited(Apply(s, calls[0]), calls[1..]);
    }
  }
}

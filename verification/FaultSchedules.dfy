/** Two schedules of the post-mortem slot in which something is lost or overrun. */
module FaultSchedules {
  import opened Words
  import opened FaultSlot

  // ---- two schedules -------------------------------------------------------------------

  lemma Start(varCount: nat) returns (s: State)
    ensures s == Init(2, varCount) && Sound(s)
    ensures s == State({}, 0, None, None, [Idle, Idle], 0, 0, varCount, map[], [])
  {
    s := Init(2, varCount);
    assert s.actors == [Idle, Idle];
  }

  /** One step at the head of a concrete schedule. */
  lemma Turn(s: State, step: Step, rest: seq<Step>, expected: State, d: Design)
    requires Sound(s) && Next(s, step, d) == expected
    ensures Sound(expected) && Run(s, [step] + rest, d) == Run(expected, rest, d)
    ensures rest == [] ==> Run(expected, rest, d) == expected
  {
    hide Sound, Next;
    NextKeeps(s, step, d);
    assert ([step] + rest)[1..] == rest;
  }

  /** A thread faults, its snapshot holding `n` words. */
  lemma FaultAndPark(s: State, rest: seq<Step>, n: nat) returns (r: State)
    requires n > 0 && Sound(s) && s == State({}, 0, None, None, [Idle, Idle], 0, 0, n, map[], [])
    ensures Sound(r) && r == State({0, 1}, 2, Some(0), Some(1), [Idle, Idle], 1, 0, n, map[1 := n], [])
    ensures Run(s, [Fault(0)] + ([Copy(0, true)] + ([Exchange(0)] + ([Post(0)] + rest))), Inside)
         == Run(r, rest, Inside)
  {
    hide Sound, Run;
    var t3 := [Post(0)] + rest;
    var t2 := [Exchange(0)] + t3;
    var t1 := [Copy(0, true)] + t2;
    var s1 := State({0}, 1, None, None, [Faulting(0), Idle], 0, 0, n, map[], []);
    Turn(s, Fault(0), t1, s1, Inside);
    var s2 := State({0, 1}, 2, None, None, [Parking(0, Some(1), true), Idle], 0, 0, n, map[1 := n], []);
    Turn(s1, Copy(0, true), t2, s2, Inside);
    var s3 := State({0, 1}, 2, Some(0), Some(1), [Releasing(None, None, true), Idle], 0, 0, n, map[1 := n], []);
    Turn(s2, Exchange(0), t3, s3, Inside);
    r := State({0, 1}, 2, Some(0), Some(1), [Idle, Idle], 1, 0, n, map[1 := n], []);
    Turn(s3, Post(0), rest, r, Inside);
  }

  /** A client takes both blocks and releases the thread. */
  lemma TakeToRead(s: State, rest: seq<Step>, n: nat) returns (r: State)
    requires Sound(s) && s == State({0, 1}, 2, Some(0), Some(1), [Idle, Idle], 1, 0, n, map[1 := n], [])
    ensures Sound(r) && r == State({1}, 2, None, None, [Reading(None, Some(1)), Idle], 1, 1, n, map[1 := n], [])
    ensures Run(s, [Collect(0)] + ([FreeThread(0)] + rest), Inside) == Run(r, rest, Inside)
  {
    hide Sound, Run;
    var s1 := State({0, 1}, 2, None, None, [Reading(Some(0), Some(1)), Idle], 1, 1, n, map[1 := n], []);
    Turn(s, Collect(0), [FreeThread(0)] + rest, s1, Inside);
    r := State({1}, 2, None, None, [Reading(None, Some(1)), Idle], 1, 1, n, map[1 := n], []);
    Turn(s1, FreeThread(0), rest, r, Inside);
  }

  /** Another script is loaded meanwhile. */
  lemma LoadMeanwhile(s: State, rest: seq<Step>, n: nat, m: nat) returns (r: State)
    requires m > 0 && Sound(s)
    requires s == State({1}, 2, None, None, [Reading(None, Some(1)), Idle], 1, 1, n, map[1 := n], [])
    ensures Sound(r) && r == State({1}, 2, None, None, [Reading(None, Some(1)), Idle], 1, 1, m, map[1 := n], [])
    ensures Run(s, [Clear(1)] + ([Take(1)] + ([Load(1, m)] + rest)), Inside) == Run(r, rest, Inside)
  {
    hide Sound, Run;
    var t2 := [Load(1, m)] + rest;
    var s1 := State({1}, 2, None, None, [Reading(None, Some(1)), Clearing], 1, 1, 0, map[1 := n], []);
    Turn(s, Clear(1), [Take(1)] + t2, s1, Inside);
    var s2 := State({1}, 2, None, None, [Reading(None, Some(1)), Unloaded(None, None)], 1, 1, 0, map[1 := n], []);
    Turn(s1, Take(1), t2, s2, Inside);
    r := State({1}, 2, None, None, [Reading(None, Some(1)), Idle], 1, 1, m, map[1 := n], []);
    Turn(s2, Load(1, m), rest, r, Inside);
  }

  lemma ReadAtLast(s: State, n: nat, m: nat, room: nat)
    requires Sound(s) && s == State({1}, 2, None, None, [Reading(None, Some(1)), Idle], 1, 1, m, map[1 := n], [])
    ensures Run(s, [Read(0, room)] + [], Inside).answered == [Answer(Min(room, 4 * m), n)]
  {
    hide Sound, Run;
    var r := State({1}, 2, None, None, [Releasing(None, Some(1), false), Idle], 1, 1, m, map[1 := n],
                   [Answer(Min(room, 4 * m), n)]);
    Turn(s, Read(0, room), [], r, Inside);
  }

  /** For any two counts: loading the larger script between a client's take and its read makes the copy too long. */
  lemma LargerLoadOverruns(n: nat, m: nat, room: nat) returns (steps: seq<Step>)
    requires 0 < n < m && room > 4 * n
    ensures var answered := Run(Init(2, n), steps, Inside).answered;
            |answered| == 1 && answered[0].words == n && answered[0].bytes > 4 * n
  {
    hide Run, Sound, Init;
    var read := [Read(0, room)] + [];
    var reload := [Clear(1)] + ([Take(1)] + ([Load(1, m)] + read));
    var drain := [Collect(0)] + ([FreeThread(0)] + reload);
    steps := [Fault(0)] + ([Copy(0, true)] + ([Exchange(0)] + ([Post(0)] + drain)));
    var s0 := Start(n);
    var s1 := FaultAndPark(s0, drain, n);
    var s2 := TakeToRead(s1, reload, n);
    var s3 := LoadMeanwhile(s2, read, n, m);
    ReadAtLast(s3, n, m, room);
  }

  /**
    Were the slot looked at before the exchange, a collection in between would leave
    a parked thread that nobody is told about.
  */
  lemma LookingBeforehandLosesASignal(n: nat) returns (steps: seq<Step>)
    requires n > 0
    ensures var s := Run(Init(2, n), steps, Beforehand);
            s.actors == [Idle, Idle] && s.thread.Some? && s.signals == s.emptied
  {
    hide Run, Sound, Init;
    var finish := [FreeThread(1)] + ([Read(1, 0)] + ([Post(1)] + []));
    var meanwhile := [Collect(1)] + ([Exchange(0)] + ([Post(0)] + finish));
    var second := [Fault(0)] + ([Copy(0, false)] + meanwhile);
    steps := [Fault(0)] + ([Copy(0, false)] + ([Exchange(0)] + ([Post(0)] + second)));
    var s0 := Start(n);
    var s1 := FirstFault(s0, second, n);
    var s2 := SecondFault(s1, meanwhile, n);
    var s3 := CollectedMeanwhile(s2, finish, n);
    var s4 := CollectorFinishes(s3, n);
  }

  lemma FirstFault(s: State, rest: seq<Step>, n: nat) returns (r: State)
    requires n > 0 && Sound(s) && s == State({}, 0, None, None, [Idle, Idle], 0, 0, n, map[], [])
    ensures Sound(r) && r == State({0}, 1, Some(0), None, [Idle, Idle], 1, 0, n, map[], [])
    ensures Run(s, [Fault(0)] + ([Copy(0, false)] + ([Exchange(0)] + ([Post(0)] + rest))), Beforehand)
         == Run(r, rest, Beforehand)
  {
    hide Sound, Run;
    var t3 := [Post(0)] + rest;
    var t2 := [Exchange(0)] + t3;
    var t1 := [Copy(0, false)] + t2;
    var s1 := State({0}, 1, None, None, [Faulting(0), Idle], 0, 0, n, map[], []);
    Turn(s, Fault(0), t1, s1, Beforehand);
    var s2 := State({0}, 1, None, None, [Parking(0, None, true), Idle], 0, 0, n, map[], []);
    Turn(s1, Copy(0, false), t2, s2, Beforehand);
    var s3 := State({0}, 1, Some(0), None, [Releasing(None, None, true), Idle], 0, 0, n, map[], []);
    Turn(s2, Exchange(0), t3, s3, Beforehand);
    r := State({0}, 1, Some(0), None, [Idle, Idle], 1, 0, n, map[], []);
    Turn(s3, Post(0), rest, r, Beforehand);
  }

  lemma SecondFault(s: State, rest: seq<Step>, n: nat) returns (r: State)
    requires n > 0 && Sound(s) && s == State({0}, 1, Some(0), None, [Idle, Idle], 1, 0, n, map[], [])
    ensures Sound(r) && r == State({0, 1}, 2, Some(0), None, [Parking(1, None, false), Idle], 1, 0, n, map[], [])
    ensures Run(s, [Fault(0)] + ([Copy(0, false)] + rest), Beforehand) == Run(r, rest, Beforehand)
  {
    hide Sound, Run;
    var s1 := State({0, 1}, 2, Some(0), None, [Faulting(1), Idle], 1, 0, n, map[], []);
    Turn(s, Fault(0), [Copy(0, false)] + rest, s1, Beforehand);
    r := State({0, 1}, 2, Some(0), None, [Parking(1, None, false), Idle], 1, 0, n, map[], []);
    Turn(s1, Copy(0, false), rest, r, Beforehand);
  }

  lemma CollectedMeanwhile(s: State, rest: seq<Step>, n: nat) returns (r: State)
    requires Sound(s) && s == State({0, 1}, 2, Some(0), None, [Parking(1, None, false), Idle], 1, 0, n, map[], [])
    ensures Sound(r) && r == State({0, 1}, 2, Some(1), None, [Idle, Reading(Some(0), None)], 1, 1, n, map[], [])
    ensures Run(s, [Collect(1)] + ([Exchange(0)] + ([Post(0)] + rest)), Beforehand) == Run(r, rest, Beforehand)
  {
    hide Sound, Run;
    var t2 := [Post(0)] + rest;
    var t1 := [Exchange(0)] + t2;
    var s1 := State({0, 1}, 2, None, None, [Parking(1, None, false), Reading(Some(0), None)], 1, 1, n, map[], []);
    Turn(s, Collect(1), t1, s1, Beforehand);
    var both := [Releasing(None, None, false), Reading(Some(0), None)];
    var s2 := State({0, 1}, 2, Some(1), None, both, 1, 1, n, map[], []);
    Turn(s1, Exchange(0), t2, s2, Beforehand);
    r := State({0, 1}, 2, Some(1), None, [Idle, Reading(Some(0), None)], 1, 1, n, map[], []);
    Turn(s2, Post(0), rest, r, Beforehand);
  }

  lemma CollectorFinishes(s: State, n: nat) returns (r: State)
    requires Sound(s) && s == State({0, 1}, 2, Some(1), None, [Idle, Reading(Some(0), None)], 1, 1, n, map[], [])
    ensures Run(s, [FreeThread(1)] + ([Read(1, 0)] + ([Post(1)] + [])), Beforehand) == r
    ensures r.actors == [Idle, Idle] && r.thread == Some(1) && r.signals == 1 && r.emptied == 1
  {
    hide Sound, Run;
    var t2 := [Post(1)] + [];
    var s1 := State({1}, 2, Some(1), None, [Idle, Reading(None, None)], 1, 1, n, map[], []);
    Turn(s, FreeThread(1), [Read(1, 0)] + t2, s1, Beforehand);
    var s2 := State({1}, 2, Some(1), None, [Idle, Releasing(None, None, false)], 1, 1, n, map[], []);
    Turn(s1, Read(1, 0), t2, s2, Beforehand);
    r := State({1}, 2, Some(1), None, [Idle, Idle], 1, 1, n, map[], []);
    Turn(s2, Post(1), [], r, Beforehand);
  }
}

/**
  The variable count against the post-mortem slot. An unload clears the count before
  it takes the slot, and a client reads what it took by the count of a later moment.
*/
module FaultTiming {
  import opened Words
  import opened SchedPass
  import opened FaultSlot

  // ---- snapshots ---------------------------------------------------------------------

  predicate NobodyClears(actors: seq<Actor>) {
    forall i :: 0 <= i < |actors| ==> !actors[i].Clearing?
  }

  /** This snapshot's words are booked, and there is at least one. */
  predicate Booked(s: State, v: Option<nat>) {
    v.Some? ==> v.value in s.sizes && s.sizes[v.value] > 0
  }

  /** This snapshot has one word for each of the loaded script's globals. */
  predicate Fits(s: State, v: Option<nat>) {
    v.Some? ==> v.value in s.sizes && s.sizes[v.value] == s.varCount
  }

  /** What an actor's place in its code says of the count, the slot and its snapshot. */
  predicate InPlace(s: State, a: Actor) {
    && (a.Faulting? || a.Parking? ==> s.varCount > 0)
    && (a.Parking? ==> Fits(s, a.vars))
    && (a.Clearing? || a.Unloaded? ==> s.varCount == 0)
    && (a.Unloaded? ==> s.thread.None?)
    && (a.Reading? ==> Booked(s, a.oldVars))
  }

  /** All of them, one unload at a time, and what the slot holds. */
  ghost predicate Timed(s: State) {
    && (forall i :: 0 <= i < |s.actors| ==> InPlace(s, s.actors[i]))
    && (forall i, j :: 0 <= i < j < |s.actors| ==> !(Unloads(s.actors[i]) && Unloads(s.actors[j])))
    && Booked(s, s.vars) && (NobodyClears(s.actors) ==> Fits(s, s.vars))
  }

  predicate Unloads(a: Actor) {
    a.Clearing? || a.Unloaded?
  }

  /** One actor moved; the others are where they were and what they rely on still holds. */
  lemma Moved(s: State, r: State, i: nat, a: Actor)
    requires Timed(s) && i < |s.actors| && r.actors == s.actors[i := a]
    requires forall k :: 0 <= k < |s.actors| && k != i ==> InPlace(r, s.actors[k])
    requires InPlace(r, a) && (Unloads(a) ==> Unloads(s.actors[i]) || NobodyUnloads(s.actors))
    requires Booked(r, r.vars) && (NobodyClears(r.actors) ==> Fits(r, r.vars))
    ensures Timed(r)
  {
    hide InPlace, Booked, Fits;
  }

  /** The count, the books and the slot untouched. */
  lemma MovedAlone(s: State, r: State, i: nat, a: Actor)
    requires Timed(s) && i < |s.actors| && r.actors == s.actors[i := a] && !s.actors[i].Clearing?
    requires r.varCount == s.varCount && r.sizes == s.sizes && r.thread == s.thread && r.vars == s.vars
    requires InPlace(r, a) && (Unloads(a) ==> Unloads(s.actors[i]))
    ensures Timed(r)
  {
    forall k | 0 <= k < |s.actors| && k != i
      ensures InPlace(r, s.actors[k])
    {
      assert InPlace(s, s.actors[k]);
    }
    hide InPlace;
    if NobodyClears(r.actors) {
      assert forall k :: 0 <= k < |s.actors| && k != i ==> r.actors[k] == s.actors[k];
      assert NobodyClears(s.actors);
    }
    Moved(s, r, i, a);
  }

  lemma SnappedTimed(s: State, i: nat, granted: bool)
    requires Timed(s) && i < |s.actors| && s.actors[i].Faulting?
    ensures Timed(Snapped(s, i, granted))
  {
    var grown := s.(sizes := s.sizes[s.next := s.varCount]);
    assert InPlace(s, s.actors[i]);
    assert Timed(grown) by {
      forall k | 0 <= k < |s.actors|
        ensures InPlace(grown, s.actors[k])
      {
        assert InPlace(s, s.actors[k]);
      }
    }
    var r := Snapped(s, i, granted);
    assert InPlace(r, r.actors[i]);
    hide Timed, InPlace;
    MovedAlone(if granted then grown else s, r, i, r.actors[i]);
  }

  lemma ExchangedTimed(s: State, i: nat, d: Design)
    requires Timed(s) && i < |s.actors| && s.actors[i].Parking?
    ensures Timed(Exchanged(s, i, d))
  {
    var r := Exchanged(s, i, d);
    assert InPlace(s, s.actors[i]);
    forall k | 0 <= k < |s.actors| && k != i
      ensures InPlace(r, s.actors[k])
    {
      assert InPlace(s, s.actors[k]);
    }
    Moved(s, r, i, r.actors[i]);
  }

  lemma TakenOutTimed(s: State, i: nat, a: Actor)
    requires Timed(s) && i < |s.actors|
    requires InPlace(TakenOut(s, i, a), a) && (Unloads(a) ==> Unloads(s.actors[i]))
    ensures Timed(TakenOut(s, i, a))
  {
    var r := TakenOut(s, i, a);
    forall k | 0 <= k < |s.actors| && k != i
      ensures InPlace(r, s.actors[k])
    {
      assert InPlace(s, s.actors[k]);
    }
    hide InPlace;
    Moved(s, r, i, a);
  }

  lemma ClearedTimed(s: State, i: nat)
    requires Timed(s) && i < |s.actors| && s.actors[i].Idle?
    ensures Timed(Cleared(s, i))
  {
    var r := Cleared(s, i);
    if r != s {
      forall k | 0 <= k < |s.actors| && k != i
        ensures InPlace(r, s.actors[k])
      {
        assert InPlace(s, s.actors[k]);
      }
      assert r.actors[i].Clearing?;
      Moved(s, r, i, Clearing);
    }
  }

  /** A new script: the unload before it left the slot empty, and nobody else unloads or parks. */
  lemma LoadedTimed(s: State, i: nat, varCount: nat)
    requires Timed(s) && i < |s.actors| && s.actors[i].Unloaded? && s.vars.None? && varCount > 0
    ensures Timed(Put(s.(varCount := varCount), i, Idle))
  {
    var r := Put(s.(varCount := varCount), i, Idle);
    assert InPlace(s, s.actors[i]);
    forall k | 0 <= k < |s.actors| && k != i
      ensures InPlace(r, s.actors[k])
    {
      assert InPlace(s, s.actors[k]);
      assert Unloads(s.actors[i]) && !Unloads(s.actors[k]);
    }
    Moved(s, r, i, Idle);
  }

  lemma FaultsTimed(s: State, step: Step, i: nat, d: Design)
    requires Timed(s) && i < |s.actors|
    ensures Timed(Faults(s, step, i, d))
  {
    hide Timed, Snapped, Exchanged;
    match (step, s.actors[i]) {
      case (Fault(_), Idle) =>
        if s.varCount > 0 { MovedAlone(s, Put(Fresh(s), i, Faulting(s.next)), i, Faulting(s.next)); }
      case (Copy(_, granted), Faulting(_)) => SnappedTimed(s, i, granted);
      case (Exchange(_), Parking(_, _, _)) => ExchangedTimed(s, i, d);
      case (Post(_), Releasing(None, None, _)) => MovedAlone(s, Posted(s, i), i, Idle);
      case _ =>
    }
  }

  lemma DrainsTimed(s: State, step: Step, i: nat)
    requires Timed(s) && i < |s.actors|
    ensures Timed(Drains(s, step, i))
  {
    SlotIsBooked(s);
    hide Timed;
    match (step, s.actors[i]) {
      case (Collect(_), Idle) => TakenOutTimed(s, i, Collected(s, i).actors[i]);
      case (Read(_, room), Reading(None, v)) => MovedAlone(s, Drained(s, i, room), i, Releasing(None, v, false));
      case _ =>
    }
  }

  lemma ReloadsTimed(s: State, step: Step, i: nat)
    requires Sound(s) && Timed(s) && i < |s.actors|
    ensures Timed(Reloads(s, step, i))
  {
    assert InPlace(s, s.actors[i]);
    UnloadedSlotIsEmpty(s, i);
    hide Sound, Timed, Cleared;
    match (step, s.actors[i]) {
      case (Clear(_), Idle) => ClearedTimed(s, i);
      case (Take(_), Clearing) => TakenOutTimed(s, i, Unloaded(s.thread, s.vars));
      case (Load(_, varCount), Unloaded(None, None)) => if varCount > 0 { LoadedTimed(s, i, varCount); }
      case (Finish(_), Unloaded(None, None)) => MovedAlone(s, Put(s, i, Idle), i, Idle);
      case _ =>
    }
  }

  lemma FreesTimed(s: State, step: Step, i: nat)
    requires Timed(s) && i < |s.actors| && Held(s, s.actors[i])
    ensures Timed(Frees(s, step, i))
  {
    assert InPlace(s, s.actors[i]);
    hide Timed;
    var r := Frees(s, step, i);
    if r != s {
      MovedAlone(s, r, i, r.actors[i]);
    }
  }

  lemma NextTimed(s: State, step: Step, d: Design)
    requires Sound(s) && Timed(s)
    ensures Timed(Next(s, step, d))
  {
    hide Sound, Timed, Faults, Drains, Reloads, Frees, Held;
    var i := step.who;
    if i < |s.actors| {
      HandsAreLive(s, i);
      FaultsTimed(s, step, i, d);
      DrainsTimed(s, step, i);
      ReloadsTimed(s, step, i);
      FreesTimed(s, step, i);
    }
  }

  lemma SlotIsBooked(s: State)
    requires Timed(s)
    ensures Booked(s, s.vars)
  {
  }

  /** A load never finds anything parked: the exchange of its unload emptied the slot and nothing faulted since. */
  lemma UnloadedSlotIsEmpty(s: State, i: nat)
    requires Sound(s) && Timed(s) && i < |s.actors|
    ensures s.actors[i].Unloaded? ==> s.thread.None? && s.vars.None? && s.varCount == 0
  {
    assert InPlace(s, s.actors[i]);
    hide Hands;
  }

  lemma {:induction false} RunTimed(s: State, steps: seq<Step>, d: Design)
    requires Sound(s) && Timed(s)
    ensures Timed(Run(s, steps, d))
    decreases |steps|
  {
    hide Sound, Timed, Next;
    if steps != [] {
      NextKeeps(s, steps[0], d);
      NextTimed(s, steps[0], d);
      RunTimed(Next(s, steps[0], d), steps[1..], d);
    }
  }

  /**
    Under every interleaving, unloads and loads of other scripts included: a parked
    snapshot has one word for each of the loaded script's globals, except exactly while
    an unload is between clearing the count and its exchange; the count is 0 then.
  */
  lemma ParkedSnapshotsFit(actors: nat, varCount: nat, steps: seq<Step>, d: Design)
    ensures var s := Run(Init(actors, varCount), steps, d);
            s.vars.Some? ==>
              && s.vars.value in s.sizes
              && (s.sizes[s.vars.value] == s.varCount <==> NobodyClears(s.actors))
              && (!NobodyClears(s.actors) ==> s.varCount == 0)
  {
    hide Run, Sound, Hands;
    StartsTimed(actors, varCount);
    hide Init;
    RunTimed(Init(actors, varCount), steps, d);
    var s := Run(Init(actors, varCount), steps, d);
    assert forall i :: 0 <= i < |s.actors| ==> InPlace(s, s.actors[i]);
  }

  /** Under every interleaving a load finds the slot empty. */
  lemma LoadsFindTheSlotEmpty(actors: nat, varCount: nat, steps: seq<Step>, d: Design, i: nat)
    requires i < |Run(Init(actors, varCount), steps, d).actors|
    ensures var s := Run(Init(actors, varCount), steps, d);
            s.actors[i].Unloaded? ==> s.thread.None? && s.vars.None? && s.varCount == 0
  {
    hide Run, Sound, Hands;
    StartsTimed(actors, varCount);
    hide Init;
    RunTimed(Init(actors, varCount), steps, d);
    UnloadedSlotIsEmpty(Run(Init(actors, varCount), steps, d), i);
  }

  lemma StartsTimed(actors: nat, varCount: nat)
    ensures Timed(Init(actors, varCount))
  {
    hide Sound;
  }

  // ---- draining ------------------------------------------------------------------------

  /** Nobody moves but others, and this actor to release the thread it took. */
  predicate Meanwhile(steps: seq<Step>, who: nat) {
    forall k :: 0 <= k < |steps| ==> steps[k].who != who || steps[k].FreeThread?
  }

  /** No script with more than `n` globals is loaded by these. */
  predicate NoLargerLoad(steps: seq<Step>, n: nat) {
    forall k :: 0 <= k < |steps| && steps[k].Load? ==> steps[k].varCount <= n
  }

  /** The client still has this snapshot to read. */
  predicate HasToRead(s: State, who: nat, v: nat) {
    who < |s.actors| && s.actors[who].Reading? && s.actors[who].oldVars == Some(v) && v in s.sizes && v < s.next
  }

  /** What a step leaves alone: the other actors, and what is booked of earlier snapshots. */
  ghost predicate Framed(s: State, r: State, i: nat, count: nat) {
    && i < |s.actors| && |r.actors| == |s.actors|
    && (forall k :: 0 <= k < |s.actors| && k != i ==> r.actors[k] == s.actors[k])
    && s.next <= r.next && (forall b :: b in s.sizes && b < s.next ==> b in r.sizes && r.sizes[b] == s.sizes[b])
    && r.varCount <= Max(s.varCount, count)
  }

  lemma FaultsFrame(s: State, step: Step, i: nat, d: Design)
    requires i < |s.actors|
    ensures Framed(s, Faults(s, step, i, d), i, 0)
  {
  }

  lemma DrainsFrame(s: State, step: Step, i: nat)
    requires i < |s.actors|
    ensures Framed(s, Drains(s, step, i), i, 0)
  {
  }

  lemma ReloadsFrame(s: State, step: Step, i: nat)
    requires i < |s.actors|
    ensures Framed(s, Reloads(s, step, i), i, if step.Load? then step.varCount else 0)
  {
  }

  lemma FreesFrame(s: State, step: Step, i: nat)
    requires i < |s.actors| && Held(s, s.actors[i])
    ensures Framed(s, Frees(s, step, i), i, 0)
    ensures step.FreeThread? && s.actors[i].Reading? ==>
              var a := Frees(s, step, i).actors[i]; a.Reading? && a.oldVars == s.actors[i].oldVars
  {
  }

  lemma NextFrame(s: State, step: Step, d: Design)
    requires Sound(s) && step.who < |s.actors|
    ensures var i := step.who;
            var r := Next(s, step, d);
            && Framed(s, r, i, if step.Load? then step.varCount else 0)
            && (step.FreeThread? && s.actors[i].Reading? ==>
                  r.actors[i].Reading? && r.actors[i].oldVars == s.actors[i].oldVars)
  {
    HandsAreLive(s, step.who);
    hide Sound, Faults, Drains, Reloads, Frees, Held, Framed;
    FaultsFrame(s, step, step.who, d);
    DrainsFrame(s, step, step.who);
    ReloadsFrame(s, step, step.who);
    FreesFrame(s, step, step.who);
  }

  lemma NextHasToRead(s: State, step: Step, d: Design, who: nat, v: nat)
    requires Sound(s) && HasToRead(s, who, v) && (step.who != who || step.FreeThread?)
    ensures var r := Next(s, step, d); HasToRead(r, who, v) && r.sizes[v] == s.sizes[v]
    ensures Next(s, step, d).varCount <= Max(s.varCount, if step.Load? then step.varCount else 0)
  {
    if step.who < |s.actors| {
      NextFrame(s, step, d);
      hide Sound, Next;
    }
  }

  lemma {:induction false} RunHasToRead(s: State, steps: seq<Step>, d: Design, who: nat, v: nat, n: nat)
    requires Sound(s) && HasToRead(s, who, v) && Meanwhile(steps, who)
    ensures var r := Run(s, steps, d); HasToRead(r, who, v) && r.sizes[v] == s.sizes[v]
    ensures s.varCount <= n && NoLargerLoad(steps, n) ==> Run(s, steps, d).varCount <= n
    decreases |steps|
  {
    hide Sound, Next, HasToRead;
    if steps != [] {
      NextKeeps(s, steps[0], d);
      NextHasToRead(s, steps[0], d, who, v);
      RunHasToRead(Next(s, steps[0], d), steps[1..], d, who, v, n);
    }
  }

  /** What a client takes out has as many words as the loaded script globals, or no script is loaded. */
  lemma CollectsWhatFits(s: State, who: nat)
    requires Sound(s) && Timed(s) && who < |s.actors| && s.actors[who].Idle? && s.vars.Some?
    ensures var r := Collected(s, who);
            HasToRead(r, who, s.vars.value) && (r.varCount == 0 || r.varCount == r.sizes[s.vars.value])
  {
    assert Slot(s)[s.vars.value] > 0;
    assert s.vars.value in multiset(s.live);
    hide Hands;
    if !NobodyClears(s.actors) {
      var i :| 0 <= i < |s.actors| && s.actors[i].Clearing?;
      assert InPlace(s, s.actors[i]);
    }
  }

  /** `r` is a state in which a client is about to read the snapshot it took out of `s`, others having moved since. */
  ghost predicate Draining(s: State, between: seq<Step>, d: Design, who: nat, r: State) {
    && Sound(s) && Timed(s) && who < |s.actors| && s.actors[who].Idle? && s.vars.Some?
    && Sound(Collected(s, who)) && Meanwhile(between, who) && r == Run(Collected(s, who), between, d)
    && who < |r.actors| && r.actors[who] == Reading(None, s.vars)
  }

  /** The latest answer holds no more than the snapshot did, at four bytes a word. */
  predicate LastInside(answered: seq<Answer>) {
    answered != [] ==> answered[|answered| - 1].bytes <= 4 * answered[|answered| - 1].words
  }

  lemma DrainingReads(s: State, between: seq<Step>, d: Design, who: nat, r: State, n: nat)
    requires Draining(s, between, d, who, r)
    ensures Sound(r) && HasToRead(r, who, s.vars.value) && s.vars.value in s.sizes
    ensures r.sizes[s.vars.value] == s.sizes[s.vars.value]
    ensures n == s.sizes[s.vars.value] && NoLargerLoad(between, n) ==> r.varCount <= n
  {
    CollectsWhatFits(s, who);
    hide Run, Timed, Sound, HasToRead;
    RunHasToRead(Collected(s, who), between, d, who, s.vars.value, n);
  }

  lemma ReadAnswers(r: State, who: nat, v: nat, room: nat, d: Design)
    requires Sound(r) && HasToRead(r, who, v) && r.actors[who].oldThread == None
    ensures Next(r, Read(who, room), d).answered == r.answered + [Answer(Min(room, 4 * r.varCount), r.sizes[v])]
  {
    hide Sound;
  }

  /**
    A drain, with anything in between its taking the snapshot and its reading it. The
    copy stays inside the snapshot, whatever room the client offers, exactly when the
    script loaded by then has no more globals than the snapshot has words; so always
    when no script with more of them was loaded in between.
  */
  lemma DrainsStayInside(s: State, between: seq<Step>, d: Design, who: nat, r: State, n: nat)
    requires Draining(s, between, d, who, r) && s.vars.value in s.sizes && n == s.sizes[s.vars.value]
    ensures Sound(r)
    ensures forall room: nat ::
              Next(r, Read(who, room), d).answered == r.answered + [Answer(Min(room, 4 * r.varCount), n)]
    ensures (forall room: nat :: LastInside(Next(r, Read(who, room), d).answered)) <==> r.varCount <= n
    ensures NoLargerLoad(between, n) ==> r.varCount <= n
  {
    hide Draining, Run, Sound, Timed, Next, HasToRead;
    DrainingActor(s, between, d, who, r);
    DrainingReads(s, between, d, who, r, n);
    forall room: nat
      ensures Next(r, Read(who, room), d).answered == r.answered + [Answer(Min(room, 4 * r.varCount), n)]
    {
      ReadAnswers(r, who, s.vars.value, room, d);
    }
    var all := Next(r, Read(who, 4 * r.varCount), d).answered;
    assert all[|all| - 1] == Answer(4 * r.varCount, n);
  }

  lemma DrainingActor(s: State, between: seq<Step>, d: Design, who: nat, r: State)
    requires Draining(s, between, d, who, r)
    ensures s.vars.Some? && who < |r.actors| && r.actors[who] == Reading(None, s.vars)
  {
    hide Run, Sound, Timed;
  }
}

/**
  The post-mortem slot under every interleaving. A faulting thread, a client that
  collects and a script unload all exchange the slot's contents; each does it in
  several steps, any other actor may run between two of them, and only the exchange
  itself is made under the lock.
*/
module FaultSlot {
  import opened Words
  import opened SchedPass

  /** Where an actor is in its code, with the blocks it holds. */
  datatype Actor =
    | Idle
    | Faulting(thread: nat)                                 // a thread just stopped
    | Parking(thread: nat, vars: Option<nat>, peeked: bool) // its snapshot was tried, the exchange comes next
    | Reading(oldThread: Option<nat>, oldVars: Option<nat>) // a client took both, the answer is yet to be copied
    | Clearing                                              // an unload cleared the count, its exchange comes next
    | Unloaded(oldThread: Option<nat>, oldVars: Option<nat>)
    | Releasing(oldThread: Option<nat>, oldVars: Option<nat>, owed: bool)

  /** One drained snapshot: the bytes copied out of it and the words there were in it. */
  datatype Answer = Answer(bytes: nat, words: nat)

  /**
    `live` are the allocated blocks, `emptied` counts the exchanges that took a thread
    out and put none in, and `varCount` is the loaded script's, 0 when there is none.
    `sizes` books how many words were copied into each snapshot, `answered` the drains.
  */
  datatype State = State(
    live: set<nat>, next: nat, thread: Option<nat>, vars: Option<nat>, actors: seq<Actor>,
    signals: nat, emptied: nat, varCount: nat, sizes: map<nat, nat>, answered: seq<Answer>)

  /** One step of one actor. A step its actor is not ready for does nothing. */
  datatype Step =
    | Fault(who: nat)                  // a thread of this actor's pass faults
    | Copy(who: nat, granted: bool)    // allocate and fill the copy of the globals
    | Exchange(who: nat)               // put the new occupant in, take the old one out
    | Post(who: nat)                   // signal, if the exchange found the slot empty
    | Collect(who: nat)                // a client takes the occupant out
    | Read(who: nat, room: nat)        // copy as much of the snapshot as fits, by the count of the moment
    | Clear(who: nat)                  // an unload begins: no script, no globals
    | Take(who: nat)                   // and takes the occupant out
    | Load(who: nat, varCount: nat)    // a new script follows
    | Finish(who: nat)                 // or none does
    | FreeThread(who: nat)
    | FreeVars(who: nat)

  /** Whether the exchange itself decides if the slot was empty, or a look at it beforehand. */
  datatype Design = Inside | Beforehand

  function Put(s: State, i: nat, a: Actor): State
    requires i < |s.actors|
  {
    s.(actors := s.actors[i := a])
  }

  function Fresh(s: State): State {
    s.(live := s.live + {s.next}, next := s.next + 1)
  }

  function Snapped(s: State, i: nat, granted: bool): State
    requires i < |s.actors| && s.actors[i].Faulting?
  {
    var t := s.actors[i].thread;
    if granted then
      Put(Fresh(s).(sizes := s.sizes[s.next := s.varCount]), i, Parking(t, Some(s.next), s.thread.None?))
    else Put(s, i, Parking(t, None, s.thread.None?))
  }

  function Exchanged(s: State, i: nat, d: Design): State
    requires i < |s.actors| && s.actors[i].Parking?
  {
    var a := s.actors[i];
    Put(s.(thread := Some(a.thread), vars := a.vars), i,
        Releasing(s.thread, s.vars, if d.Inside? then s.thread.None? else a.peeked))
  }

  function TakenOut(s: State, i: nat, a: Actor): State
    requires i < |s.actors|
  {
    Put(s.(thread := None, vars := None, emptied := s.emptied + Count(s.thread)), i, a)
  }

  /** `core_sched_fault_take`; without a thread there is nothing to answer. */
  function Collected(s: State, i: nat): State
    requires i < |s.actors|
  {
    TakenOut(s, i, if s.thread.Some? then Reading(s.thread, s.vars) else Releasing(None, s.vars, false))
  }

  /** The answer is cut to the room left and to the variable count, whatever script that count is of by now. */
  function Drained(s: State, i: nat, room: nat): State
    requires i < |s.actors| && s.actors[i].Reading?
  {
    var v := s.actors[i].oldVars;
    var answer := if v.Some? && v.value in s.sizes then [Answer(Min(room, 4 * s.varCount), s.sizes[v.value])] else [];
    Put(s.(answered := s.answered + answer), i, Releasing(s.actors[i].oldThread, v, false))
  }

  /** Release one of the two blocks an exchange took out. */
  function Released(s: State, i: nat, b: nat, a: Actor): State
    requires i < |s.actors| && b in s.live
  {
    Put(s.(live := Freed(s.live, b)), i, a)
  }

  function Posted(s: State, i: nat): State
    requires i < |s.actors| && s.actors[i].Releasing?
  {
    Put(s.(signals := s.signals + if s.actors[i].owed then 1 else 0), i, Idle)
  }

  /** No pass is between a fault and its exchange. */
  predicate NobodyParks(actors: seq<Actor>) {
    forall i :: 0 <= i < |actors| ==> !actors[i].Faulting? && !actors[i].Parking?
  }

  /** No unload is under way. */
  predicate NobodyUnloads(actors: seq<Actor>) {
    forall i :: 0 <= i < |actors| ==> !actors[i].Clearing? && !actors[i].Unloaded?
  }

  /** An unload begins only while no pass is in flight and no other unload is under way. */
  function Cleared(s: State, i: nat): State
    requires i < |s.actors|
  {
    if NobodyParks(s.actors) && NobodyUnloads(s.actors) then Put(s.(varCount := 0), i, Clearing) else s
  }

  /** The steps of a pass: a fault, its snapshot, the exchange and the signal. */
  function Faults(s: State, step: Step, i: nat, d: Design): State
    requires i < |s.actors|
  {
    match (step, s.actors[i])
    case (Fault(_), Idle) => if s.varCount > 0 then Put(Fresh(s), i, Faulting(s.next)) else s
    case (Copy(_, granted), Faulting(_)) => Snapped(s, i, granted)
    case (Exchange(_), Parking(_, _, _)) => Exchanged(s, i, d)
    case (Post(_), Releasing(None, None, _)) => Posted(s, i)
    case _ => s
  }

  /** The steps of a client that drains the slot. */
  function Drains(s: State, step: Step, i: nat): State
    requires i < |s.actors|
  {
    match (step, s.actors[i])
    case (Collect(_), Idle) => Collected(s, i)
    case (Read(_, room), Reading(None, _)) => Drained(s, i, room)
    case _ => s
  }

  /** The steps of an unload, and of the load that may follow. */
  function Reloads(s: State, step: Step, i: nat): State
    requires i < |s.actors|
  {
    match (step, s.actors[i])
    case (Clear(_), Idle) => Cleared(s, i)
    case (Take(_), Clearing) => TakenOut(s, i, Unloaded(s.thread, s.vars))
    case (Load(_, varCount), Unloaded(None, None)) =>
      if varCount > 0 then Put(s.(varCount := varCount), i, Idle) else s
    case (Finish(_), Unloaded(None, None)) => Put(s, i, Idle)
    case _ => s
  }

  /** What an actor took out of the slot and still holds. */
  function TookOut(a: Actor): (Option<nat>, Option<nat>) {
    if a.Reading? || a.Unloaded? || a.Releasing? then (a.oldThread, a.oldVars) else (None, None)
  }

  /** The same place in the code, holding these. */
  function Keeping(a: Actor, t: Option<nat>, v: Option<nat>): Actor {
    if a.Reading? then Reading(t, v) else if a.Unloaded? then Unloaded(t, v)
    else if a.Releasing? then Releasing(t, v, a.owed) else a
  }

  /** Both blocks an actor took out can be released. */
  predicate Held(s: State, a: Actor) {
    var (t, v) := TookOut(a);
    (t.Some? ==> t.value in s.live) && (v.Some? ==> v.value in s.live)
  }

  /** Releasing what was taken out. A client releases the snapshot only after it has read it. */
  function Frees(s: State, step: Step, i: nat): State
    requires i < |s.actors| && Held(s, s.actors[i])
  {
    var a := s.actors[i];
    var (t, v) := TookOut(a);
    if step.FreeThread? && t.Some? then Released(s, i, t.value, Keeping(a, None, v))
    else if step.FreeVars? && v.Some? && !a.Reading? then Released(s, i, v.value, Keeping(a, t, None))
    else s
  }

  function Next(s: State, step: Step, d: Design): State
    requires Sound(s)
  {
    var i := step.who;
    if i >= |s.actors| then s
    else
      HandsAreLive(s, i);
      match step
      case Fault(_) => Faults(s, step, i, d)
      case Copy(_, _) => Faults(s, step, i, d)
      case Exchange(_) => Faults(s, step, i, d)
      case Post(_) => Faults(s, step, i, d)
      case Collect(_) => Drains(s, step, i)
      case Read(_, _) => Drains(s, step, i)
      case FreeThread(_) => Frees(s, step, i)
      case FreeVars(_) => Frees(s, step, i)
      case _ => Reloads(s, step, i)
  }

  /** A block can be released only while it is allocated. */
  function Freed(live: set<nat>, b: nat): set<nat>
    requires b in live
  {
    live - {b}
  }

  function Count(t: Option<nat>): nat {
    if t.Some? then 1 else 0
  }

  // ---- ownership -----------------------------------------------------------------

  ghost function Hand(a: Actor): multiset<nat> {
    match a
    case Idle => multiset{}
    case Faulting(t) => multiset{t}
    case Parking(t, v, _) => multiset{t} + Opt(v)
    case Reading(t, v) => Opt(t) + Opt(v)
    case Clearing => multiset{}
    case Unloaded(t, v) => Opt(t) + Opt(v)
    case Releasing(t, v, _) => Opt(t) + Opt(v)
  }

  ghost function Hands(actors: seq<Actor>): multiset<nat> {
    if actors == [] then multiset{} else Hand(actors[0]) + Hands(actors[1..])
  }

  /** Every allocated block has exactly one owner: the slot or one actor. */
  ghost predicate Sound(s: State) {
    && Slot(s) + Hands(s.actors) == multiset(s.live)
    && (forall b :: b in s.live ==> b < s.next)
    && (s.vars.Some? ==> s.thread.Some?)
  }

  lemma {:induction false} HandsSplit(actors: seq<Actor>, i: nat)
    requires i < |actors|
    ensures Hands(actors) == Hands(actors[..i]) + Hand(actors[i]) + Hands(actors[i + 1..])
    decreases i
  {
    hide Hand;
    if i == 0 {
      assert actors[..0] == [];
    } else {
      HandsSplit(actors[1..], i - 1);
      assert actors[1..][..i - 1] == actors[..i][1..] && actors[1..][i..] == actors[i + 1..];
      assert Hands(actors[..i]) == Hand(actors[0]) + Hands(actors[..i][1..]);
    }
  }

  /** The blocks an actor does not hold, whatever its own state. */
  ghost function Others(actors: seq<Actor>, i: nat): multiset<nat>
    requires i < |actors|
  {
    Hands(actors[..i]) + Hands(actors[i + 1..])
  }

  lemma HandsUpdate(actors: seq<Actor>, i: nat, a: Actor)
    requires i < |actors|
    ensures Hands(actors[i := a]) == Others(actors, i) + Hand(a)
    ensures Hands(actors) == Others(actors, i) + Hand(actors[i])
  {
    HandsSplit(actors, i);
    HandsSplit(actors[i := a], i);
    assert actors[i := a][..i] == actors[..i] && actors[i := a][i + 1..] == actors[i + 1..];
  }

  lemma HandsAreLive(s: State, i: nat)
    requires Sound(s) && i < |s.actors|
    ensures forall b :: b in Hand(s.actors[i]) ==> b in s.live
    ensures Held(s, s.actors[i])
  {
    HandsSplit(s.actors, i);
    hide Hands;
    forall b | b in Hand(s.actors[i])
      ensures b in s.live
    {
      assert b in multiset(s.live);
    }
    var (t, v) := TookOut(s.actors[i]);
    assert t.Some? ==> t.value in Hand(s.actors[i]);
    assert v.Some? ==> v.value in Hand(s.actors[i]);
  }

  ghost function Slot(s: State): multiset<nat> {
    Opt(s.thread) + Opt(s.vars)
  }

  lemma Cancel(slot0: multiset<nat>, hand0: multiset<nat>, live0: multiset<nat>, others: multiset<nat>,
               slot1: multiset<nat>, hand1: multiset<nat>, live1: multiset<nat>)
    requires slot0 + (others + hand0) == live0
    requires slot1 + hand1 + live0 == slot0 + hand0 + live1
    ensures slot1 + (others + hand1) == live1
  {
    forall b
      ensures (slot1 + (others + hand1))[b] == live1[b]
    {
      assert (slot0 + (others + hand0))[b] == live0[b];
      assert (slot1 + hand1 + live0)[b] == (slot0 + hand0 + live1)[b];
    }
  }

  /** A step that moves blocks between slot, hand and heap alone keeps the ownership sound. */
  lemma Balance(s: State, r: State, i: nat, a: Actor)
    requires Sound(s) && i < |s.actors| && r.actors == s.actors[i := a]
    requires Slot(r) + Hand(a) + multiset(s.live) == Slot(s) + Hand(s.actors[i]) + multiset(r.live)
    ensures Slot(r) + Hands(r.actors) == multiset(r.live)
  {
    HandsUpdate(s.actors, i, a);
    hide Hands, Others, Hand;
    Cancel(Slot(s), Hand(s.actors[i]), multiset(s.live), Others(s.actors, i), Slot(r), Hand(a), multiset(r.live));
  }

  lemma FaultKeeps(s: State, i: nat)
    requires Sound(s) && i < |s.actors| && s.actors[i].Idle?
    ensures Sound(Put(Fresh(s), i, Faulting(s.next)))
  {
    hide Hands, Opt;
    var r := Put(Fresh(s), i, Faulting(s.next));
    assert multiset(r.live) == multiset(s.live) + multiset{s.next};
    Balance(s, r, i, Faulting(s.next));
  }

  lemma SnapshotKeeps(s: State, i: nat, granted: bool)
    requires Sound(s) && i < |s.actors| && s.actors[i].Faulting?
    ensures Sound(Snapped(s, i, granted))
  {
    hide Hands;
    var r := Snapped(s, i, granted);
    assert granted ==> multiset(r.live) == multiset(s.live) + multiset{s.next};
    Balance(s, r, i, r.actors[i]);
  }

  lemma ExchangeKeeps(s: State, i: nat, d: Design)
    requires Sound(s) && i < |s.actors| && s.actors[i].Parking?
    ensures Sound(Exchanged(s, i, d))
  {
    hide Hands;
    var r := Exchanged(s, i, d);
    assert Opt(r.thread) == multiset{s.actors[i].thread};
    hide Opt;
    Balance(s, r, i, r.actors[i]);
  }

  lemma TakeOutKeeps(s: State, i: nat, a: Actor)
    requires Sound(s) && i < |s.actors| && Hand(s.actors[i]) == multiset{} && Hand(a) == Opt(s.thread) + Opt(s.vars)
    ensures Sound(TakenOut(s, i, a))
  {
    hide Hands, Hand;
    Balance(s, TakenOut(s, i, a), i, a);
  }

  lemma CollectKeeps(s: State, i: nat)
    requires Sound(s) && i < |s.actors| && s.actors[i].Idle?
    ensures Sound(Collected(s, i))
  {
    hide Hands;
    TakeOutKeeps(s, i, Collected(s, i).actors[i]);
  }

  /** A step that changes books and counts, and what an actor does next, but not what it holds. */
  lemma MoveKeeps(s: State, r: State, i: nat, a: Actor)
    requires Sound(s) && i < |s.actors| && Hand(a) == Hand(s.actors[i])
    requires r == s.(actors := s.actors[i := a], varCount := r.varCount, answered := r.answered, signals := r.signals)
    ensures Sound(r)
  {
    hide Hands, Hand, Opt;
    Balance(s, r, i, a);
  }

  lemma ReleaseKeeps(s: State, i: nat, b: nat, a: Actor)
    requires Sound(s) && i < |s.actors| && b in s.live
    requires Hand(s.actors[i]) == Hand(a) + multiset{b}
    ensures Sound(Released(s, i, b, a))
  {
    hide Hands, Opt, Hand;
    var r := Released(s, i, b, a);
    assert multiset(r.live) + multiset{b} == multiset(s.live);
    Balance(s, r, i, a);
  }

  lemma FaultsKeep(s: State, step: Step, i: nat, d: Design)
    requires Sound(s) && i < |s.actors|
    ensures Sound(Faults(s, step, i, d))
  {
    hide Sound, Snapped, Exchanged, Opt, Hands;
    match (step, s.actors[i]) {
      case (Fault(_), Idle) => if s.varCount > 0 { FaultKeeps(s, i); }
      case (Copy(_, granted), Faulting(_)) => SnapshotKeeps(s, i, granted);
      case (Exchange(_), Parking(_, _, _)) => ExchangeKeeps(s, i, d);
      case (Post(_), Releasing(None, None, _)) =>
        NoneHeld();
        MoveKeeps(s, Posted(s, i), i, Idle);
      case _ =>
    }
  }

  lemma DrainsKeep(s: State, step: Step, i: nat)
    requires Sound(s) && i < |s.actors|
    ensures Sound(Drains(s, step, i))
  {
    hide Sound, Collected, Opt, Hands;
    match (step, s.actors[i]) {
      case (Collect(_), Idle) => CollectKeeps(s, i);
      case (Read(_, room), Reading(None, v)) => MoveKeeps(s, Drained(s, i, room), i, Releasing(None, v, false));
      case _ =>
    }
  }

  lemma ReloadsKeep(s: State, step: Step, i: nat)
    requires Sound(s) && i < |s.actors|
    ensures Sound(Reloads(s, step, i))
  {
    hide Sound, Opt, Hands;
    var r := Reloads(s, step, i);
    match (step, s.actors[i]) {
      case (Clear(_), Idle) => if r != s { MoveKeeps(s, r, i, Clearing); }
      case (Take(_), Clearing) => TakeOutKeeps(s, i, Unloaded(s.thread, s.vars));
      case (Load(_, _), Unloaded(None, None)) =>
        NoneHeld();
        if r != s { MoveKeeps(s, r, i, Idle); }
      case (Finish(_), Unloaded(None, None)) =>
        NoneHeld();
        MoveKeeps(s, r, i, Idle);
      case _ =>
    }
  }

  /** Giving one of the two back. */
  lemma HandKeeping(a: Actor)
    ensures var (t, v) := TookOut(a);
            && (t.Some? ==> Hand(a) == Hand(Keeping(a, None, v)) + multiset{t.value})
            && (v.Some? ==> Hand(a) == Hand(Keeping(a, t, None)) + multiset{v.value})
  {
    hide Opt, Hand;
    var (t, v) := TookOut(a);
    if t.Some? {
      OneMore(t.value, v);
      HandIs(a);
      HandIs(Keeping(a, None, v));
    }
    if v.Some? {
      OneMore(v.value, t);
      HandIs(a);
      HandIs(Keeping(a, t, None));
    }
  }

  lemma HandIs(a: Actor)
    requires a.Reading? || a.Unloaded? || a.Releasing?
    ensures Hand(a) == Opt(a.oldThread) + Opt(a.oldVars)
  {
    hide Opt;
  }

  lemma OneMore(b: nat, rest: Option<nat>)
    ensures Opt(Some(b)) + Opt(rest) == Opt(None) + Opt(rest) + multiset{b}
    ensures Opt(rest) + Opt(Some(b)) == Opt(rest) + Opt(None) + multiset{b}
  {
  }

  lemma FreesKeep(s: State, step: Step, i: nat)
    requires Sound(s) && i < |s.actors| && Held(s, s.actors[i])
    ensures Sound(Frees(s, step, i))
  {
    hide Sound, Hands, Hand, Keeping;
    var a := s.actors[i];
    var (t, v) := TookOut(a);
    HandKeeping(a);
    if step.FreeThread? && t.Some? {
      ReleaseKeeps(s, i, t.value, Keeping(a, None, v));
    } else if step.FreeVars? && v.Some? && !a.Reading? {
      ReleaseKeeps(s, i, v.value, Keeping(a, t, None));
    }
  }

  lemma NextKeeps(s: State, step: Step, d: Design)
    requires Sound(s)
    ensures Sound(Next(s, step, d))
  {
    hide Sound, Faults, Drains, Reloads, Frees, Held;
    var i := step.who;
    if i < |s.actors| {
      HandsAreLive(s, i);
      FaultsKeep(s, step, i, d);
      DrainsKeep(s, step, i);
      ReloadsKeep(s, step, i);
      FreesKeep(s, step, i);
    }
  }

  lemma NoneHeld()
    ensures Opt(None) + Opt(None) == multiset{}
  {
  }

  // ---- every schedule --------------------------------------------------------------

  function Run(s: State, steps: seq<Step>, d: Design): (r: State)
    requires Sound(s)
    ensures Sound(r)
    decreases |steps|
  {
    hide Sound, Next;
    if steps == [] then s
    else
      NextKeeps(s, steps[0], d);
      Run(Next(s, steps[0], d), steps[1..], d)
  }

  /** Nothing parked and every actor idle, a script with so many globals loaded, or none. */
  function Init(actors: nat, varCount: nat): (s: State)
    ensures Sound(s)
  {
    IdleHands(actors);
    State({}, 0, None, None, seq(actors, i => Idle), 0, 0, varCount, map[], [])
  }

  lemma {:induction false} IdleHands(n: nat)
    ensures Hands(seq(n, i => Idle)) == multiset{}
    decreases n
  {
    if n > 0 {
      var actors := seq(n, i => Idle);
      assert actors[1..] == seq(n - 1, i => Idle);
      IdleHands(n - 1);
    }
  }

  /**
    However faults, collections and unloads interleave, an allocated block has
    exactly one owner, the slot or one actor, and a released one none. Releasing
    demands an allocated block, so nothing is ever released twice.
  */
  lemma EveryBlockHasOneOwner(actors: nat, varCount: nat, steps: seq<Step>, d: Design, b: nat)
    ensures var s := Run(Init(actors, varCount), steps, d);
            (Opt(s.thread) + Opt(s.vars) + Hands(s.actors))[b] == if b in s.live then 1 else 0
  {
    hide Run, Init, Hands, Opt;
    var s := Run(Init(actors, varCount), steps, d);
    assert (Slot(s) + Hands(s.actors))[b] == multiset(s.live)[b];
  }

  // ---- signals -----------------------------------------------------------------------

  function Owed(a: Actor): nat {
    if a.Releasing? && a.owed then 1 else 0
  }

  /** Signals decided on but not yet posted. */
  function Pending(actors: seq<Actor>): nat {
    if actors == [] then 0 else Owed(actors[0]) + Pending(actors[1..])
  }

  lemma {:induction false} PendingUpdate(actors: seq<Actor>, i: nat, a: Actor)
    requires i < |actors|
    ensures Pending(actors[i := a]) + Owed(actors[i]) == Pending(actors) + Owed(a)
    decreases i
  {
    if i == 0 {
      assert actors[i := a][1..] == actors[1..];
    } else {
      PendingUpdate(actors[1..], i - 1, a);
      assert actors[i := a][1..] == actors[1..][i - 1 := a];
    }
  }

  /** One signal, posted or pending, for each time the slot went from empty to occupied. */
  predicate Signalled(s: State) {
    s.signals + Pending(s.actors) == s.emptied + Count(s.thread)
  }

  /** One actor moved, and signals posted or owed moved with threads put in and taken out. */
  predicate Accounted(s: State, r: State, i: nat) {
    && i < |s.actors| && |r.actors| == |s.actors| && r.actors == s.actors[i := r.actors[i]]
    && r.signals + Owed(r.actors[i]) + s.emptied + Count(s.thread)
    == s.signals + Owed(s.actors[i]) + r.emptied + Count(r.thread)
  }

  lemma FaultsAccounted(s: State, step: Step, i: nat)
    requires i < |s.actors|
    ensures Accounted(s, Faults(s, step, i, Inside), i)
  {
  }

  lemma DrainsAccounted(s: State, step: Step, i: nat)
    requires i < |s.actors|
    ensures Accounted(s, Drains(s, step, i), i)
  {
  }

  lemma ReloadsAccounted(s: State, step: Step, i: nat)
    requires i < |s.actors|
    ensures Accounted(s, Reloads(s, step, i), i)
  {
  }

  lemma FreesAccounted(s: State, step: Step, i: nat)
    requires i < |s.actors| && Held(s, s.actors[i])
    ensures Accounted(s, Frees(s, step, i), i)
  {
  }

  lemma NextSignals(s: State, step: Step)
    requires Sound(s) && Signalled(s)
    ensures Signalled(Next(s, step, Inside))
  {
    hide Sound, Faults, Drains, Reloads, Frees, Held, Pending;
    var i := step.who;
    if i < |s.actors| {
      HandsAreLive(s, i);
      FaultsAccounted(s, step, i);
      DrainsAccounted(s, step, i);
      ReloadsAccounted(s, step, i);
      FreesAccounted(s, step, i);
      var r := Next(s, step, Inside);
      PendingUpdate(s.actors, i, r.actors[i]);
    }
  }

  lemma {:induction false} RunSignals(s: State, steps: seq<Step>)
    requires Sound(s) && Signalled(s)
    ensures Signalled(Run(s, steps, Inside))
    decreases |steps|
  {
    hide Sound, Signalled, Next;
    if steps != [] {
      NextKeeps(s, steps[0], Inside);
      NextSignals(s, steps[0]);
      RunSignals(Next(s, steps[0], Inside), steps[1..]);
    }
  }

  lemma {:induction false} IdleOwesNothing(actors: seq<Actor>)
    requires forall i :: 0 <= i < |actors| ==> actors[i].Idle?
    ensures Pending(actors) == 0
    decreases |actors|
  {
    if actors != [] {
      IdleOwesNothing(actors[1..]);
    }
  }

  /**
    Once every actor has finished, there was one signal for each thread collected
    and one more if a thread is still parked: no parked thread goes unsignalled,
    and a client is told at most once per collection.
  */
  lemma SignalsMatchCollections(actors: nat, varCount: nat, steps: seq<Step>)
    requires forall a :: a in Run(Init(actors, varCount), steps, Inside).actors ==> a.Idle?
    ensures var s := Run(Init(actors, varCount), steps, Inside);
            s.signals == s.emptied + Count(s.thread)
  {
    var start := Init(actors, varCount);
    IdleOwesNothing(start.actors);
    RunSignals(start, steps);
    hide Run, Init;
    IdleOwesNothing(Run(start, steps, Inside).actors);
  }
}

/**
  The entry points: controller input, the re-entrant pass, unloading and loading.
*/
module SchedRun {
  import opened Words
  import opened Script
  import opened SchedState
  import opened SchedInvariant
  import opened SchedPass

  // ---- input binding -------------------------------------------------------------

  const SLOT_BUTTONS: nat := 0x10
  const SLOT_STICK: nat := 0x11
  const SLOT_PRE: nat := 0x12
  const SLOT_POST: nat := 0x13

  /** A handler the packet calls for: its slot among the globals and its arguments. */
  datatype Handler = Handler(slot: nat, args: Args)

  type Args = a: seq<u32> | |a| <= 4

  function Dword(p: Packed): u32 {
    (p[0] as int) + 0x100 * (p[1] as int) + 0x1_0000 * (p[2] as int) + 0x100_0000 * (p[3] as int)
  }

  function ButtonWord(p: Packed): (w: nat)
    ensures w < 0x1_0000
  {
    (p[2] as int) + 0x100 * (p[3] as int)
  }

  /** Bit `15 - n` of the button word: slot n is raw button n. */
  predicate Button(p: Packed, n: nat)
    requires n < 16
  {
    Bit(ButtonWord(p), 15 - n)
  }

  function SignedByte(b: u8): u32 {
    if b < 128 then b else b + 0xFFFF_FF00
  }

  function SignedWord(w: nat): u32
    requires w < 0x1_0000
  {
    if w < 0x8000 then w else w + 0xFFFF_0000
  }

  function ButtonHandlers(cur: Packed, prev: Packed, n: nat): seq<Handler>
    requires n <= 16
    decreases 16 - n
  {
    if n == 16 then []
    else if Button(cur, n) == Button(prev, n) then ButtonHandlers(cur, prev, n + 1)
    else [Handler(n, [if Button(cur, n) then 1 else 0])] + ButtonHandlers(cur, prev, n + 1)
  }

  /** The handlers of one packet, in the order they are spawned. */
  function Handlers(cur: Packed, prev: Packed): seq<Handler> {
    [Handler(SLOT_PRE, [Dword(cur), Dword(prev)])]
    + (if cur[..2] == prev[..2] then [] else
         [Handler(SLOT_STICK, [SignedByte(cur[0]), SignedByte(cur[1]), SignedByte(prev[0]), SignedByte(prev[1])])])
    + (if cur[2..] == prev[2..] then [] else
         [Handler(SLOT_BUTTONS, [SignedWord(ButtonWord(cur)), SignedWord(ButtonWord(prev))])]
         + ButtonHandlers(cur, prev, 0))
    + [Handler(SLOT_POST, [Dword(cur), Dword(prev)])]
  }

  predicate Bound(s: Sched, slot: nat)
    requires Loaded(s) && |s.vars| == s.varCount + LOCALS
  {
    slot < s.varCount && Tag(s.vars[slot]) == TAG_CODE
  }

  /** Only the host changed, and only its lists, heap and books. */
  ghost predicate SameButHost(r: Sched, s: Sched) {
    r == s.(host := r.host)
  }

  /** `sched_spawn_handler`: one thread for a bound slot, with its arguments on its stack. */
  function Spawn(s: Sched, h: Handler, now: u64): (r: Sched)
    requires SchedInv(s) && Loaded(s)
    ensures SchedInv(r) && SameButHost(r, s)
  {
    if !Bound(s, h.slot) then s
    else
      var (host, node) := ThreadAlloc(s.host, |h.args|);
      SpawnKeeps(s, |h.args|);
      var s1 := s.(host := host);
      match node
      case None => s1
      case Some(t) =>
        var pc := TagValue(s.vars[h.slot]);
        Requeue(s1, Armed(t, pc, h.args, now), Start(t, pc, h.args))
  }

  function Armed(t: Thread, pc: nat, args: seq<u32>, now: u64): (r: Thread)
    requires |args| <= |t.stack|
    ensures |r.stack| == |t.stack| && args <= r.stack
  {
    t.(pc := pc, wake := now, stack := args + t.stack[|args|..])
  }

  function Start(t: Thread, pc: nat, args: seq<u32>): Entry {
    Born(t.id, Context(pc, 0, 0, args))
  }

  lemma SpawnKeeps(s: Sched, size: nat)
    requires SchedInv(s) && Loaded(s)
    ensures var (host, node) := ThreadAlloc(s.host, size);
            var s1 := s.(host := host);
            if node.Some? then InHand(s1, node.value) else SchedInv(s1)
  {
    hide HandInv, HostInv, ThreadAlloc, NotReady, Outside;
    var (host, node) := ThreadAlloc(s.host, size);
    AllocKeeps(s.host, Outside(s) + multiset{}, size);
    HostHoldsNothingOutside(s, host);
    assert Outside(s) + multiset{} + Held(node) == Outside(s) + Held(node);
  }

  lemma HostHoldsNothingOutside(s: Sched, host: Host)
    ensures Outside(s.(host := host)) == Outside(s)
  {
  }

  function SpawnAll(s: Sched, hs: seq<Handler>, now: u64): (r: Sched)
    requires SchedInv(s) && Loaded(s)
    ensures SchedInv(r) && SameButHost(r, s)
    decreases |hs|
  {
    if hs == [] then s else SpawnAll(Spawn(s, hs[0], now), hs[1..], now)
  }

  function Pack(raw: Raw): Packed {
    [raw[0], raw[1], raw[3], raw[4]]
  }

  /** Advance the packed pair; true if a script is loaded and something changed. */
  function Advance(s: Sched, raw: Raw): Sched {
    s.(prev := s.cur, cur := Pack(raw))
  }

  predicate Fires(s: Sched, raw: Raw) {
    Loaded(s) && Pack(raw) != s.cur
  }

  /** Everything `core_sched_on_input` does before it asks for a pass. */
  function Input(s: Sched, raw: Raw, now: u64): (r: Sched)
    requires SchedInv(s)
    ensures SchedInv(r) && r == s.(host := r.host, prev := r.prev, cur := r.cur)
    ensures !Fires(s, raw) ==> r.host == s.host
  {
    hide SchedInv, ButtonHandlers, Dword, ButtonWord, SignedByte, SignedWord;
    var s1 := Advance(s, raw);
    AdvanceKeeps(s, raw);
    if Fires(s, raw) then SpawnAll(s1, Handlers(s1.cur, s1.prev), now) else s1
  }

  lemma AdvanceKeeps(s: Sched, raw: Raw)
    requires SchedInv(s)
    ensures SchedInv(Advance(s, raw))
  {
    assert Outside(Advance(s, raw)) == Outside(s);
  }

  // ---- the pass ------------------------------------------------------------------

  /** The arrival kept the state sound, and asked for another sweep unless it added no thread. */
  ghost predicate Arrived(r: Sched, s: Sched) {
    && SchedInv(r) && Loaded(r) == Loaded(s)
    && r.schedTime == s.schedTime && r.running == s.running && r.arrivals == s.arrivals
    && r.sweeps == s.sweeps && r.armed == s.armed && r.emitted == s.emitted
    && r.budget == s.budget && r.executed == s.executed
    && (r.pending == None ==> s.pending == None && r.host.ready == s.host.ready)
  }

  /** A call that reaches the scheduler while a pass is in flight: it never runs a thread. */
  function Arrive(s: Sched, a: Arrival): (r: Sched)
    requires SchedInv(s) && Loaded(s)
    ensures Arrived(r, s)
  {
    match a
    case RunAt(t) =>
      LatchKeeps(s, t);
      Latch(s, t)
    case Packet(raw, t) =>
      var s1 := Input(s, raw, t);
      LatchKeeps(s1, t);
      if Fires(s, raw) then Latch(s1, t) else s1
    case TakeFault => FaultTake(s)
  }

  lemma LatchKeeps(s: Sched, now: u64)
    requires SchedInv(s)
    ensures SchedInv(Latch(s, now))
  {
    assert Outside(Latch(s, now)) == Outside(s);
  }

  function ArriveAll(s: Sched, arrivals: seq<Arrival>): (r: Sched)
    requires SchedInv(s) && Loaded(s)
    ensures Arrived(r, s)
    ensures arrivals == [] ==> r == s
    decreases |arrivals|
  {
    if arrivals == [] then s else ArriveAll(Arrive(s, arrivals[0]), arrivals[1..])
  }

  /** Credit the bucket, run everything due and book the sweep. */
  function SweepOnce(s: Sched, now: u64): (r: Sched)
    requires SchedInv(s) && Loaded(s)
    ensures SchedInv(r) && Loaded(r) && NothingDue(r.host.ready, now)
    ensures r.schedTime == now && r.running == s.running && r.pending == s.pending
    ensures r.arrivals == s.arrivals && r.armed == s.armed
    ensures s.executed <= r.executed && r.sweeps == s.sweeps + [Sweep(now, r.executed - s.executed)]
    ensures r.executed - s.executed <= Max(Credit(s, now).budget, 0) - Max(r.budget, 0)
  {
    hide SchedInv, DispatchAll, Credit, NothingDue, Max;
    CreditKeeps(s, now);
    var s1 := DispatchAll(Credit(s, now), now);
    var s2 := s1.(sweeps := s.sweeps + [Sweep(now, s1.executed - s.executed)]);
    BooksKeep(s1, s2);
    s2
  }

  function Later(arrivals: seq<seq<Arrival>>): seq<seq<Arrival>> {
    if arrivals == [] then [] else arrivals[1..]
  }

  /** What serving callers leaves alone. */
  predicate SameClock(r: Sched, s: Sched) {
    && r.schedTime == s.schedTime && r.running == s.running && r.sweeps == s.sweeps && r.armed == s.armed
    && r.budget == s.budget && r.executed == s.executed
  }

  /** Let the callers of this turn arrive, then drain the events. */
  function Serve(s: Sched): (r: Sched)
    requires SchedInv(s) && Loaded(s)
    ensures SchedInv(r) && Loaded(r) && r.host.events == [] && SameClock(r, s)
    ensures r.arrivals == Later(s.arrivals)
    ensures r.pending == None ==> s.pending == None && r.host.ready == s.host.ready
    ensures s.arrivals == [] ==> r.pending == s.pending
  {
    hide SchedInv, ArriveAll, Drain, Credit;
    var s1 := s.(arrivals := Later(s.arrivals));
    BooksKeep(s, s1);
    Drain(ArriveAll(s1, if s.arrivals == [] then [] else s.arrivals[0]))
  }

  /** One turn of the outer loop. */
  function Turn(s: Sched, now: u64): (r: Sched)
    requires SchedInv(s) && Loaded(s)
    ensures SchedInv(r) && Loaded(r) && r.host.events == [] && r.running == s.running
    ensures r.schedTime == now && r.armed == s.armed
    ensures r.arrivals == Later(s.arrivals)
    ensures s.pending == None && r.pending == None ==> NothingDue(r.host.ready, now)
    ensures s.arrivals == [] ==> r.pending == s.pending
    ensures r.sweeps == s.sweeps + [Sweep(now, r.executed - s.executed)]
    ensures r.executed - s.executed <= Max(Credit(s, now).budget, 0) - Max(r.budget, 0)
  {
    hide SchedInv, SweepOnce, Serve, Credit, NothingDue, Max;
    Serve(SweepOnce(s, now))
  }

  lemma CreditKeeps(s: Sched, now: u64)
    requires SchedInv(s)
    ensures SchedInv(Credit(s, now))
  {
    assert Outside(Credit(s, now)) == Outside(s);
  }

  lemma BooksKeep(s: Sched, r: Sched)
    requires SchedInv(s) && r == s.(arrivals := r.arrivals, sweeps := r.sweeps, running := r.running,
                                    pending := r.pending, armed := r.armed)
    ensures SchedInv(r)
  {
    assert Outside(r) == Outside(s);
  }

  /** What an outermost pass leaves behind. */
  predicate Settled(s: Sched) {
    && !s.running && s.pending == None && s.host.events == []
    && s.sweeps != [] && s.sweeps[|s.sweeps| - 1].now == s.schedTime
    && NothingDue(s.host.ready, s.schedTime)
    && (s.host.ready != [] ==> s.armed != [] && s.armed[|s.armed| - 1] == s.host.ready[0].wake)
  }

  /** The outer loop. It goes round again only for a call that arrived, and finitely many do. */
  function Passes(s: Sched, now: u64): (r: Sched)
    requires SchedInv(s) && Loaded(s) && s.pending == None
    ensures SchedInv(r) && Loaded(r) && Settled(r)
    decreases |s.arrivals|
  {
    hide SchedInv, Turn;
    var s1 := Turn(s, now);
    if s1.pending.Some? then
      var s2 := s1.(pending := None);
      BooksKeep(s1, s2);
      Passes(s2, s1.pending.value)
    else
      var s2 := s1.(running := false,
                    armed := if s1.host.ready == [] then s1.armed else s1.armed + [s1.host.ready[0].wake]);
      BooksKeep(s1, s2);
      s2
  }

  /** `core_sched_run`. */
  function Run(s: Sched, now: u64): (r: Sched)
    requires SchedInv(s) && (!s.running ==> s.pending == None)
    ensures SchedInv(r) && Loaded(r) == Loaded(s)
    ensures Loaded(s) && !s.running ==> Settled(r)
    ensures s.running ==> r == if Loaded(s) then Latch(s, now) else s
  {
    if !Loaded(s) then s
    else if s.running then
      LatchKeeps(s, now);
      Latch(s, now)
    else
      BooksKeep(s, s.(running := true));
      Passes(s.(running := true), now)
  }

  /** `core_sched_on_input`. */
  function OnInput(s: Sched, raw: Raw, now: u64): (r: Sched)
    requires SchedInv(s) && (!s.running ==> s.pending == None)
    ensures SchedInv(r) && Loaded(r) == Loaded(s)
    ensures Fires(s, raw) && !s.running ==> Settled(r)
    ensures !Fires(s, raw) ==> r == Advance(s, raw)
  {
    if Fires(s, raw) then Run(Input(s, raw, now), now) else Input(s, raw, now)
  }
}

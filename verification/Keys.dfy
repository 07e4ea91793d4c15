/**
  The keyboard and mouse-button state machines, and what the host sees of them.
  The keyboard and mouse collections are taken to be enabled, so every report built
  reaches the host.
*/
module Keys {
  import opened Words

  const MOD_FIRST: nat := 0xE0
  const MOD_LAST: nat := 0xE7
  const KEY_FIRST: nat := 0x04
  const KEY_LAST: nat := 0xA4
  const KEYS_MAX: nat := 0xA5
  const REPORTED: nat := 10
  const ROLLOVER: u8 := 1
  const MOUSE_BUTTONS: nat := 3

  /** A keyboard report carries absolute state; a button report has zero movement. */
  datatype Report = Keyboard(mods: bv8, keys: seq<u8>) | Mouse(buttons: bv8)

  datatype State = State(mods: bv8, held: seq<u8>, mouse: bv8, reports: seq<Report>)

  datatype Event = Key(usage: u32, down: bool) | Button(button: u32, down: bool)

  predicate IsKey(usage: nat) {
    KEY_FIRST <= usage <= KEY_LAST
  }

  predicate IsMod(usage: nat) {
    MOD_FIRST <= usage <= MOD_LAST
  }

  function Flag(k: nat): bv8
    requires k < 8
  {
    if k == 0 then 1 else if k == 1 then 2 else if k == 2 then 4 else if k == 3 then 8
    else if k == 4 then 16 else if k == 5 then 32 else if k == 6 then 64 else 128
  }

  function SetBit(b: bv8, k: nat, on: bool): bv8
    requires k < 8
  {
    if on then b | Flag(k) else b & !Flag(k)
  }

  predicate HasBit(b: bv8, k: nat)
    requires k < 8
  {
    b & Flag(k) != 0
  }

  function Repeat(v: u8, n: nat): (r: seq<u8>)
    ensures |r| == n && forall i :: 0 <= i < n ==> r[i] == v
  {
    seq<u8>(n, i => v)
  }

  /** The ten oldest keys padded with zeros, or all ErrorRollOver when more are held. */
  function Slots(held: seq<u8>): (r: seq<u8>)
    ensures |r| == REPORTED
  {
    if |held| > REPORTED then Repeat(ROLLOVER, REPORTED) else held + Repeat(0, REPORTED - |held|)
  }

  function KeyReport(s: State): Report {
    Keyboard(s.mods, Slots(s.held))
  }

  function IndexOf(held: seq<u8>, usage: nat): (k: nat)
    ensures k <= |held|
    ensures k < |held| ==> held[k] == usage
    ensures forall i :: 0 <= i < k ==> held[i] != usage
  {
    if held == [] || held[0] == usage then 0 else 1 + IndexOf(held[1..], usage)
  }

  /** The state after a key event, before any report. */
  function Moved(s: State, usage: u32, down: bool): State {
    if IsMod(usage) then s.(mods := SetBit(s.mods, usage - MOD_FIRST, down))
    else if IsKey(usage) then
      var at := IndexOf(s.held, usage);
      if down then
        if at == |s.held| && |s.held| < KEYS_MAX then s.(held := s.held + [usage]) else s
      else if at < |s.held| then s.(held := s.held[..at] + s.held[at + 1..])
      else s
    else if usage == 0 then s.(mods := 0, held := [])
    else s
  }

  /** `core_hid_key_event`: a report goes out exactly when the state changed. */
  function KeyEvent(s: State, usage: u32, down: bool): State {
    var m := Moved(s, usage, down);
    if m == s then s else m.(reports := m.reports + [KeyReport(m)])
  }

  /** `core_hid_mouse_button`. */
  function MouseButton(s: State, button: u32, down: bool): State {
    if button < 1 || button > MOUSE_BUTTONS then s
    else
      var b := SetBit(s.mouse, button - 1, down);
      if b == s.mouse then s else s.(mouse := b, reports := s.reports + [Mouse(b)])
  }

  function Apply(s: State, e: Event): State {
    match e
    case Key(usage, down) => KeyEvent(s, usage, down)
    case Button(button, down) => MouseButton(s, button, down)
  }

  const INITIAL: State := State(0, [], 0, [])

  function Run(events: seq<Event>): State {
    if events == [] then INITIAL else Apply(Run(events[..|events| - 1]), events[|events| - 1])
  }

  // ---- the reference: the event history alone ------------------------------------------

  /** The press that started the hold a key is in, if it is held. */
  function HeldSince(events: seq<Event>, usage: nat): Option<nat> {
    if events == [] then None
    else
      var n := |events| - 1;
      var before := HeldSince(events[..n], usage);
      if events[n] == Key(0, true) || events[n] == Key(0, false) then None
      else if events[n].Key? && events[n].usage == usage then
        if !events[n].down then None else if before.Some? then before else Some(n)
      else before
  }

  /** Whether a mouse button is down. */
  function ButtonDown(events: seq<Event>, button: nat): bool {
    if events == [] then false
    else
      var n := |events| - 1;
      if events[n].Button? && events[n].button == button then events[n].down
      else ButtonDown(events[..n], button)
  }

  /** The held list is exactly the held keys in the order they were pressed. */
  ghost predicate InPressOrder(held: seq<u8>, events: seq<Event>) {
    && (forall i :: 0 <= i < |held| ==> IsKey(held[i]) && HeldSince(events, held[i]).Some?)
    && (forall i, j :: 0 <= i < j < |held| ==>
          HeldSince(events, held[i]).value < HeldSince(events, held[j]).value)
    && (forall usage: nat :: IsKey(usage) && HeldSince(events, usage).Some? ==> usage in held)
  }

  ghost predicate BitsMatch(s: State, events: seq<Event>) {
    && (forall k: nat :: k < 8 ==> HasBit(s.mods, k) == HeldSince(events, MOD_FIRST + k).Some?)
    && (forall k: nat :: k < MOUSE_BUTTONS ==> HasBit(s.mouse, k) == ButtonDown(events, k + 1))
  }

  // ---- no press is dropped ---------------------------------------------------------------

  lemma HeldSinceInRange(events: seq<Event>, usage: nat)
    ensures HeldSince(events, usage).Some? ==> HeldSince(events, usage).value < |events|
  {
  }

  /** Distinct ordinary keys: at most one per accepted usage. */
  lemma {:induction false} DistinctKeysAreFew(held: seq<u8>, lo: nat, hi: nat)
    requires forall i :: 0 <= i < |held| ==> lo <= held[i] < hi
    requires forall i, j :: 0 <= i < j < |held| ==> held[i] != held[j]
    ensures |held| <= Max(hi - lo, 0)
    decreases hi - lo
  {
    assert held != [] ==> lo <= held[0] < hi;
    if lo < hi {
      var at := IndexOf(held, lo);
      if at < |held| {
        var rest := held[..at] + held[at + 1..];
        DistinctKeysAreFew(rest, lo + 1, hi);
      } else {
        DistinctKeysAreFew(held, lo + 1, hi);
      }
    }
  }

  /** At most 161 keys are held, so the array bound never drops a press. */
  lemma HeldKeysFit(held: seq<u8>, events: seq<Event>)
    requires InPressOrder(held, events)
    ensures |held| <= KEY_LAST - KEY_FIRST + 1 < KEYS_MAX
    ensures forall i, j :: 0 <= i < j < |held| ==> held[i] != held[j]
  {
    hide HeldSince;
    forall i, j | 0 <= i < j < |held|
      ensures held[i] != held[j]
    {
      assert HeldSince(events, held[i]).value < HeldSince(events, held[j]).value;
    }
    DistinctKeysAreFew(held, KEY_FIRST, KEY_LAST + 1);
  }

  // ---- the state follows the history -------------------------------------------------------

  /** What one more event does to a hold. */
  function HoldAfter(before: Option<nat>, e: Event, at: nat, usage: nat): Option<nat> {
    if e == Key(0, true) || e == Key(0, false) then None
    else if e.Key? && e.usage == usage then
      if !e.down then None else if before.Some? then before else Some(at)
    else before
  }

  lemma HeldSinceSnoc(events: seq<Event>, e: Event, usage: nat)
    ensures HeldSince(events + [e], usage) == HoldAfter(HeldSince(events, usage), e, |events|, usage)
  {
    assert (events + [e])[..|events|] == events;
  }

  lemma SetBitWorks(b: bv8, k: nat, on: bool, j: nat)
    requires k < 8 && j < 8
    ensures HasBit(SetBit(b, k, on), j) == if j == k then on else HasBit(b, j)
  {
  }

  lemma NoBitSet(k: nat)
    requires k < 8
    ensures !HasBit(0, k)
  {
  }

  lemma Pressed(held: seq<u8>, events: seq<Event>, events1: seq<Event>, usage: u8)
    requires InPressOrder(held, events) && usage !in held && IsKey(usage)
    requires forall u: nat :: HeldSince(events, u).Some? ==> HeldSince(events, u).value < |events|
    requires forall u: nat :: HeldSince(events1, u) == if u == usage then Some(|events|) else HeldSince(events, u)
    ensures InPressOrder(held + [usage], events1)
  {
    hide HeldSince;
    var r := held + [usage];
    assert r[|held|] == usage;
    forall u: nat | IsKey(u) && HeldSince(events1, u).Some?
      ensures u in r
    {
      assert u == usage || u in held;
    }
  }

  lemma Unmoved(held: seq<u8>, events: seq<Event>, events1: seq<Event>)
    requires InPressOrder(held, events)
    requires forall u: nat :: IsKey(u) ==> HeldSince(events1, u) == HeldSince(events, u)
    ensures InPressOrder(held, events1)
  {
    hide HeldSince;
  }

  /** One event keeps the held list in press order. */
  lemma KeysFollow(s: State, events: seq<Event>, usage: u32, down: bool)
    requires InPressOrder(s.held, events)
    ensures InPressOrder(Moved(s, usage, down).held, events + [Key(usage, down)])
  {
    hide HeldSince, InPressOrder, SetBit, IndexOf;
    var e := Key(usage, down);
    var held, events1 := s.held, events + [e];
    HeldKeysFit(held, events);
    forall u: nat
      ensures HeldSince(events1, u) == HoldAfter(HeldSince(events, u), e, |events|, u)
      ensures HeldSince(events, u).Some? ==> HeldSince(events, u).value < |events|
    {
      HeldSinceSnoc(events, e, u);
      HeldSinceInRange(events, u);
    }
    if IsKey(usage) {
      HeldIffListed(held, events, usage);
      var at := IndexOf(held, usage);
      if down && at == |held| {
        Pressed(held, events, events1, usage);
      } else if !down && at < |held| {
        Removed(held, at, events, events1, usage);
      } else {
        Unmoved(held, events, events1);
      }
    } else if usage == 0 {
      NothingHeld(events1);
    } else {
      Unmoved(held, events, events1);
    }
  }

  lemma HeldIffListed(held: seq<u8>, events: seq<Event>, usage: nat)
    requires InPressOrder(held, events) && IsKey(usage)
    ensures IndexOf(held, usage) < |held| <==> HeldSince(events, usage).Some?
    ensures usage in held <==> IndexOf(held, usage) < |held|
  {
    hide HeldSince;
  }

  lemma NothingHeld(events: seq<Event>)
    requires forall u: nat :: HeldSince(events, u) == None
    ensures InPressOrder([], events)
  {
    hide HeldSince;
  }

  lemma Removed(held: seq<u8>, at: nat, events: seq<Event>, events1: seq<Event>, usage: nat)
    requires InPressOrder(held, events) && at < |held| && held[at] == usage && IsKey(usage)
    requires forall u: nat :: HeldSince(events1, u) == if u == usage then None else HeldSince(events, u)
    requires forall i, j :: 0 <= i < j < |held| ==> held[i] != held[j]
    ensures InPressOrder(held[..at] + held[at + 1..], events1)
  {
    hide HeldSince;
    var r := held[..at] + held[at + 1..];
    assert forall i :: 0 <= i < |r| ==> r[i] == held[if i < at then i else i + 1];
    forall u: nat | IsKey(u) && HeldSince(events1, u).Some?
      ensures u in r
    {
      var i :| 0 <= i < |held| && held[i] == u;
      assert r[if i < at then i else i - 1] == u;
    }
  }

  /** Mouse events move no key. */
  lemma KeysIgnoreButtons(held: seq<u8>, events: seq<Event>, e: Event)
    requires InPressOrder(held, events) && e.Button?
    ensures InPressOrder(held, events + [e])
  {
    forall u: nat
      ensures HeldSince(events + [e], u) == HeldSince(events, u)
    {
      HeldSinceSnoc(events, e, u);
    }
    hide HeldSince;
  }

  lemma BitsFollow(s: State, events: seq<Event>, e: Event)
    requires BitsMatch(s, events)
    ensures BitsMatch(Apply(s, e), events + [e])
  {
    var s1 := Apply(s, e);
    forall k: nat | k < 8
      ensures HasBit(s1.mods, k) == HeldSince(events + [e], MOD_FIRST + k).Some?
    {
      HeldSinceSnoc(events, e, MOD_FIRST + k);
      ModAfter(s, e, k);
      NoBitSet(k);
      hide HasBit, SetBit, Apply;
    }
    forall k: nat | k < MOUSE_BUTTONS
      ensures HasBit(s1.mouse, k) == ButtonDown(events + [e], k + 1)
    {
      assert (events + [e])[..|events|] == events;
      MouseAfter(s, e, k);
      hide HasBit, SetBit, Apply;
    }
  }

  lemma ModAfter(s: State, e: Event, k: nat)
    requires k < 8
    ensures HasBit(Apply(s, e).mods, k)
         == if e.Key? && e.usage == 0 then HasBit(0, k)
            else if e.Key? && e.usage == MOD_FIRST + k then e.down
            else HasBit(s.mods, k)
  {
    hide HasBit, SetBit, Slots, IndexOf;
    if e.Key? && IsMod(e.usage) {
      SetBitWorks(s.mods, e.usage - MOD_FIRST, e.down, k);
    }
  }

  lemma MouseAfter(s: State, e: Event, k: nat)
    requires k < MOUSE_BUTTONS
    ensures HasBit(Apply(s, e).mouse, k)
         == if e.Button? && e.button == k + 1 then e.down else HasBit(s.mouse, k)
  {
    hide HasBit, SetBit, Slots, IndexOf;
    if e.Button? && 1 <= e.button <= MOUSE_BUTTONS {
      SetBitWorks(s.mouse, e.button - 1, e.down, k);
    }
  }

  /**
    Over every event sequence: the held list is the held keys in press order,
    duplicate-free and at most 161 long, and the modifier and button masks are what
    the history says.
  */
  lemma {:induction false} StateFollowsHistory(events: seq<Event>)
    ensures var s := Run(events);
            && InPressOrder(s.held, events) && BitsMatch(s, events)
            && |s.held| <= KEY_LAST - KEY_FIRST + 1
            && forall i, j :: 0 <= i < j < |s.held| ==> s.held[i] != s.held[j]
    decreases |events|
  {
    var s := Run(events);
    if events == [] {
      assert forall k: nat :: k < 8 ==> !HasBit(0, k);
    } else {
      var n := |events| - 1;
      var before, e := Run(events[..n]), events[n];
      StateFollowsHistory(events[..n]);
      assert events[..n] + [e] == events;
      if e.Key? {
        KeysFollow(before, events[..n], e.usage, e.down);
      } else {
        KeysIgnoreButtons(before.held, events[..n], e);
      }
      BitsFollow(before, events[..n], e);
    }
    HeldKeysFit(s.held, events);
  }

  // ---- what the host sees --------------------------------------------------------------------

  /** The latest keyboard report, or all clear when there was none. */
  function HostKeys(reports: seq<Report>): Report {
    if reports == [] then Keyboard(0, Repeat(0, REPORTED))
    else
      var last := reports[|reports| - 1];
      if last.Keyboard? then last else HostKeys(reports[..|reports| - 1])
  }

  function HostButtons(reports: seq<Report>): bv8 {
    if reports == [] then 0
    else
      var last := reports[|reports| - 1];
      if last.Mouse? then last.buttons else HostButtons(reports[..|reports| - 1])
  }

  lemma HostSnoc(reports: seq<Report>, r: Report)
    ensures HostKeys(reports + [r]) == if r.Keyboard? then r else HostKeys(reports)
    ensures HostButtons(reports + [r]) == if r.Mouse? then r.buttons else HostButtons(reports)
  {
    assert (reports + [r])[..|reports|] == reports;
  }

  /** The host's view is never stale: its last reports are the current state. */
  lemma {:induction false} HostSeesTheState(events: seq<Event>)
    ensures var s := Run(events);
            HostKeys(s.reports) == KeyReport(s) && HostButtons(s.reports) == s.mouse
    decreases |events|
  {
    if events == [] {
      assert Slots([]) == Repeat(0, REPORTED);
    } else {
      var n := |events| - 1;
      HostSeesTheState(events[..n]);
      var s, s1 := Run(events[..n]), Run(events);
      EventReports(s, events[n]);
      hide Apply, HostKeys, HostButtons, Slots;
      if s1.reports != s.reports {
        HostSnoc(s.reports, s1.reports[|s.reports|]);
      }
    }
  }

  /**
    One event sends at most one report, and one exactly when keys, modifiers or
    buttons changed; the report shows the new state.
  */
  lemma EventReports(s: State, e: Event)
    ensures var s1 := Apply(s, e);
            && (s1.reports == s.reports <==> s1.mods == s.mods && s1.held == s.held && s1.mouse == s.mouse)
            && (s1.reports == s.reports ==> s1 == s)
            && (s1.reports != s.reports ==>
                  (s1.mouse == s.mouse && s1.reports == s.reports + [KeyReport(s1)])
                  || (s1.mods == s.mods && s1.held == s.held && s1.reports == s.reports + [Mouse(s1.mouse)]))
  {
    hide Slots, SetBit, IndexOf;
  }

  /** The releases an unload sends: every key at once, then each mouse button. */
  const UNLOAD: seq<Event> := [Key(0, false), Button(1, false), Button(2, false), Button(3, false)]

  lemma {:induction false} RunSnoc(events: seq<Event>, e: Event)
    ensures Run(events + [e]) == Apply(Run(events), e)
  {
    assert (events + [e])[..|events|] == events;
  }

  /** Releasing the three buttons clears a mask that has only those three. */
  lemma ButtonsCleared(b: bv8)
    requires forall k: nat :: MOUSE_BUTTONS <= k < 8 ==> !HasBit(b, k)
    ensures SetBit(SetBit(SetBit(b, 0, false), 1, false), 2, false) == 0
  {
    assert !HasBit(b, 3) && !HasBit(b, 4) && !HasBit(b, 5) && !HasBit(b, 6) && !HasBit(b, 7);
  }

  lemma {:induction false} OnlyThreeButtons(events: seq<Event>, k: nat)
    requires MOUSE_BUTTONS <= k < 8
    ensures !HasBit(Run(events).mouse, k)
    decreases |events|
  {
    hide HasBit, SetBit, Slots, IndexOf;
    if events == [] {
      NoBitSet(k);
    } else {
      var n := |events| - 1;
      OnlyThreeButtons(events[..n], k);
      var s, e := Run(events[..n]), events[n];
      if e.Button? && 1 <= e.button <= MOUSE_BUTTONS {
        SetBitWorks(s.mouse, e.button - 1, e.down, k);
      }
    }
  }

  /** After an unload's releases the host sees no key, modifier or mouse button held, whatever came before. */
  lemma UnloadReleasesEverything(events: seq<Event>)
    ensures var s := Run(events + UNLOAD);
            && s.held == [] && s.mods == 0 && s.mouse == 0
            && HostKeys(s.reports) == Keyboard(0, Repeat(0, REPORTED)) && HostButtons(s.reports) == 0
  {
    hide HasBit, SetBit, IndexOf, HostKeys, HostButtons, Run;
    var e1 := events + [Key(0, false)];
    var e2 := e1 + [Button(1, false)];
    var e3 := e2 + [Button(2, false)];
    var e4 := e3 + [Button(3, false)];
    assert events + UNLOAD == e4;
    RunSnoc(events, Key(0, false));
    RunSnoc(e1, Button(1, false));
    RunSnoc(e2, Button(2, false));
    RunSnoc(e3, Button(3, false));
    forall k: nat | MOUSE_BUTTONS <= k < 8
      ensures !HasBit(Run(events).mouse, k)
    {
      OnlyThreeButtons(events, k);
    }
    ButtonsCleared(Run(events).mouse);
    HostSeesTheState(e4);
    assert Slots([]) == Repeat(0, REPORTED);
  }
}

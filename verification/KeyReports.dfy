/** What the host reads off its last reports, told from the event history alone. */
module KeyReports {
  import opened Words
  import opened Keys

  /** What a byte says at `k` is its bit `k`. */
  lemma FlagIsItsBit(b: bv8, k: nat)
    requires k < 8
    ensures Flag(k) as int == Pow2(k) && (HasBit(b, k) <==> b & Flag(k) == Flag(k))
  {
    assert Pow2(1) == 2 && Pow2(2) == 4 && Pow2(3) == 8 && Pow2(4) == 16;
    assert Pow2(5) == 32 && Pow2(6) == 64 && Pow2(7) == 128;
  }

  /** The ten bytes show `n` keys and then nothing. */
  ghost predicate Shows(keys: seq<u8>, n: nat, events: seq<Event>)
    requires n <= |keys|
  {
    InPressOrder(keys[..n], events) && forall i :: n <= i < |keys| ==> keys[i] == 0
  }

  /** More keys are held than a report has room for. */
  ghost predicate TooMany(held: seq<u8>, events: seq<Event>) {
    InPressOrder(held, events) && |held| > 10
  }

  /** What ten key bytes say of a history. */
  ghost predicate Tells(keys: seq<u8>, events: seq<Event>) {
    && |keys| == 10
    && ((exists n :: 0 <= n <= 10 && Shows(keys, n, events))
        || ((exists held :: TooMany(held, events)) && forall i :: 0 <= i < 10 ==> keys[i] == 1))
  }

  lemma SlotsTell(held: seq<u8>, events: seq<Event>)
    requires InPressOrder(held, events)
    ensures Tells(Slots(held), events)
  {
    hide InPressOrder;
    if |held| > 10 {
      assert TooMany(held, events);
    } else {
      assert Slots(held)[..|held|] == held;
      assert Shows(Slots(held), |held|, events);
    }
  }

  /**
    After any events the host's last keyboard report has ten key bytes: the keys held, in
    the order they were pressed, and zeros; or all ones when more than ten are held. Its
    modifier byte and the last button byte have a bit for each modifier and button held.
  */
  lemma HostReadsTheKeysHeld(events: seq<Event>)
    ensures var keys := HostKeys(Run(events).reports);
            && keys.Keyboard? && Tells(keys.keys, events)
            && forall k: nat :: k < 8 ==> HasBit(keys.mods, k) == HeldSince(events, 0xE0 + k).Some?
    ensures forall k: nat :: k < 3 ==> HasBit(HostButtons(Run(events).reports), k) == ButtonDown(events, k + 1)
  {
    StateFollowsHistory(events);
    HostSeesTheState(events);
    var s := Run(events);
    SlotsTell(s.held, events);
    hide Run, InPressOrder, HeldSince, ButtonDown, HostKeys, HostButtons, Slots, Tells, HasBit;
  }
}

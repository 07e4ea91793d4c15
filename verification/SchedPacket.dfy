/**
  What a controller packet starts, told from the bytes: which handlers, in which order,
  and what their argument words are.
*/
module SchedPacket {
  import opened Words
  import opened Script
  import opened SchedState
  import opened SchedInvariant
  import opened SchedPass
  import opened SchedRun
  import opened SchedInput

  // ---- the bytes -------------------------------------------------------------------------

  const HANDLERS: nat := 20

  // A packet is stick x, stick y, a status and the two bytes of the button word, low one first.

  function Signed8(b: u8): int {
    if b < 128 then b else b - 256
  }

  /** Raw button `n`: the high byte of the word has the first eight, each byte from its top bit down. */
  predicate Pressed(low: u8, high: u8, n: nat)
    requires n < 16
  {
    if n < 8 then high / Pow2(7 - n) % 2 == 1 else low / Pow2(15 - n) % 2 == 1
  }

  /** What makes a packet call for a slot's handler, against the packet before. */
  predicate Calls(slot: nat, raw: Raw, was: Packed) {
    if slot < 16 then Pressed(raw[3], raw[4], slot) != Pressed(was[2], was[3], slot)
    else if slot == 0x10 then raw[3] != was[2] || raw[4] != was[3]
    else if slot == 0x11 then raw[0] != was[0] || raw[1] != was[1]
    else slot == 0x12 || slot == 0x13
  }

  /** The order of the batch: 0x12, the stick, all buttons, each button, 0x13. */
  function Rank(slot: nat): int {
    if slot < 16 then slot
    else if slot == 0x12 then -3
    else if slot == 0x11 then -2
    else if slot == 0x10 then -1
    else 16
  }

  /** A word made of four bytes, the first the lowest. */
  predicate Spells(w: u32, a: u8, b: u8, c: u8, d: u8) {
    w % 0x100 == a && w / 0x100 % 0x100 == b && w / 0x1_0000 % 0x100 == c && w / 0x100_0000 == d
  }

  /** The argument words of a slot's handler: the packet's, and the packet's before. */
  predicate Told(slot: nat, args: seq<u32>, raw: Raw, was: Packed) {
    if slot < 16 then |args| == 1 && args[0] == if Pressed(raw[3], raw[4], slot) then 1 else 0
    else if slot == 0x10 then
      |args| == 2
      && ToS32(args[0]) == 0x100 * Signed8(raw[4]) + raw[3]
      && ToS32(args[1]) == 0x100 * Signed8(was[3]) + was[2]
    else if slot == 0x11 then
      |args| == 4
      && ToS32(args[0]) == Signed8(raw[0]) && ToS32(args[1]) == Signed8(raw[1])
      && ToS32(args[2]) == Signed8(was[0]) && ToS32(args[3]) == Signed8(was[1])
    else
      |args| == 2
      && Spells(args[0], raw[0], raw[1], raw[3], raw[4])
      && Spells(args[1], was[0], was[1], was[2], was[3])
  }

  /** A handler's thread, ready to run: its slot's entry point, due now, its arguments at the bottom of its stack. */
  ghost predicate Poised(t: Thread, slot: nat, raw: Raw, was: Packed, s: Sched, now: u64)
    requires Loaded(s) && |s.vars| == s.varCount + LOCALS
  {
    && Bound(s, slot) && t.pc == TagValue(s.vars[slot]) && t.wake == now && t.acc == 0 && t.depth == 0
    && exists args :: Told(slot, args, raw, was) && args <= t.stack
  }

  /** The threads are those of `slots`: the bound slots the packet calls for, by rank, each once. */
  ghost predicate Batch(ts: seq<Thread>, slots: seq<nat>, raw: Raw, was: Packed, s: Sched, now: u64)
    requires Loaded(s) && |s.vars| == s.varCount + LOCALS
  {
    && |ts| == |slots|
    && (forall i, j :: 0 <= i < j < |slots| ==> Rank(slots[i]) < Rank(slots[j]))
    && (forall slot: nat :: slot in slots <==> Calls(slot, raw, was) && Bound(s, slot))
    && (forall i :: 0 <= i < |ts| ==> Poised(ts[i], slots[i], raw, was, s, now))
  }

  // ---- words and bytes -------------------------------------------------------------------

  lemma {:induction false} BitIsQuotient(w: nat, k: nat)
    ensures Bit(w, k) <==> w / Pow2(k) % 2 == 1
  {
    if k > 0 {
      BitIsQuotient(w / 2, k - 1);
      QuotientOfHalf(w, Pow2(k - 1));
    }
  }

  lemma QuotientOfHalf(w: nat, m: nat)
    requires m >= 1
    ensures w / 2 / m == w / (2 * m)
  {
    var q, r := w / 2 / m, w / 2 % m;
    assert w / 2 == m * q + r;
    var t := 2 * r + w % 2;
    assert w == 2 * (m * q + r) + w % 2;
    assert 2 * (m * q) == (2 * m) * q;
    assert w == (2 * m) * q + t && 0 <= t < 2 * m;
    QuotientIs(w, 2 * m, q, t);
  }

  lemma LowQuotient(low: int, high: int, m: int, c: int)
    requires m > 0 && m * c == 0x100
    ensures (low + 0x100 * high) / m == low / m + c * high
  {
    var q, r := low / m, low % m;
    assert low == m * q + r;
    Associate(m, c, high);
    SumOfProducts(m, q, c * high);
    QuotientIs(low + 0x100 * high, m, q + c * high, r);
  }

  lemma SumOfProducts(m: int, a: int, b: int)
    ensures m * (a + b) == m * a + m * b
  {
  }

  lemma LowBits(low: u8, high: u8, k: nat)
    requires k < 8
    ensures (low + 0x100 * high) / Pow2(k) % 2 == low / Pow2(k) % 2
  {
    PowersBelow(k);
    LowQuotient(low, high, Pow2(k), Pow2(8 - k));
    EvenPart(8 - k, low / Pow2(k), high);
  }

  lemma HighBits(low: u8, high: u8, k: nat)
    requires 8 <= k < 16
    ensures (low + 0x100 * high) / Pow2(k) == high / Pow2(k - 8)
  {
    PowersAbove(k);
    var m := Pow2(k - 8);
    var q, r := high / m, high % m;
    assert high == m * q + r;
    assert low + 0x100 * high == (0x100 * m) * q + (0x100 * r + low) by { Associate(0x100, m, q); }
    QuotientIs(low + 0x100 * high, 0x100 * m, q, 0x100 * r + low);
  }

  lemma Associate(a: int, b: int, c: int)
    ensures a * b * c == a * (b * c)
  {
  }

  lemma PowersBelow(k: nat)
    requires k < 8
    ensures Pow2(k) * Pow2(8 - k) == 0x100
  {
    assert Pow2(1) == 2 && Pow2(2) == 4 && Pow2(3) == 8 && Pow2(4) == 16;
    assert Pow2(5) == 32 && Pow2(6) == 64 && Pow2(7) == 128 && Pow2(8) == 256;
  }

  lemma {:induction false} PowersAbove(k: nat)
    requires k >= 8
    ensures Pow2(k) == 0x100 * Pow2(k - 8)
  {
    if k == 8 {
      PowersBelow(0);
    } else {
      PowersAbove(k - 1);
    }
  }

  lemma EvenPart(n: nat, q: int, h: int)
    requires n >= 1
    ensures (q + Pow2(n) * h) % 2 == q % 2
  {
    assert Pow2(n) * h == 2 * (Pow2(n - 1) * h) by { Associate(2, Pow2(n - 1), h); }
  }

  /** Reading a button out of the packed word is reading it out of its byte. */
  lemma ButtonIsPressed(p: Packed, n: nat)
    requires n < 16
    ensures Button(p, n) <==> Pressed(p[2], p[3], n)
  {
    BitIsQuotient(ButtonWord(p), 15 - n);
    if n < 8 {
      HighBits(p[2], p[3], 15 - n);
    } else {
      LowBits(p[2], p[3], 15 - n);
    }
  }

  lemma SpellsDword(p: Packed)
    ensures Spells(Dword(p), p[0], p[1], p[2], p[3])
  {
    var w := Dword(p);
    var a: int, b: int, c: int, d: int := p[0], p[1], p[2], p[3];
    assert w == a + 0x100 * (b + 0x100 * (c + 0x100 * d));
  }

  lemma SignedWordReads(p: Packed)
    ensures ToS32(SignedWord(ButtonWord(p))) == 0x100 * Signed8(p[3]) + p[2]
  {
  }

  lemma SignedByteReads(b: u8)
    ensures ToS32(SignedByte(b)) == Signed8(b)
  {
  }

  // ---- the handlers of a packet ----------------------------------------------------------

  ghost predicate Ranked(hs: seq<Handler>) {
    forall i, j :: 0 <= i < j < |hs| ==> Rank(hs[i].slot) < Rank(hs[j].slot)
  }

  ghost predicate Ranks(hs: seq<Handler>, low: int, high: int) {
    forall i :: 0 <= i < |hs| ==> low <= Rank(hs[i].slot) <= high
  }

  lemma RankedJoin(hs: seq<Handler>, ks: seq<Handler>, low: int, mid: int, next: int, high: int)
    requires Ranked(hs) && Ranked(ks) && Ranks(hs, low, mid) && Ranks(ks, next, high) && low <= mid < next <= high
    ensures Ranked(hs + ks) && Ranks(hs + ks, low, high)
  {
    var all := hs + ks;
    forall i, j | 0 <= i < j < |all|
      ensures Rank(all[i].slot) < Rank(all[j].slot)
    {
    }
  }

  /** The handlers a packet calls for, slot by slot. */
  ghost predicate CalledFor(hs: seq<Handler>, raw: Raw, was: Packed) {
    && (forall h :: h in hs ==> Calls(h.slot, raw, was) && Told(h.slot, h.args, raw, was))
    && (forall slot: nat :: Calls(slot, raw, was) ==> exists h :: h in hs && h.slot == slot)
  }

  lemma ButtonsRanked(cur: Packed, was: Packed)
    ensures Ranked(ButtonHandlers(cur, was, 0)) && Ranks(ButtonHandlers(cur, was, 0), 0, 15)
  {
    var hs := ButtonHandlers(cur, was, 0);
    forall i, j | 0 <= i < j < |hs|
      ensures Rank(hs[i].slot) < Rank(hs[j].slot)
    {
      ChangedButtonsAscend(cur, was, 0, i, j);
    }
    forall i | 0 <= i < |hs|
      ensures 0 <= Rank(hs[i].slot) <= 15
    {
      ChangedButtonsAscend(cur, was, 0, i, i);
    }
  }

  lemma {:induction false} ButtonHandlerShape(cur: Packed, was: Packed, n: nat, i: nat)
    requires n <= 16 && i < |ButtonHandlers(cur, was, n)|
    ensures var h := ButtonHandlers(cur, was, n)[i];
            n <= h.slot < 16 && h == ButtonHandler(cur, h.slot) && Button(cur, h.slot) != Button(was, h.slot)
    decreases 16 - n
  {
    hide Button;
    if n < 16 {
      if Button(cur, n) == Button(was, n) {
        ButtonHandlerShape(cur, was, n + 1, i);
      } else {
        assert ButtonHandlers(cur, was, n) == [ButtonHandler(cur, n)] + ButtonHandlers(cur, was, n + 1);
        if i > 0 {
          ButtonHandlerShape(cur, was, n + 1, i - 1);
        }
      }
    }
  }

  lemma ButtonsCalled(raw: Raw, was: Packed)
    ensures var hs := ButtonHandlers(Pack(raw), was, 0);
            && (forall h :: h in hs ==> h.slot < 16 && Calls(h.slot, raw, was) && Told(h.slot, h.args, raw, was))
            && (forall slot: nat :: slot < 16 && Calls(slot, raw, was) ==> exists h :: h in hs && h.slot == slot)
  {
    var cur := Pack(raw);
    var hs := ButtonHandlers(cur, was, 0);
    hide ButtonHandlers, Button, Pressed;
    forall h | h in hs
      ensures h.slot < 16 && Calls(h.slot, raw, was) && Told(h.slot, h.args, raw, was)
    {
      var i :| 0 <= i < |hs| && hs[i] == h;
      ButtonHandlerShape(cur, was, 0, i);
      ButtonIsPressed(cur, h.slot);
      ButtonIsPressed(was, h.slot);
    }
    forall slot: nat | slot < 16 && Calls(slot, raw, was)
      ensures exists h :: h in hs && h.slot == slot
    {
      ButtonIsPressed(cur, slot);
      ButtonIsPressed(was, slot);
      ChangedButtonsHandled(cur, was, 0, slot);
      assert ButtonHandler(cur, slot) in hs && ButtonHandler(cur, slot).slot == slot;
    }
  }

  /** The stretches of a packet's handlers. */
  function Middle(cur: Packed, was: Packed): seq<Handler> {
    if cur[..2] == was[..2] then []
    else [Handler(SLOT_STICK, [SignedByte(cur[0]), SignedByte(cur[1]), SignedByte(was[0]), SignedByte(was[1])])]
  }

  function All(cur: Packed, was: Packed): seq<Handler> {
    if cur[2..] == was[2..] then []
    else [Handler(SLOT_BUTTONS, [SignedWord(ButtonWord(cur)), SignedWord(ButtonWord(was))])]
  }

  function Each(cur: Packed, was: Packed): seq<Handler> {
    if cur[2..] == was[2..] then [] else ButtonHandlers(cur, was, 0)
  }

  function Ends(slot: nat, cur: Packed, was: Packed): seq<Handler> {
    [Handler(slot, [Dword(cur), Dword(was)])]
  }

  lemma HandlersAre(cur: Packed, was: Packed)
    ensures Handlers(cur, was)
         == Ends(SLOT_PRE, cur, was)
            + (Middle(cur, was) + (All(cur, was) + (Each(cur, was) + Ends(SLOT_POST, cur, was))))
  {
    hide ButtonHandlers, Dword, ButtonWord, SignedByte, SignedWord;
    var a, b, c, d, e := Ends(SLOT_PRE, cur, was), Middle(cur, was), All(cur, was), Each(cur, was),
                         Ends(SLOT_POST, cur, was);
    assert c + d == if cur[2..] == was[2..] then [] else c + ButtonHandlers(cur, was, 0);
    assert Handlers(cur, was) == a + b + (c + d) + e;
    assert a + b + (c + d) + e == a + (b + (c + (d + e)));
  }

  /** Between two ranks, exactly the slots that are called for have a handler, and it is told what it should be. */
  ghost predicate Covers(hs: seq<Handler>, raw: Raw, was: Packed, low: int, high: int) {
    && (forall h :: h in hs ==>
          low <= Rank(h.slot) <= high && Calls(h.slot, raw, was) && Told(h.slot, h.args, raw, was))
    && (forall slot: nat :: low <= Rank(slot) <= high && Calls(slot, raw, was) ==>
          exists h :: h in hs && h.slot == slot)
  }

  lemma CoversJoin(hs: seq<Handler>, ks: seq<Handler>, raw: Raw, was: Packed, low: int, mid: int, high: int)
    requires Covers(hs, raw, was, low, mid) && Covers(ks, raw, was, mid + 1, high) && low <= mid < high
    ensures Covers(hs + ks, raw, was, low, high)
  {
    hide Calls, Told, Rank;
    forall slot: nat | low <= Rank(slot) <= high && Calls(slot, raw, was)
      ensures exists h :: h in hs + ks && h.slot == slot
    {
      if Rank(slot) <= mid {
        var h :| h in hs && h.slot == slot;
        assert h in hs + ks;
      } else {
        var h :| h in ks && h.slot == slot;
        assert h in hs + ks;
      }
    }
  }

  lemma PreCovers(raw: Raw, was: Packed)
    ensures Covers(Ends(SLOT_PRE, Pack(raw), was), raw, was, -3, -3)
  {
    SpellsDword(Pack(raw));
    SpellsDword(was);
    hide Spells, Dword, Pressed;
    var h := Handler(SLOT_PRE, [Dword(Pack(raw)), Dword(was)]);
    assert h in Ends(SLOT_PRE, Pack(raw), was);
  }

  lemma PostCovers(raw: Raw, was: Packed)
    ensures Covers(Ends(SLOT_POST, Pack(raw), was), raw, was, 16, 16)
  {
    SpellsDword(Pack(raw));
    SpellsDword(was);
    hide Spells, Dword, Pressed;
    var h := Handler(SLOT_POST, [Dword(Pack(raw)), Dword(was)]);
    assert h in Ends(SLOT_POST, Pack(raw), was);
  }

  lemma MiddleCovers(raw: Raw, was: Packed)
    ensures Covers(Middle(Pack(raw), was), raw, was, -2, -2)
  {
    var cur := Pack(raw);
    SignedByteReads(cur[0]);
    SignedByteReads(cur[1]);
    SignedByteReads(was[0]);
    SignedByteReads(was[1]);
    assert cur[..2] == [cur[0], cur[1]] && was[..2] == [was[0], was[1]];
    hide SignedByte, Pressed, Spells;
    if cur[..2] != was[..2] {
      assert Middle(cur, was)[0] in Middle(cur, was);
    }
  }

  lemma AllCovers(raw: Raw, was: Packed)
    ensures Covers(All(Pack(raw), was), raw, was, -1, -1)
  {
    var cur := Pack(raw);
    SignedWordReads(cur);
    SignedWordReads(was);
    assert cur[2..] == [cur[2], cur[3]] && was[2..] == [was[2], was[3]];
    hide SignedWord, ButtonWord, Pressed, Spells;
    if cur[2..] != was[2..] {
      assert All(cur, was)[0] in All(cur, was);
    }
  }

  lemma EachCovers(raw: Raw, was: Packed)
    ensures Covers(Each(Pack(raw), was), raw, was, 0, 15)
  {
    var cur := Pack(raw);
    ButtonsCalled(raw, was);
    assert cur[2..] == [cur[2], cur[3]] && was[2..] == [was[2], was[3]];
    hide ButtonHandlers, Pressed, Told;
  }

  lemma PacketCovers(raw: Raw, was: Packed)
    ensures CalledFor(Handlers(Pack(raw), was), raw, was)
  {
    var cur := Pack(raw);
    HandlersAre(cur, was);
    PreCovers(raw, was);
    MiddleCovers(raw, was);
    AllCovers(raw, was);
    EachCovers(raw, was);
    PostCovers(raw, was);
    hide *;
    var a, b, c, d, e := Ends(SLOT_PRE, cur, was), Middle(cur, was), All(cur, was), Each(cur, was),
                         Ends(SLOT_POST, cur, was);
    CoversJoin(d, e, raw, was, 0, 15, 16);
    CoversJoin(c, d + e, raw, was, -1, -1, 16);
    CoversJoin(b, c + (d + e), raw, was, -2, -2, 16);
    CoversJoin(a, b + (c + (d + e)), raw, was, -3, -3, 16);
    CoveredIsCalled(Handlers(cur, was), raw, was);
  }

  lemma CoveredIsCalled(hs: seq<Handler>, raw: Raw, was: Packed)
    requires Covers(hs, raw, was, -3, 16)
    ensures CalledFor(hs, raw, was)
  {
    hide Calls, Told;
  }

  lemma PacketRanked(cur: Packed, was: Packed)
    ensures Ranked(Handlers(cur, was)) && Ranks(Handlers(cur, was), -3, 16)
  {
    HandlersAre(cur, was);
    ButtonsRanked(cur, was);
    var a, b, c, d, e := Ends(SLOT_PRE, cur, was), Middle(cur, was), All(cur, was), Each(cur, was),
                         Ends(SLOT_POST, cur, was);
    assert Ranked(d) && Ranks(d, 0, 15);
    assert Ranked(c) && Ranks(c, -1, -1) && Ranked(b) && Ranks(b, -2, -2);
    assert Ranked(a) && Ranks(a, -3, -3) && Ranked(e) && Ranks(e, 16, 16);
    hide Ends, Middle, All, Each, Ranked, Ranks, Handlers;
    RankedJoin(d, e, 0, 15, 16, 16);
    RankedJoin(c, d + e, -1, -1, 0, 16);
    RankedJoin(b, c + (d + e), -2, -2, -1, 16);
    RankedJoin(a, b + (c + (d + e)), -3, -3, -2, 16);
  }

  // ---- the threads of a packet -----------------------------------------------------------

  lemma {:induction false} BoundMembers(hs: seq<Handler>, s: Sched, h: Handler)
    requires Loaded(s) && |s.vars| == s.varCount + LOCALS
    ensures h in BoundOnly(hs, s) <==> h in hs && Bound(s, h.slot)
    decreases |hs|
  {
    hide Bound;
    if hs != [] {
      BoundMembers(hs[1..], s, h);
      assert hs == [hs[0]] + hs[1..];
    }
  }

  lemma RankedTail(hs: seq<Handler>, h: Handler)
    requires hs != [] && Ranked(hs)
    ensures Ranked(hs[1..]) && (h in hs[1..] ==> Rank(hs[0].slot) < Rank(h.slot))
  {
    hide Rank;
    var rest := hs[1..];
    assert forall i, j :: 0 <= i < j < |rest| ==> rest[i] == hs[i + 1] && rest[j] == hs[j + 1];
    if h in rest {
      var i :| 0 <= i < |rest| && rest[i] == h;
      assert Rank(hs[0].slot) < Rank(hs[i + 1].slot);
    }
  }

  lemma RankedCons(h: Handler, hs: seq<Handler>)
    requires Ranked(hs) && forall k :: k in hs ==> Rank(h.slot) < Rank(k.slot)
    ensures Ranked([h] + hs)
  {
    hide Rank;
    var all := [h] + hs;
    forall i, j | 0 <= i < j < |all|
      ensures Rank(all[i].slot) < Rank(all[j].slot)
    {
      assert all[j] == hs[j - 1] && hs[j - 1] in hs;
      if i > 0 {
        assert all[i] == hs[i - 1];
      }
    }
  }

  /** The bound ones of a ranked list are ranked. */
  lemma {:induction false} BoundRanked(hs: seq<Handler>, s: Sched)
    requires Loaded(s) && |s.vars| == s.varCount + LOCALS && Ranked(hs)
    ensures Ranked(BoundOnly(hs, s))
    decreases |hs|
  {
    if hs == [] {
    } else {
      hide Bound, Rank, Ranked;
      RankedTail(hs, hs[0]);
      BoundRanked(hs[1..], s);
      var bs := BoundOnly(hs[1..], s);
      forall k | k in bs
        ensures Rank(hs[0].slot) < Rank(k.slot)
      {
        BoundMembers(hs[1..], s, k);
        RankedTail(hs, k);
      }
      RankedCons(hs[0], bs);
      assert [] + bs == bs;
    }
  }

  /** With memory for all of them, the threads added are those of the bound handlers, one each. */
  lemma {:induction false} AddedMatch(s: Sched, hs: seq<Handler>, now: u64)
    requires SchedInv(s) && Loaded(s) && Grants(s.host.heap, |hs|)
    ensures |s.vars| == s.varCount + LOCALS
    ensures var bs, ts := BoundOnly(hs, s), Added(s, hs, now);
            |ts| == |bs| && forall i :: 0 <= i < |ts| ==> Carries(ts[i], bs[i], s, now)
    decreases |hs|
  {
    hide HandInv, HostInv, Spawn, Carries, Candidate, Bound, Grants, SchedInv;
    VarsFit(s);
    if hs != [] {
      GrantsOne(s.host.heap, |hs|);
      SpawnGrants(s, hs[0], now, |hs| - 1);
      SpawnQueues(s, hs[0], now);
      UnboundIsSkipped(s, hs[0], now);
      var s1 := Spawn(s, hs[0], now);
      AddedMatch(s1, hs[1..], now);
      SameStorage([], hs[1..], s, s1, now);
      var rest, bs := Added(s1, hs[1..], now), BoundOnly(hs[1..], s);
      forall i | 0 <= i < |rest|
        ensures Carries(rest[i], bs[i], s, now)
      {
        SameCarries(rest[i], bs[i], s, s1, now);
      }
    }
  }

  lemma SameCarries(t: Thread, h: Handler, s: Sched, r: Sched, now: u64)
    requires Loaded(s) && |s.vars| == s.varCount + LOCALS && SameButHost(r, s)
    ensures Carries(t, h, r, now) == Carries(t, h, s, now)
  {
  }

  lemma HandlersFit(cur: Packed, was: Packed, h: Heap)
    requires Grants(h, HANDLERS)
    ensures Grants(h, |Handlers(cur, was)|)
  {
    HandlersAre(cur, was);
    ButtonsFit(cur, was, 0);
    hide ButtonHandlers;
  }

  lemma {:induction false} ButtonsFit(cur: Packed, was: Packed, n: nat)
    requires n <= 16
    ensures |ButtonHandlers(cur, was, n)| <= 16 - n
    decreases 16 - n
  {
    if n < 16 {
      ButtonsFit(cur, was, n + 1);
    }
  }

  function Slots(hs: seq<Handler>): (r: seq<nat>)
    ensures |r| == |hs| && forall i :: 0 <= i < |r| ==> r[i] == hs[i].slot
  {
    seq<nat>(|hs|, i requires 0 <= i < |hs| => hs[i].slot)
  }

  lemma CarrierIsPoised(t: Thread, h: Handler, raw: Raw, was: Packed, s: Sched, now: u64)
    requires Loaded(s) && |s.vars| == s.varCount + LOCALS
    requires Carries(t, h, s, now) && Told(h.slot, h.args, raw, was)
    ensures Poised(t, h.slot, raw, was, s, now)
  {
    hide Told, Bound;
  }

  lemma SlotsCalled(hs: seq<Handler>, raw: Raw, was: Packed, s: Sched, slot: nat)
    requires Loaded(s) && |s.vars| == s.varCount + LOCALS && CalledFor(hs, raw, was)
    ensures slot in Slots(BoundOnly(hs, s)) <==> Calls(slot, raw, was) && Bound(s, slot)
  {
    var bs := BoundOnly(hs, s);
    hide BoundOnly, Calls, Told, Bound;
    if slot in Slots(bs) {
      var i :| 0 <= i < |bs| && bs[i].slot == slot;
      BoundMembers(hs, s, bs[i]);
    }
    if Calls(slot, raw, was) && Bound(s, slot) {
      var h :| h in hs && h.slot == slot;
      BoundMembers(hs, s, h);
      var i :| 0 <= i < |bs| && bs[i] == h;
      assert Slots(bs)[i] == slot;
    }
  }

  lemma BoundTold(hs: seq<Handler>, raw: Raw, was: Packed, s: Sched, h: Handler)
    requires Loaded(s) && |s.vars| == s.varCount + LOCALS && CalledFor(hs, raw, was) && h in BoundOnly(hs, s)
    ensures Told(h.slot, h.args, raw, was)
  {
    BoundMembers(hs, s, h);
    hide Calls, Told, Bound, BoundOnly;
  }

  lemma CarriersArePoised(ts: seq<Thread>, hs: seq<Handler>, raw: Raw, was: Packed, s: Sched, now: u64)
    requires Loaded(s) && |s.vars| == s.varCount + LOCALS && CalledFor(hs, raw, was) && Ranked(hs)
    requires var bs := BoundOnly(hs, s);
             |ts| == |bs| && forall i :: 0 <= i < |ts| ==> Carries(ts[i], bs[i], s, now)
    ensures Batch(ts, Slots(BoundOnly(hs, s)), raw, was, s, now)
  {
    BoundRanked(hs, s);
    var bs := BoundOnly(hs, s);
    hide BoundOnly, Rank, Calls, Told, Bound, Poised, Carries, CalledFor;
    forall i | 0 <= i < |ts|
      ensures Poised(ts[i], Slots(bs)[i], raw, was, s, now)
    {
      BoundTold(hs, raw, was, s, bs[i]);
      CarrierIsPoised(ts[i], bs[i], raw, was, s, now);
    }
    forall slot: nat
      ensures slot in Slots(bs) <==> Calls(slot, raw, was) && Bound(s, slot)
    {
      SlotsCalled(hs, raw, was, s, slot);
    }
  }

  /**
    A packet whose bytes differ from the last one's, with memory for its handlers: the ready
    list is as it was but for one stretch behind every thread due by now, and that stretch
    holds one thread for each bound slot the bytes call for - 0x12 first, then the stick,
    all buttons, each changed button ascending, and 0x13 last - due now at the slot's
    address, with the new and the old readings as its arguments.
  */
  lemma PacketStartsItsHandlers(s: Sched, raw: Raw, now: u64)
    requires SchedInv(s) && Loaded(s) && Grants(s.host.heap, HANDLERS)
    requires [raw[0], raw[1], raw[3], raw[4]] != s.cur
    ensures |s.vars| == s.varCount + LOCALS
    ensures var k := Position(s.host.ready, now);
            exists ts: seq<Thread>, slots ::
              && Batch(ts, slots, raw, s.cur, s, now)
              && Input(s, raw, now).host.ready == s.host.ready[..k] + ts + s.host.ready[k..]
  {
    VarsFit(s);
    AdvanceKeeps(s, raw);
    var s1 := Advance(s, raw);
    var hs := Handlers(s1.cur, s1.prev);
    SpawnAllQueues(s1, hs, now);
    HandlersFit(s1.cur, s1.prev, s.host.heap);
    AddedMatch(s1, hs, now);
    PacketCovers(raw, s.cur);
    PacketRanked(s1.cur, s1.prev);
    CarriersArePoised(Added(s1, hs, now), hs, raw, s.cur, s1, now);
    hide SchedInv, Handlers, Added, SpawnAll, Grants, Position, CalledFor, Ranked, BoundOnly, Carries;
    var slots := Slots(BoundOnly(hs, s1));
    BatchUnmoved(Added(s1, hs, now), slots, raw, s.cur, s, s1, now);
  }

  lemma BatchUnmoved(ts: seq<Thread>, slots: seq<nat>, raw: Raw, was: Packed, s: Sched, r: Sched, now: u64)
    requires Loaded(s) && |s.vars| == s.varCount + LOCALS && r == s.(cur := r.cur, prev := r.prev)
    requires Batch(ts, slots, raw, was, r, now)
    ensures Batch(ts, slots, raw, was, s, now)
  {
    hide Rank, Calls, Told;
  }
}

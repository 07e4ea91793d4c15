/** What walking a command block does to it, for every block and every bus. */
module CommandTheorems {
  import opened Words
  import opened CommandBlock

  // ---- one entry -------------------------------------------------------------------------

  /** Only the reply, and the two top bits of the reply-length byte, differ. */
  ghost predicate Within(b: Block, r: Block, e: Entry) {
    forall i :: 0 <= i < SIZE ==>
      r[i] == b[i] || ReplyAt(e) <= i < After(e) || (i == e.at + 1 && ReplyLength(r[i]) == ReplyLength(b[i]))
  }

  lemma WithinTrans(a: Block, b: Block, c: Block, e: Entry)
    requires Within(a, b, e) && Within(b, c, e)
    ensures Within(a, c, e)
  {
  }

  lemma MarkWithin(b: Block, e: Entry)
    requires Fits(e)
    ensures Within(b, Mark(b, e.at + 1), e)
  {
  }

  lemma LandWithin(b: Block, e: Entry, answer: seq<u8>)
    requires Fits(e)
    ensures Within(b, Received(b, e, answer), e)
  {
    var at := ReplyAt(e) - 1;
    var landed := Land(b, at, e.reply + 1, answer);
    var restored := landed[at := b[at]];
    assert Within(b, restored, e);
    var marked := if Accepted(e, landed[at]) then restored else Mark(restored, e.at + 1);
    assert Within(b, marked, e);
    assert Within(marked, Reverse(marked, ReplyAt(e), e.reply), e);
    WithinTrans(b, marked, Reverse(marked, ReplyAt(e), e.reply), e);
  }

  lemma ExecWithin(s: State, e: Entry)
    requires Fits(e) && e.device < |s.bus.devices|
    ensures Within(s.block, Exec(s, e).block, e)
  {
    LandWithin(s.block, e, FirstOf(s.bus.answers, []));
    hide Received;
  }

  lemma ExecuteWithin(s: State, e: Entry)
    requires Fits(e) && e.device < |s.bus.devices| && ReplyLength(s.block[e.at + 1]) == e.reply
    ensures Within(s.block, Execute(s, e).block, e)
  {
    var s1 := s.(block := s.block[e.at + 1 := e.reply]);
    assert Within(s.block, s1.block, e);
    ExecWithin(s1, e);
    WithinTrans(s.block, s1.block, Execute(s, e).block, e);
  }

  lemma ActWithin(s: State, e: Entry, pass: nat)
    requires Fits(e) && Typed(e) && ReplyLength(s.block[e.at + 1]) == e.reply
    ensures Within(s.block, Act(s, e, pass).block, e)
    ensures Act(s, e, pass).bus.acted == s.bus.acted + if Turn(e) == pass then [e] else []
    ensures |Act(s, e, pass).bus.devices| == |s.bus.devices|
  {
    MarkWithin(s.block, e);
    if e.device < |s.bus.devices| {
      ExecuteWithin(s, e);
    }
    hide Within, Exec, ReplyAt, After;
    if e.kind.CachedRead? && HasState(s.bus, e.device) {
      assert Within(s.block, ReadCached(s, e).block, e) by { CachedWithin(s, e); }
    }
  }

  lemma CachedWithin(s: State, e: Entry)
    requires Fits(e) && e.cmd == 1 && e.reply == 4 && HasState(s.bus, e.device)
    ensures Within(s.block, ReadCached(s, e).block, e)
  {
  }

  // ---- the walk ------------------------------------------------------------------------

  /** The entries parsed from `p` on are well formed, in order, without overlap, for ever later adapters. */
  ghost predicate InOrder(es: seq<Entry>, p: nat, index: nat) {
    && (forall k :: 0 <= k < |es| ==> Fits(es[k]) && Typed(es[k]) && p <= es[k].at && index <= es[k].device)
    && (forall j, k :: 0 <= j < k < |es| ==> After(es[j]) <= es[k].at && es[j].device < es[k].device)
  }

  lemma {:induction false} ParseInOrder(b: Block, p: nat, index: nat)
    ensures InOrder(Parse(b, p, index).entries, p, index)
    ensures Parse(b, p, index).error.Some? ==>
              var q := Parse(b, p, index).error.value;
              p <= q < GO
              && forall k :: 0 <= k < |Parse(b, p, index).entries| ==> After(Parse(b, p, index).entries[k]) <= q
    decreases SIZE - p
  {
    if p >= GO || b[p] == END {
    } else if b[p] == PAD {
      ParseInOrder(b, p + 1, index + 1);
    } else if b[p] == SKIP {
      ParseInOrder(b, p + 1, index);
    } else {
      var e := EntryAt(b, p, index);
      if Fits(e) {
        ParseInOrder(b, After(e), index + 1);
        var rest := Parse(b, After(e), index + 1);
        InOrderCons(e, rest.entries, index);
        hide InOrder;
        if rest.error.Some? {
          var l := Parse(b, p, index);
          assert l == Layout([e] + rest.entries, rest.error);
        }
      }
    }
  }

  lemma InOrderCons(e: Entry, rest: seq<Entry>, index: nat)
    requires Fits(e) && Typed(e) && e.device == index && InOrder(rest, After(e), index + 1)
    ensures InOrder([e] + rest, e.at, index)
  {
  }

  lemma {:induction false} ParseSuffix(b: Block, r: Block, p: nat, index: nat)
    requires forall i :: p <= i < SIZE ==> r[i] == b[i]
    ensures Parse(r, p, index) == Parse(b, p, index)
    decreases SIZE - p
  {
    if p >= GO || b[p] == END {
    } else if b[p] == PAD {
      ParseSuffix(b, r, p + 1, index + 1);
    } else if b[p] == SKIP {
      ParseSuffix(b, r, p + 1, index);
    } else {
      var e := EntryAt(b, p, index);
      if Fits(e) {
        ParseSuffix(b, r, After(e), index + 1);
      }
    }
  }

  /** The entries a pass owns, in block order. */
  function Owned(es: seq<Entry>, pass: nat): seq<Entry> {
    if es == [] then []
    else (if Turn(es[0]) == pass then [es[0]] else []) + Owned(es[1..], pass)
  }

  /** What a walk may write: an entry's reply, the top bits of its reply length, and the mark of an error. */
  ghost predicate Written(b: Block, r: Block, l: Layout, i: nat)
    requires i < SIZE
  {
    || r[i] == b[i]
    || (exists e :: e in l.entries && ReplyAt(e) <= i < After(e))
    || (ReplyLength(r[i]) == ReplyLength(b[i]) && exists e :: e in l.entries && i == e.at + 1)
    || (r[i] == Failed(b[i]) && l.error.Some? && i == l.error.value + 1)
  }

  /**
    From offset `p` on, for any bus and either pass: nothing before `p` is touched,
    the block still parses the same, only replies, marks and the error's byte
    differ, and exactly the pass's entries were acted on, in order.
  */
  lemma {:induction false} WalkKeeps(s: State, p: nat, index: nat, pass: nat)
    ensures var r := Walk(s, p, index, pass);
            var l := Parse(s.block, p, index);
            && (forall i :: 0 <= i < SIZE && i <= p ==> r.block[i] == s.block[i])
            && Parse(r.block, p, index) == l
            && (forall i :: 0 <= i < SIZE ==> Written(s.block, r.block, l, i))
            && r.bus.acted == s.bus.acted + Owned(l.entries, pass)
            && |r.bus.devices| == |s.bus.devices|
    decreases SIZE - p
  {
    var b := s.block;
    if p >= GO || b[p] == END {
    } else if b[p] == PAD {
      WalkKeeps(s, p + 1, index + 1, pass);
    } else if b[p] == SKIP {
      WalkKeeps(s, p + 1, index, pass);
    } else {
      var e := EntryAt(b, p, index);
      if Fits(e) {
        WalkEntry(s, e, p, index, pass);
      }
    }
  }

  lemma {:induction false} WalkEntry(s: State, e: Entry, p: nat, index: nat, pass: nat)
    requires p < GO && e == EntryAt(s.block, p, index) && Fits(e)
    requires s.block[p] != END && s.block[p] != PAD && s.block[p] != SKIP
    ensures var r := Walk(s, p, index, pass);
            var l := Parse(s.block, p, index);
            && (forall i :: 0 <= i < SIZE && i <= p ==> r.block[i] == s.block[i])
            && Parse(r.block, p, index) == l
            && (forall i :: 0 <= i < SIZE ==> Written(s.block, r.block, l, i))
            && r.bus.acted == s.bus.acted + Owned(l.entries, pass)
            && |r.bus.devices| == |s.bus.devices|
    decreases SIZE - p, 0
  {
    EntryUnfolds(s, e, p, index, pass);
    EntryBehind(s.block, p, index, e);
    hide *;
    var next := After(e);
    var s1 := Act(s, e, pass);
    ActWithin(s, e, pass);
    SuffixUntouched(s.block, s1.block, e, index + 1);
    WalkKeeps(s1, next, index + 1, pass);
    var r := Walk(s1, next, index + 1, pass);
    StillThere(s.block, s1.block, r.block, e, p, index);
    EntryParses(r.block, e, p, index);
    var rest := Parse(s1.block, next, index + 1);
    OwnedCons(e, rest.entries, pass);
    forall i | 0 <= i < SIZE
      ensures Written(s.block, r.block, Layout([e] + rest.entries, rest.error), i)
    {
      assert Written(s1.block, r.block, rest, i);
      WrittenLifts(s.block, s1.block, r.block, e, rest, i);
    }
  }

  /** The entry at an offset starts there, and what its length byte says is its reply length. */
  lemma EntryBehind(b: Block, p: nat, index: nat, e: Entry)
    requires p < GO && e == EntryAt(b, p, index) && Fits(e)
    ensures e.at == p && p < After(e) < GO < SIZE && ReplyLength(b[e.at + 1]) == e.reply
    ensures SIZE - After(e) < SIZE - p
  {
  }

  lemma SuffixUntouched(b: Block, mid: Block, e: Entry, index: nat)
    requires Fits(e) && Within(b, mid, e)
    ensures Parse(mid, After(e), index) == Parse(b, After(e), index)
  {
    ParseSuffix(b, mid, After(e), index);
    hide Parse;
  }

  /** What is written behind an entry, and into its reply, leaves it the same entry. */
  lemma StillThere(b: Block, mid: Block, r: Block, e: Entry, p: nat, index: nat)
    requires p < GO && e == EntryAt(b, p, index) && Fits(e) && Within(b, mid, e)
    requires forall i :: 0 <= i < SIZE && i <= After(e) ==> r[i] == mid[i]
    ensures EntryAt(r, p, index) == e && forall i :: 0 <= i < SIZE && i <= p ==> r[i] == b[i]
  {
  }

  lemma EntryParses(b: Block, e: Entry, p: nat, index: nat)
    requires p < GO && e == EntryAt(b, p, index) && Fits(e) && b[p] != END && b[p] != PAD && b[p] != SKIP
    ensures var rest := Parse(b, After(e), index + 1);
            Parse(b, p, index) == Layout([e] + rest.entries, rest.error)
  {
  }

  lemma EntryUnfolds(s: State, e: Entry, p: nat, index: nat, pass: nat)
    requires p < GO && e == EntryAt(s.block, p, index) && Fits(e)
    requires s.block[p] != END && s.block[p] != PAD && s.block[p] != SKIP
    ensures Typed(e) && Walk(s, p, index, pass) == Walk(Act(s, e, pass), After(e), index + 1, pass)
    ensures var rest := Parse(s.block, After(e), index + 1);
            Parse(s.block, p, index) == Layout([e] + rest.entries, rest.error)
  {
    hide Act;
  }

  lemma OwnedCons(e: Entry, rest: seq<Entry>, pass: nat)
    ensures Owned([e] + rest, pass) == (if Turn(e) == pass then [e] else []) + Owned(rest, pass)
  {
    assert ([e] + rest)[1..] == rest;
  }

  lemma WrittenLifts(b: Block, mid: Block, r: Block, e: Entry, rest: Layout, i: nat)
    requires i < SIZE && Fits(e) && Within(b, mid, e)
    requires Written(mid, r, rest, i) && (i <= After(e) ==> r[i] == mid[i])
    ensures Written(b, r, Layout([e] + rest.entries, rest.error), i)
  {
    var es := [e] + rest.entries;
    assert e in es;
    assert forall x :: x in rest.entries ==> x in es;
  }

  // ---- the block as a whole --------------------------------------------------------------

  /**
    Either pass leaves the parsed entries as they were and writes nothing but
    replies, the top bits of reply lengths and the mark of a structural error.
  */
  lemma ProcessKeepsTheCommands(s: State, pass: nat, i: nat)
    requires i < SIZE
    ensures Parse(Process(s, pass).block, 0, 0) == Parse(s.block, 0, 0)
    ensures Written(s.block, Process(s, pass).block, Parse(s.block, 0, 0), i)
  {
    WalkKeeps(s, 0, 0, pass);
  }

  /** The last byte of a block changes only for a structural error in the byte before the last. */
  lemma GoByte(s: State, pass: nat)
    ensures Process(s, pass).block[GO]
         == if Parse(s.block, 0, 0).error == Some(GO - 1) then Failed(s.block[GO]) else s.block[GO]
  {
    MarksItsError(s, 0, 0, pass);
    WalkKeeps(s, 0, 0, pass);
    ParseInOrder(s.block, 0, 0);
    hide Parse, Walk;
    assert Written(s.block, Process(s, pass).block, Parse(s.block, 0, 0), GO);
  }

  lemma {:induction false} MarksItsError(s: State, p: nat, index: nat, pass: nat)
    ensures var l := Parse(s.block, p, index);
            l.error.Some? && l.error.value < GO ==>
              Walk(s, p, index, pass).block[l.error.value + 1] == Failed(s.block[l.error.value + 1])
    decreases SIZE - p
  {
    var b := s.block;
    if p >= GO || b[p] == END {
    } else if b[p] == PAD {
      MarksItsError(s, p + 1, index + 1, pass);
    } else if b[p] == SKIP {
      MarksItsError(s, p + 1, index, pass);
    } else {
      var e := EntryAt(b, p, index);
      if Fits(e) {
        var s1 := Act(s, e, pass);
        ActWithin(s, e, pass);
        ParseSuffix(b, s1.block, After(e), index + 1);
        ParseInOrder(b, After(e), index + 1);
        hide Act;
        MarksItsError(s1, After(e), index + 1, pass);
      }
    }
  }

  lemma {:induction false} OwnedSplits(es: seq<Entry>)
    ensures multiset(Owned(es, 0)) + multiset(Owned(es, 1)) == multiset(es)
    ensures forall e :: e in Owned(es, 0) ==> Turn(e) == 0
    ensures forall e :: e in Owned(es, 1) ==> Turn(e) == 1
    decreases |es|
  {
    if es != [] {
      OwnedSplits(es[1..]);
      assert es == [es[0]] + es[1..];
    }
  }

  /**
    A block written to run and then read: every well-formed entry is acted on once,
    by the write or by the read as its kind says. The exception is a structural error
    in the byte before the last, whose mark falls on the go byte: then the read runs
    nothing.
  */
  lemma WriteThenReadServesEveryEntry(ch: Channel, bus: Bus, live: nat, buf: seq<u8>, into: seq<u8>)
    requires live > 0 && |buf| == SIZE && |into| == SIZE && buf[GO] == 1
    ensures var es := Parse(buf, 0, 0).entries;
            var (_, ch1, bus1) := Write(ch, bus, live, buf);
            var (_, bus2) := Read(ch1, bus1, live, into);
            && multiset(Owned(es, 0)) + multiset(Owned(es, 1)) == multiset(es)
            && bus1.acted == bus.acted + Owned(es, 0)
            && bus2.acted == bus1.acted + if Parse(buf, 0, 0).error == Some(GO - 1) then [] else Owned(es, 1)
  {
    hide Process, Parse, Owned, Swap;
    var b: Block := buf;
    var s := State(b, bus);
    OwnedSplits(Parse(b, 0, 0).entries);
    ProcessActs(s, 0);
    GoByte(s, 0);
    ProcessActs(Process(s, 0), 1);
    assert !SaysSwap(b);
  }

  /**
    A block that loses its read: a cached read, two commands that fill the block up to
    offset 0x3E, and there an entry whose lengths do not fit. Its reply length is the
    go byte itself.
  */
  predicate LosesItsRead(b: Block) {
    && b[0] == 1 && b[1] == 4 && b[2] == 0x01
    && b[7] == 4 && b[8] == 0x26
    && b[51] == 4 && b[52] == 5
    && b[0x3E] == 1 && b[GO] == 1
  }

  lemma LosesItsReadLayout(b: Block)
    requires LosesItsRead(b)
    ensures var l := Parse(b, 0, 0);
            && l.error == Some(GO - 1) && |l.entries| == 3
            && l.entries[0] == Entry(0, 1, 4, 0, CachedRead)
            && Owned(l.entries, 1) == [l.entries[0]]
  {
    var first, second, third := EntryAt(b, 0, 0), EntryAt(b, 7, 1), EntryAt(b, 51, 2);
    assert After(first) == 7 && After(second) == 51 && After(third) == 0x3E;
    assert Fits(first) && Fits(second) && Fits(third) && !Fits(EntryAt(b, 0x3E, 3));
    assert Turn(first) == 1 && Turn(second) == 0 && Turn(third) == 0;
    OwnedThree(first, second, third);
    hide Fits, After, Owned, Turn;
    var last := Parse(b, 0x3E, 3);
    assert last == Layout([], Some(0x3E));
    assert Parse(b, 51, 2) == Layout([third], Some(0x3E));
    assert Parse(b, 7, 1) == Layout([second, third], Some(0x3E));
    var es := [first, second, third];
    assert Parse(b, 0, 0) == Layout(es, Some(0x3E));
  }

  lemma OwnedThree(a: Entry, b: Entry, c: Entry)
    requires Turn(a) == 1 && Turn(b) == 0 && Turn(c) == 0
    ensures Owned([a, b, c], 1) == [a]
  {
    hide Turn;
    assert [a, b, c][1..] == [b, c] && [b, c][1..] == [c] && [c][1..] == [];
    assert Owned([], 1) == [];
    assert Owned([c], 1) == [];
    assert Owned([b, c], 1) == [];
  }

  /**
    Such blocks exist, and for every one of them: written to run, it is accepted; the
    read that follows answers success and acts on nothing, though it owns an entry.
  */
  lemma AnErrorAtTheEndLosesTheRead(ch: Channel, bus: Bus, live: nat, buf: seq<u8>, into: seq<u8>)
    requires live > 0 && |buf| == SIZE && |into| == SIZE && LosesItsRead(buf)
    ensures var (written, ch1, bus1) := Write(ch, bus, live, buf);
            var (read, bus2) := Read(ch1, bus1, live, into);
            && written.outcome == Success && read.outcome == Success
            && Owned(Parse(buf, 0, 0).entries, 1) != [] && bus2.acted == bus1.acted
  {
    LosesItsReadLayout(buf);
    WriteThenReadServesEveryEntry(ch, bus, live, buf, into);
    hide Parse, Owned, Process, LosesItsRead;
  }

  lemma SomeBlockLosesItsRead() returns (b: Block)
    ensures LosesItsRead(b)
  {
    b := seq<u8>(SIZE, i => if i == 1 || i == 7 || i == 51 then 4
                            else if i == 0 || i == 2 || i == 0x3E || i == GO then 1
                            else if i == 8 then 0x26 else if i == 52 then 5 else 0);
  }

  lemma ProcessActs(s: State, pass: nat)
    ensures Parse(Process(s, pass).block, 0, 0) == Parse(s.block, 0, 0)
    ensures Process(s, pass).bus.acted == s.bus.acted + Owned(Parse(s.block, 0, 0).entries, pass)
  {
    WalkKeeps(s, 0, 0, pass);
  }

  lemma SwapTwice(b: Block)
    ensures Swap(Swap(b)) == b
  {
  }

  /**
    A big-endian client sees what a little-endian one would, byte-swapped: writing a
    swapped block that asks to run and reading it back swaps the answers.
  */
  lemma ByteOrderIsTransparent(ch: Channel, bus: Bus, live: nat, b: Block, into: seq<u8>)
    requires live > 0 && |into| == SIZE
    requires b[0x3C] == 0 && b[0x3D] == 0 && b[0x3E] == 0 && b[GO] == 1
    ensures var (_, ch1, bus1) := Write(ch, bus, live, b);
            var (_, ch2, bus2) := Write(ch, bus, live, Swap(b));
            var (native, after1) := Read(ch1, bus1, live, into);
            var (swapped, after2) := Read(ch2, bus2, live, into);
            && ch1.block == ch2.block && bus1 == bus2 && after1 == after2
            && |native.buf| == SIZE && swapped.buf == Swap(native.buf) && native.buf == Swap(swapped.buf)
  {
    SwapTwice(b);
    var (_, ch1, bus1) := Write(ch, bus, live, b);
    SwapTwice(Refreshed(ch1, bus1).block);
    hide Process;
    assert SaysSwap(Swap(b)) && !SaysSwap(b);
  }

  // ---- what an entry is answered -----------------------------------------------------------

  /** A reply received in full is delivered in reverse, and nothing else changes but the mark. */
  lemma ReplyIsReversed(b: Block, e: Entry, answer: seq<u8>, i: nat)
    requires Fits(e) && |answer| > e.reply && i < SIZE
    ensures Received(b, e, answer)[i]
         == if ReplyAt(e) <= i < After(e) then answer[e.reply - (i - ReplyAt(e))]
            else if i == e.at + 1 && !Accepted(e, answer[0]) then Failed(b[i])
            else b[i]
  {
  }

  /** The status byte the driver looks at: what was received first, or the command's own last byte. */
  function StatusSeen(b: Block, e: Entry, answer: seq<u8>): u8
    requires Fits(e)
  {
    if answer == [] then b[ReplyAt(e) - 1] else answer[0]
  }

  /** The entry goes on the wire. */
  predicate Wired(s: State, e: Entry)
    requires Fits(e)
  {
    && HasState(s.bus, e.device) && s.bus.devices[e.device].hasTransport
    && !IsPakWrite(s.block, e) && !IsPakRead(s.block, e) && FirstOf(s.bus.claims, false)
  }

  /**
    When an entry of the write pass comes back marked: the adapter is missing, the
    reply is of the maximum length, or the wire was used and its status refused. A
    busy slot and a missing transport leave no mark.
  */
  lemma MarkMeansRefused(s: State, e: Entry)
    requires Fits(e) && Typed(e) && e.kind.Plain?
    ensures Act(s, e, 0).block[e.at + 1] >= 0x80 <==>
            || e.reply == MAX_LEN || e.device >= |s.bus.devices|
            || (Wired(s, e) && !Accepted(e, StatusSeen(s.block, e, FirstOf(s.bus.answers, []))))
  {
    if e.reply < MAX_LEN && e.device < |s.bus.devices| {
      var s1 := s.(block := s.block[e.at + 1 := e.reply]);
      assert IsPakWrite(s1.block, e) == IsPakWrite(s.block, e) && IsPakRead(s1.block, e) == IsPakRead(s.block, e);
      var answer := FirstOf(s.bus.answers, []);
      var at := ReplyAt(e) - 1;
      assert Land(s1.block, at, e.reply + 1, answer)[at] == StatusSeen(s.block, e, answer);
    }
  }

  /** An identify remembers whether its last reply byte reported an accessory. */
  lemma IdentifyRemembers(s: State, e: Entry)
    requires Fits(e) && Typed(e) && e.kind.Identify? && Wired(s, e)
    requires |FirstOf(s.bus.answers, [])| > 3
    ensures var d := Act(s, e, 1).bus.devices[e.device];
            && d.pakPresent == (s.bus.answers[0][1] % 2 == 1)
            && d.keepalive == if s.bus.answers[0][1] % 4 == 1 then s.bus.devices[e.device].keepalive else 0
  {
    var s1 := s.(block := s.block[e.at + 1 := e.reply]);
    ReplyIsReversed(s1.block, e, s.bus.answers[0], e.at + 5);
    hide Received;
  }

  /**
    The identify sequence: what an emulated read answers after an emulated write.
    The check byte fits the data, inverted when there is no accessory.
  */
  lemma PakReadAnswersTheLastWrite(s: State, w: Entry, later: Block, r: Entry, i: nat)
    requires Fits(w) && IsPakWrite(s.block, w) && HasState(s.bus, w.device)
    requires Fits(r) && r.device == w.device && IsPakRead(later, r)
    requires i < 0x20
    ensures var b := Exec(State(later, Exec(s, w).bus), r).block;
            var present := s.bus.devices[w.device].pakPresent;
            var data := if present && s.block[w.at + 5] != 0xFE then 0x80 else 0x00;
            var crc := EmulatedCrc(data, 0);
            b[ReplyAt(r) + i] == data && b[ReplyAt(r) + 0x20] == if present then crc else 0xFF - crc
  {
  }
}

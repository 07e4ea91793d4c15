/**
  What a client is answered over whole calls: each entry of a block is answered as if it
  were alone in it, and the cached controller read from the adapter's last packet.
*/
module CommandAnswers {
  import opened Words
  import opened CommandBlock
  import opened CommandTheorems

  /** What no command changes about an adapter. */
  predicate SameAdapter(a: Device, b: Device) {
    a.hasState == b.hasState && a.raw == b.raw && a.hasTransport == b.hasTransport && a.hasEnable == b.hasEnable
  }

  ghost predicate SameAdapters(a: Bus, b: Bus) {
    && |a.devices| == |b.devices|
    && forall n :: 0 <= n < |a.devices| ==> SameAdapter(a.devices[n], b.devices[n])
  }

  lemma ExecAdapters(s: State, e: Entry)
    requires Fits(e) && e.device < |s.bus.devices|
    ensures SameAdapters(Exec(s, e).bus, s.bus)
  {
    hide Received, Transfers, Fill, EmulatedCrc;
  }

  lemma ActAdapters(s: State, e: Entry, pass: nat)
    requires Fits(e) && Typed(e)
    ensures SameAdapters(Act(s, e, pass).bus, s.bus)
  {
    if e.device < |s.bus.devices| {
      ExecAdapters(s.(block := s.block[e.at + 1 := e.reply]), e);
    }
    hide Exec, Land, Mark;
  }

  // ---- an entry alone --------------------------------------------------------------------

  /** Two blocks agree on an entry. */
  ghost predicate Agree(a: Block, b: Block, e: Entry) {
    forall i :: e.at <= i < After(e) && i < SIZE ==> a[i] == b[i]
  }

  lemma ReceivedAlone(a: Block, b: Block, e: Entry, answer: seq<u8>)
    requires Fits(e) && Agree(a, b, e)
    ensures Agree(Received(a, e, answer), Received(b, e, answer), e)
  {
    var at := ReplyAt(e) - 1;
    var la, lb := Land(a, at, e.reply + 1, answer), Land(b, at, e.reply + 1, answer);
    assert Agree(la, lb, e);
    var ra, rb := la[at := a[at]], lb[at := b[at]];
    assert a[at] == b[at] && la[at] == lb[at];
    assert Agree(ra, rb, e);
    var ma := if Accepted(e, la[at]) then ra else Mark(ra, e.at + 1);
    var mb := if Accepted(e, lb[at]) then rb else Mark(rb, e.at + 1);
    assert Agree(ma, mb, e);
    ReverseAlone(ma, mb, e);
    hide Agree, Land, Mark, Reverse, Accepted;
  }

  lemma ReverseAlone(a: Block, b: Block, e: Entry)
    requires Fits(e) && Agree(a, b, e)
    ensures Agree(Reverse(a, ReplyAt(e), e.reply), Reverse(b, ReplyAt(e), e.reply), e)
  {
  }

  lemma TransfersAlone(a: Block, b: Block, e: Entry)
    requires Fits(e) && Agree(a, b, e)
    ensures Transfers(a, e) == Transfers(b, e)
  {
    if e.cmd >= 5 {
      assert a[e.at + 5..ReplyAt(e)] == b[e.at + 5..ReplyAt(e)];
    }
  }

  lemma PathsAlone(a: Block, b: Block, e: Entry)
    requires Fits(e) && Agree(a, b, e)
    ensures IsPakWrite(a, e) == IsPakWrite(b, e) && IsPakRead(a, e) == IsPakRead(b, e)
  {
  }

  lemma PakWriteAlone(s: State, b: Block, e: Entry)
    requires Fits(e) && e.device < |s.bus.devices| && Agree(s.block, b, e)
    requires IsPakWrite(s.block, e) && IsPakWrite(b, e)
    ensures Agree(PakWrite(s, e).block, PakWrite(State(b, s.bus), e).block, e)
    ensures PakWrite(s, e).bus == PakWrite(State(b, s.bus), e).bus
  {
    hide EmulatedCrc;
  }

  lemma PakReadAlone(s: State, b: Block, e: Entry)
    requires Fits(e) && e.device < |s.bus.devices| && Agree(s.block, b, e)
    requires IsPakRead(s.block, e) && IsPakRead(b, e)
    ensures Agree(PakRead(s, e).block, PakRead(State(b, s.bus), e).block, e)
    ensures PakRead(s, e).bus == PakRead(State(b, s.bus), e).bus
  {
  }

  /** Executing an entry looks at nothing of the block but the entry. */
  lemma ExecAlone(s: State, b: Block, e: Entry)
    requires Fits(e) && e.device < |s.bus.devices| && Agree(s.block, b, e)
    ensures Agree(Exec(s, e).block, Exec(State(b, s.bus), e).block, e)
    ensures Exec(s, e).bus == Exec(State(b, s.bus), e).bus
  {
    PathsAlone(s.block, b, e);
    hide Agree, PakWrite, PakRead, Received, Transfers, IsPakWrite, IsPakRead;
    if IsPakWrite(s.block, e) {
      PakWriteAlone(s, b, e);
    } else if IsPakRead(s.block, e) {
      PakReadAlone(s, b, e);
    } else {
      ReceivedAlone(s.block, b, e, FirstOf(s.bus.answers, []));
      TransfersAlone(s.block, b, e);
    }
  }

  lemma ExecuteAlone(s: State, b: Block, e: Entry)
    requires Fits(e) && e.device < |s.bus.devices| && Agree(s.block, b, e)
    ensures Agree(Execute(s, e).block, Execute(State(b, s.bus), e).block, e)
    ensures Execute(s, e).bus == Execute(State(b, s.bus), e).bus
  {
    assert Agree(s.block[e.at + 1 := e.reply], b[e.at + 1 := e.reply], e);
    hide Agree, Exec;
    ExecAlone(s.(block := s.block[e.at + 1 := e.reply]), b[e.at + 1 := e.reply], e);
  }

  lemma MarkAlone(a: Block, b: Block, e: Entry)
    requires Fits(e) && Agree(a, b, e)
    ensures Agree(Mark(a, e.at + 1), Mark(b, e.at + 1), e)
  {
  }

  lemma ReadCachedAlone(s: State, b: Block, e: Entry)
    requires Fits(e) && e.cmd == 1 && e.reply == 4 && Agree(s.block, b, e)
    ensures Agree(ReadCached(s, e).block, ReadCached(State(b, s.bus), e).block, e)
    ensures ReadCached(s, e).bus == s.bus
  {
  }

  lemma IdentifiedAlone(s: State, b: Block, e: Entry)
    requires Fits(e) && e.cmd == 1 && e.reply == 3 && Agree(s.block, b, e)
    ensures Agree(Identified(s, e).block, Identified(State(b, s.bus), e).block, e)
    ensures Identified(s, e).bus == Identified(State(b, s.bus), e).bus
  {
    MarkAlone(s.block, b, e);
    if HasState(s.bus, e.device) {
      ExecuteAlone(s, b, e);
      assert Execute(s, e).block[e.at + 5] == Execute(State(b, s.bus), e).block[e.at + 5];
    }
    hide Agree, Execute, Mark;
  }

  /** So does acting on it in either pass. */
  lemma ActAlone(s: State, b: Block, e: Entry, pass: nat)
    requires Fits(e) && Typed(e) && Agree(s.block, b, e)
    ensures Agree(Act(s, e, pass).block, Act(State(b, s.bus), e, pass).block, e)
    ensures Act(s, e, pass).bus == Act(State(b, s.bus), e, pass).bus
  {
    MarkAlone(s.block, b, e);
    if e.device < |s.bus.devices| {
      ExecuteAlone(s, b, e);
    }
    if e.kind.CachedRead? {
      ReadCachedAlone(s, b, e);
    } else if e.kind.Identify? {
      IdentifiedAlone(s, b, e);
    }
    hide Agree, Execute, Mark, ReadCached, Identified;
  }

  // ---- an entry among others -------------------------------------------------------------

  /** The entry is answered as if it were alone in the block, by adapters as they were but for what commands set. */
  ghost predicate Alone(s: State, r: Block, e: Entry, pass: nat) {
    Fits(e) && Typed(e) && exists bus :: AnsweredBy(s, r, e, pass, bus)
  }

  ghost predicate AnsweredBy(s: State, r: Block, e: Entry, pass: nat, bus: Bus)
    requires Fits(e) && Typed(e)
  {
    SameAdapters(bus, s.bus) && Agree(r, Act(State(s.block, bus), e, pass).block, e)
  }

  lemma {:induction false} WalkAnswers(s: State, p: nat, index: nat, pass: nat, e: Entry)
    requires e in Parse(s.block, p, index).entries
    ensures Alone(s, Walk(s, p, index, pass).block, e, pass)
    decreases SIZE - p
  {
    hide Act, Alone;
    var b := s.block;
    if b[p] == PAD {
      WalkAnswers(s, p + 1, index + 1, pass, e);
    } else if b[p] == SKIP {
      WalkAnswers(s, p + 1, index, pass, e);
    } else {
      var first := EntryAt(b, p, index);
      var s1 := Act(s, first, pass);
      ActWithin(s, first, pass);
      WalkKeeps(s1, After(first), index + 1, pass);
      var r := Walk(s1, After(first), index + 1, pass);
      if e == first {
        AnsweredFirst(s, s1, r.block, e, pass);
      } else {
        ParseSuffix(b, s1.block, After(first), index + 1);
        ParseInOrder(b, After(first), index + 1);
        WalkAnswers(s1, After(first), index + 1, pass, e);
        AnsweredLater(s, first, r.block, e, pass);
      }
    }
  }

  lemma AnsweredFirst(s: State, s1: State, r: Block, e: Entry, pass: nat)
    requires Fits(e) && Typed(e) && s1 == Act(s, e, pass)
    requires forall i :: 0 <= i < SIZE && i <= After(e) ==> r[i] == s1.block[i]
    ensures Alone(s, r, e, pass)
  {
    hide Act;
    assert State(s.block, s.bus) == s;
    assert AnsweredBy(s, r, e, pass, s.bus);
  }

  lemma AnsweredLater(s: State, first: Entry, r: Block, e: Entry, pass: nat)
    requires Fits(first) && Typed(first) && ReplyLength(s.block[first.at + 1]) == first.reply
    requires After(first) <= e.at && Alone(Act(s, first, pass), r, e, pass)
    ensures Alone(s, r, e, pass)
  {
    var s1 := Act(s, first, pass);
    ActAdapters(s, first, pass);
    ActWithin(s, first, pass);
    assert Agree(s1.block, s.block, e);
    var bus :| AnsweredBy(s1, r, e, pass, bus);
    hide Act;
    ActAlone(State(s1.block, bus), s.block, e, pass);
    assert AnsweredBy(s, r, e, pass, bus) by {
      Answers(s, s1, r, e, pass, bus);
    }
  }

  lemma Answers(s: State, s1: State, r: Block, e: Entry, pass: nat, bus: Bus)
    requires Fits(e) && Typed(e) && AnsweredBy(s1, r, e, pass, bus) && SameAdapters(s1.bus, s.bus)
    requires Agree(Act(State(s1.block, bus), e, pass).block, Act(State(s.block, bus), e, pass).block, e)
    ensures AnsweredBy(s, r, e, pass, bus)
  {
    hide Act;
  }

  /** In a pass over a whole block, every entry is answered as if it were alone. */
  lemma EntriesAreAnsweredAlone(s: State, pass: nat, e: Entry)
    requires e in Parse(s.block, 0, 0).entries
    ensures Alone(s, Process(s, pass).block, e, pass)
  {
    WalkAnswers(s, 0, 0, pass, e);
  }

  // ---- the cached controller read --------------------------------------------------------

  /** The four bytes of a cached read: the two button bytes, the high one first, then the stick. */
  ghost predicate ShowsPacket(r: Block, e: Entry, raw: RawPacket)
    requires Fits(e) && e.reply == 4
  {
    && r[ReplyAt(e)] == raw[4] && r[ReplyAt(e) + 1] == raw[3]
    && r[ReplyAt(e) + 2] == raw[0] && r[ReplyAt(e) + 3] == raw[1]
  }

  /** The entry is as it was written but for the mark. */
  ghost predicate OnlyMarked(r: Block, b: Block, e: Entry)
    requires Fits(e)
  {
    forall i :: e.at <= i < After(e) ==> r[i] == if i == e.at + 1 then Failed(b[i]) else b[i]
  }

  lemma CachedAnswer(s: State, r: Block, e: Entry)
    requires e.kind.CachedRead? && Alone(s, r, e, 1)
    ensures if HasState(s.bus, e.device)
            then ShowsPacket(r, e, s.bus.devices[e.device].raw) && r[e.at + 1] == s.block[e.at + 1]
            else OnlyMarked(r, s.block, e)
  {
    var bus :| AnsweredBy(s, r, e, 1, bus);
    assert HasState(bus, e.device) == HasState(s.bus, e.device);
  }

  lemma UntouchedByWrite(s: State, r: Block, e: Entry)
    requires !e.kind.Plain? && Alone(s, r, e, 0)
    ensures Agree(r, s.block, e)
  {
  }

  // ---- over whole calls ------------------------------------------------------------------

  /** A little-endian block that asks to run and keeps its go byte. */
  predicate Runs(b: Block) {
    b[GO] == 1 && Parse(b, 0, 0).error != Some(GO - 1)
  }

  /** The block a read hands out after such a block was written: both passes, the go byte cleared. */
  function Answered(b: Block, bus: Bus, later: Bus): Block {
    Process(State(Process(State(b, bus), 0).block, later), 1).block[GO := 0]
  }

  lemma ReadHandsOut(ch: Channel, bus: Bus, live: nat, b: Block, later: Bus, liveLater: nat, into: seq<u8>)
    requires live > 0 && liveLater > 0 && |into| == SIZE && Runs(b)
    ensures var (written, ch1, _) := Write(ch, bus, live, b);
            var (read, _) := Read(ch1, later, liveLater, into);
            written.outcome == Success && read.outcome == Success && read.buf == Answered(b, bus, later)
  {
    GoByte(State(b, bus), 0);
    hide Process, Parse, Swap;
    assert !SaysSwap(b);
  }

  lemma SwappedReadHandsOut(ch: Channel, bus: Bus, live: nat, b: Block, later: Bus, liveLater: nat, into: seq<u8>)
    requires live > 0 && liveLater > 0 && |into| == SIZE && Runs(b)
    requires b[0x3C] == 0 && b[0x3D] == 0 && b[0x3E] == 0
    ensures var (written, ch1, _) := Write(ch, bus, live, Swap(b));
            var (read, _) := Read(ch1, later, liveLater, into);
            && written.outcome == Success && read.outcome == Success
            && |read.buf| == SIZE && Swap(read.buf) == Answered(b, bus, later)
  {
    SwapTwice(b);
    SwapTwice(Answered(b, bus, later));
    SwapAsks(b);
    hide Process, Parse, Swap, SaysSwap, Runs;
    var (_, ch1, _) := Write(ch, bus, live, Swap(b));
    assert ch1 == Channel(Process(State(b, bus), 0).block, true) by { RunsGo(b); }
    SwappedRead(ch1, later, liveLater, into, b, bus);
  }

  lemma SwapAsks(b: Block)
    requires b[0x3C] == 0 && b[0x3D] == 0 && b[0x3E] == 0 && b[GO] == 1
    ensures SaysSwap(Swap(b))
  {
  }

  lemma RunsGo(b: Block)
    requires Runs(b)
    ensures b[GO] == 1
  {
  }

  lemma SwappedRead(ch1: Channel, later: Bus, liveLater: nat, into: seq<u8>, b: Block, bus: Bus)
    requires liveLater > 0 && |into| == SIZE && Runs(b)
    requires ch1 == Channel(Process(State(b, bus), 0).block, true)
    ensures var (read, _) := Read(ch1, later, liveLater, into);
            read.outcome == Success && read.buf == Swap(Answered(b, bus, later))
  {
    GoByte(State(b, bus), 0);
    hide Process, Parse, Swap;
  }

  /** The write pass leaves the entries of the read pass as they came; the read pass those of the write pass. */
  lemma AnsweredByItsPass(b: Block, bus: Bus, later: Bus, e: Entry)
    requires e in Parse(b, 0, 0).entries
    ensures Fits(e) && Typed(e)
    ensures var s := State(b, if e.kind.Plain? then bus else later);
            Alone(s, Answered(b, bus, later), e, Turn(e))
  {
    var s := State(b, bus);
    var w := Process(s, 0).block;
    EntriesAreAnsweredAlone(s, 0, e);
    ProcessActs(s, 0);
    EntriesAreAnsweredAlone(State(w, later), 1, e);
    hide Process, Parse;
    var r := Process(State(w, later), 1).block;
    assert Agree(r[GO := 0], r, e);
    if e.kind.Plain? {
      PassedBy(State(w, later), r, e, 1);
      AloneOn(s, w, r[GO := 0], e, 0);
    } else {
      PassedBy(s, w, e, 0);
      AloneFrom(State(w, later), b, r, e, 1);
      AloneOn(State(b, later), r, r[GO := 0], e, 1);
    }
  }

  lemma PassedBy(s: State, r: Block, e: Entry, pass: nat)
    requires Alone(s, r, e, pass) && Turn(e) != pass
    ensures Agree(r, s.block, e)
  {
  }

  lemma AloneOn(s: State, r: Block, q: Block, e: Entry, pass: nat)
    requires Alone(s, r, e, pass) && Agree(q, r, e)
    ensures Alone(s, q, e, pass)
  {
    hide Act;
    var bus :| AnsweredBy(s, r, e, pass, bus);
    assert AnsweredBy(s, q, e, pass, bus);
  }

  lemma AloneFrom(s: State, b: Block, r: Block, e: Entry, pass: nat)
    requires Alone(s, r, e, pass) && Agree(s.block, b, e)
    ensures Alone(State(b, s.bus), r, e, pass)
  {
    hide Act;
    var bus :| AnsweredBy(s, r, e, pass, bus);
    ActAlone(State(s.block, bus), b, e, pass);
    assert AnsweredBy(State(b, s.bus), r, e, pass, bus);
  }

  /** What the client finds at a cached read, in a buffer in its driver's byte order. */
  ghost predicate CachedAnswered(r: seq<u8>, b: Block, later: Bus, e: Entry) {
    && |r| == SIZE && Fits(e) && e.reply == 4
    && if HasState(later, e.device)
       then ShowsPacket(r, e, later.devices[e.device].raw) && r[e.at + 1] == b[e.at + 1]
       else OnlyMarked(r, b, e)
  }

  lemma CachedIsAnswered(b: Block, bus: Bus, later: Bus, e: Entry)
    requires e in Parse(b, 0, 0).entries && e.kind.CachedRead?
    ensures CachedAnswered(Answered(b, bus, later), b, later, e)
  {
    AnsweredByItsPass(b, bus, later, e);
    hide Process, Parse;
    CachedAnswer(State(b, later), Answered(b, bus, later), e);
    hide ShowsPacket, OnlyMarked, Answered;
  }

  /**
    A block written to run and later read: wherever it asks for the cached controller, the
    client finds the buttons and the stick of the last packet of that adapter, as it is at
    the read, and the mark where no adapter is.
  */
  lemma CachedReadsShowTheLastPacket(ch: Channel, bus: Bus, live: nat, b: Block, later: Bus, liveLater: nat,
                                     into: seq<u8>, e: Entry)
    requires live > 0 && liveLater > 0 && |into| == SIZE && Runs(b)
    requires e in Parse(b, 0, 0).entries && e.kind.CachedRead?
    ensures var (_, ch1, _) := Write(ch, bus, live, b);
            var (read, _) := Read(ch1, later, liveLater, into);
            read.outcome == Success && CachedAnswered(read.buf, b, later, e)
  {
    ReadHandsOut(ch, bus, live, b, later, liveLater, into);
    CachedIsAnswered(b, bus, later, e);
    hide Write, Read, Parse, Answered, CachedAnswered;
  }

  /** So does a big-endian client, in its own byte order. */
  lemma SwappedClientsSeeTheLastPacket(ch: Channel, bus: Bus, live: nat, b: Block, later: Bus, liveLater: nat,
                                       into: seq<u8>, e: Entry)
    requires live > 0 && liveLater > 0 && |into| == SIZE && Runs(b)
    requires b[0x3C] == 0 && b[0x3D] == 0 && b[0x3E] == 0
    requires e in Parse(b, 0, 0).entries && e.kind.CachedRead?
    ensures var (_, ch1, _) := Write(ch, bus, live, Swap(b));
            var (read, _) := Read(ch1, later, liveLater, into);
            read.outcome == Success && |read.buf| == SIZE && CachedAnswered(Swap(read.buf), b, later, e)
  {
    SwappedReadHandsOut(ch, bus, live, b, later, liveLater, into);
    CachedIsAnswered(b, bus, later, e);
    hide Write, Read, Parse, Answered, CachedAnswered, Swap;
  }

  /**
    Every other entry is answered over the two calls by its own pass, as if it were alone:
    what the client finds between the entry's start and its end does not depend on the
    rest of the block.
  */
  lemma EveryEntryIsAnsweredAlone(ch: Channel, bus: Bus, live: nat, b: Block, later: Bus, liveLater: nat,
                                  into: seq<u8>, e: Entry)
    requires live > 0 && liveLater > 0 && |into| == SIZE && Runs(b) && e in Parse(b, 0, 0).entries
    ensures var (_, ch1, _) := Write(ch, bus, live, b);
            var (read, _) := Read(ch1, later, liveLater, into);
            && |read.buf| == SIZE
            && Alone(State(b, if e.kind.Plain? then bus else later), read.buf, e, Turn(e))
  {
    ReadHandsOut(ch, bus, live, b, later, liveLater, into);
    AnsweredByItsPass(b, bus, later, e);
    hide Write, Read, Parse, Answered, Alone;
  }

  /** A command to an adapter that is not there comes back as it was but for the mark. */
  lemma MissingAdaptersAreMarked(ch: Channel, bus: Bus, live: nat, b: Block, later: Bus, liveLater: nat,
                                 into: seq<u8>, e: Entry)
    requires live > 0 && liveLater > 0 && |into| == SIZE && Runs(b) && e in Parse(b, 0, 0).entries
    requires e.device >= |bus.devices| && e.device >= |later.devices|
    ensures var (_, ch1, _) := Write(ch, bus, live, b);
            var (read, _) := Read(ch1, later, liveLater, into);
            |read.buf| == SIZE && Fits(e) && OnlyMarked(read.buf, b, e)
  {
    EveryEntryIsAnsweredAlone(ch, bus, live, b, later, liveLater, into, e);
    hide Write, Read, Parse;
    var (_, ch1, _) := Write(ch, bus, live, b);
    var (read, _) := Read(ch1, later, liveLater, into);
    MissingIsMarked(State(b, if e.kind.Plain? then bus else later), read.buf, e);
  }

  lemma MissingIsMarked(s: State, r: Block, e: Entry)
    requires Alone(s, r, e, Turn(e)) && e.device >= |s.bus.devices|
    ensures OnlyMarked(r, s.block, e)
  {
    var bus :| AnsweredBy(s, r, e, Turn(e), bus);
  }

  // ---- what goes out ---------------------------------------------------------------------

  /** The command bytes a command's transfers carry: in the setup packet, and for the long form in its data. */
  function Carried(ts: seq<Transfer>): seq<u8>
    requires ts != [] && |ts[0].setup| == 6
  {
    if ts[0].Receive? then ts[0].setup[2..] else ts[0].setup[3..] + ts[0].data
  }

  /** What every command's transfers have in common. */
  predicate Whole(ts: seq<Transfer>, e: Entry, command: seq<u8>) {
    && ts != [] && |ts[0].setup| == 6 && e.cmd == |command| <= |Carried(ts)|
    && Carried(ts)[..e.cmd] == command
    && (forall i :: e.cmd <= i < |Carried(ts)| ==> Carried(ts)[i] == 0)
    && ts[|ts| - 1].Receive? && ts[|ts| - 1].length == e.reply + 1
    && forall i :: 0 <= i < |ts| ==> ts[i].device == e.device
  }

  /**
    A command of up to four bytes travels in one setup packet that names its length; every
    command byte goes out, in order, and one byte more than the reply is asked for.
  */
  lemma ShortCommandsTravelWhole(b: Block, e: Entry)
    requires Fits(e) && e.cmd < 5
    ensures var ts := Transfers(b, e);
            Whole(ts, e, b[e.at + 2..ReplyAt(e)]) && |ts| == 1 && ts[0].setup[..2] == [0xC0, 0x20 + e.cmd]
  {
    var ts := Transfers(b, e);
    var bytes := [CommandByte(b, e, 0), CommandByte(b, e, 1), CommandByte(b, e, 2), CommandByte(b, e, 3)];
    assert Carried(ts) == bytes;
    assert bytes[..e.cmd] == b[e.at + 2..ReplyAt(e)];
    assert ts[0].setup[..2] == [0xC0, 0x20 + e.cmd];
  }

  /** A longer one is sent whole, its reply length first, and its reply fetched by a fixed request. */
  lemma LongCommandsTravelWhole(b: Block, e: Entry)
    requires Fits(e) && e.cmd >= 5
    ensures var ts := Transfers(b, e);
            && Whole(ts, e, b[e.at + 2..ReplyAt(e)]) && |ts| == 2 && ts[0].Send?
            && ts[0].setup[..3] == [0x40, 0x20, e.reply] && ts[1].setup == [0xC0, 0x71, 0x30, 0, 0, 0]
  {
    var ts := Transfers(b, e);
    var bytes := b[e.at + 2..ReplyAt(e)];
    assert ts[0].setup[3..] == bytes[..3];
    assert ts[0].data == bytes[3..];
    assert Carried(ts) == bytes[..3] + bytes[3..] == bytes;
    assert ts[0].setup[..3] == [0x40, 0x20, e.reply];
  }

  /** The emulated write keeps its value; only the motor register, written 0 or 1, drives an accessory's motor. */
  lemma OnlyTheMotorRegisterDrives(s: State, e: Entry)
    requires Fits(e) && IsPakWrite(s.block, e) && HasState(s.bus, e.device)
    ensures var was, d := s.bus.devices[e.device], Exec(s, e).bus.devices[e.device];
            var value := s.block[e.at + 5];
            && d.pakValue == value && d == was.(pakValue := d.pakValue, motor := d.motor)
            && d.motor == was.motor + (if s.block[e.at + 3] == 0xC0 && value < 2 && was.pakPresent && was.hasEnable
                                       then [value == 1] else [])
            && forall n :: 0 <= n < |s.bus.devices| && n != e.device ==> Exec(s, e).bus.devices[n] == s.bus.devices[n]
  {
    hide EmulatedCrc;
  }

  // ---- from the bytes --------------------------------------------------------------------

  /** `k` padding bytes, and then a command of a length a block has room for. */
  predicate Padded(b: Block, k: nat) {
    k < GO && (forall i :: 0 <= i < k ==> b[i] == 0x00) && 0 < b[k] < 0xFE
  }

  /** The lengths and the place are ones the driver takes. */
  predicate Sound(b: Block, k: nat)
    requires k < GO
  {
    var cmd: int, reply: int := b[k], b[k + 1] % 0x40;
    cmd <= 0x26 && reply <= 0x26 && (cmd <= 4 || reply <= 3) && k < 5 && k + cmd + reply + 2 < 0x3F
  }

  lemma {:induction false} PadsCount(b: Block, k: nat, p: nat)
    requires Padded(b, k) && p <= k
    ensures var l := Parse(b, p, p);
            if Sound(b, k) then l.entries != [] && l.entries[0] == EntryAt(b, k, k)
            else l == Layout([], Some(k))
    decreases k - p
  {
    if p < k {
      PadsCount(b, k, p + 1);
    }
  }

  /**
    The first command of a block, from its bytes: after `k` padding bytes it is for adapter
    `k`; it is an entry exactly when its lengths and its place are ones the driver takes,
    and otherwise the walk stops there.
  */
  lemma FirstCommandIsParsed(b: Block, k: nat)
    requires Padded(b, k)
    ensures var l, e := Parse(b, 0, 0), EntryAt(b, k, k);
            && (if Sound(b, k) then l.entries != [] && l.entries[0] == e else l == Layout([], Some(k)))
            && e.at == k && e.device == k && e.cmd == b[k] && e.reply == b[k + 1] % 0x40
            && (Sound(b, k) ==>
                  && (e.kind.CachedRead? <==> e.cmd == 1 && e.reply == 4 && b[k + 2] == 0x01)
                  && (e.kind.Identify? <==> e.cmd == 1 && e.reply == 3 && (b[k + 2] == 0x00 || b[k + 2] == 0xFF)))
  {
    PadsCount(b, k, 0);
    hide Parse;
  }

  /**
    The bytes 01 04 01 behind `k` padding bytes: written to run and read back, the four
    bytes after them are the button bytes, high one first, and the stick of the last
    packet of adapter `k`.
  */
  lemma AControllerReadFromItsBytes(ch: Channel, bus: Bus, live: nat, b: Block, later: Bus, liveLater: nat,
                                    into: seq<u8>, k: nat)
    requires live > 0 && liveLater > 0 && |into| == SIZE && Runs(b) && Padded(b, k) && k < 5
    requires b[k] == 1 && b[k + 1] == 4 && b[k + 2] == 1 && HasState(later, k)
    ensures var (_, ch1, _) := Write(ch, bus, live, b);
            var (read, _) := Read(ch1, later, liveLater, into);
            var raw := later.devices[k].raw;
            |read.buf| == SIZE && read.buf[k + 1..k + 7] == [4, b[k + 2], raw[4], raw[3], raw[0], raw[1]]
  {
    assert SIZE == 0x40;
    hide *;
    ReadIsParsed(b, k);
    var e := EntryAt(b, k, k);
    EveryEntryIsAnsweredAlone(ch, bus, live, b, later, liveLater, into, e);
    var (_, ch1, _) := Write(ch, bus, live, b);
    var (read, _) := Read(ch1, later, liveLater, into);
    ReadTurn(e);
    ControllerBytes(State(b, later), read.buf, e);
  }

  lemma ReadTurn(e: Entry)
    requires e.kind.CachedRead?
    ensures Turn(e) == 1
  {
  }

  lemma ReadIsParsed(b: Block, k: nat)
    requires Padded(b, k) && k < 5 && b[k] == 1 && b[k + 1] == 4 && b[k + 2] == 1
    ensures k < GO
    ensures var e := EntryAt(b, k, k);
            e in Parse(b, 0, 0).entries && e.kind.CachedRead? && e.at == k && e.device == k
  {
    FirstCommandIsParsed(b, k);
    assert Parse(b, 0, 0).entries[0] in Parse(b, 0, 0).entries;
    hide Parse;
  }

  lemma ControllerBytes(s: State, r: Block, e: Entry)
    requires e.kind.CachedRead? && Alone(s, r, e, 1) && HasState(s.bus, e.device)
    ensures Fits(e)
    ensures var raw := s.bus.devices[e.device].raw;
            r[e.at + 1..e.at + 7] == [s.block[e.at + 1], s.block[e.at + 2], raw[4], raw[3], raw[0], raw[1]]
  {
    CachedAnswer(s, r, e);
    var bus :| AnsweredBy(s, r, e, 1, bus);
    assert Act(State(s.block, bus), e, 1).block[e.at + 2] == s.block[e.at + 2];
    hide Act;
    assert r[e.at + 2] == s.block[e.at + 2];
  }

  // ---- the channel -----------------------------------------------------------------------

  /**
    What a read answers by its length. One byte is the number of adapters, also when there is
    none; nothing else is answered then. No other length but sixty-four carries anything.
  */
  lemma ReadsByLength(ch: Channel, bus: Bus, live: nat, buf: seq<u8>)
    ensures var (r, bus1) := Read(ch, bus, live, buf);
            && (|buf| == 1 ==> r == Answer(Success, 1, [live % 256]))
            && (|buf| != 1 && live == 0 ==> r == Answer(NoSuchDevice, 0, buf))
            && (live > 0 && |buf| > 64 ==> r == Answer(InvalidParameter, 0, buf))
            && (live > 0 && |buf| < 64 && |buf| != 1 ==> r == Answer(Success, |buf|, buf))
            && (|buf| != 64 || live == 0 || ch.block[63] != 1 ==> bus1 == bus)
            && (|buf| == 64 && live > 0 && ch.block[63] != 1 ==>
                  r == Answer(Success, 64, if ch.swapped then Swap(ch.block) else ch.block))
  {
    hide Process, Swap;
  }

  /** A write of any other length than sixty-four, or with no adapter there, leaves the channel and the bus alone. */
  lemma WritesByLength(ch: Channel, bus: Bus, live: nat, buf: seq<u8>)
    requires live == 0 || |buf| != 64
    ensures var (r, ch1, bus1) := Write(ch, bus, live, buf);
            && ch1 == ch && bus1 == bus && r.buf == buf
            && r.outcome == (if live == 0 then NoSuchDevice else if |buf| == 0 then Success else InvalidParameter)
  {
    hide Process, Swap;
  }

  /** A full write keeps the block for later reads; without the go byte nothing is run. */
  lemma WritesAreKept(ch: Channel, bus: Bus, live: nat, b: Block)
    requires live > 0 && b[GO] != 1 && !SaysSwap(b)
    ensures var (r, ch1, bus1) := Write(ch, bus, live, b);
            r == Answer(Success, 64, b) && ch1 == Channel(b, false) && bus1 == bus
  {
    hide Process, Swap;
  }
}

/** The command-block channel over its buffers, updated in place. */
module CommandEngine {
  import opened Words
  import opened CommandBlock

  /** Reverse `n` bytes of a block from `at` on, swapping from both ends. */
  method ReverseInPlace(a: array<u8>, at: nat, n: nat)
    requires a.Length == SIZE && at + n <= SIZE
    modifies a
    ensures a[..] == Reverse(old(a[..]), at, n)
  {
    var i := 0;
    while i < n / 2
      invariant 0 <= i <= n / 2
      invariant forall k :: 0 <= k < SIZE ==>
                  a[k] == if at <= k < at + i || at + n - i <= k < at + n then old(a[at + n - 1 - (k - at)])
                          else old(a[k])
    {
      a[at + i], a[at + n - 1 - i] := a[at + n - 1 - i], a[at + i];
      i := i + 1;
    }
  }

  method FillInPlace(a: array<u8>, at: nat, n: nat, x: u8)
    requires a.Length == SIZE && at + n <= SIZE
    modifies a
    ensures a[..] == Fill(old(a[..]), at, n, x)
  {
    for i := 0 to n
      invariant forall k :: 0 <= k < SIZE ==> a[k] == if at <= k < at + i then x else old(a[k])
    {
      a[at + i] := x;
    }
  }

  lemma MirrorInGroup(i: nat, k: nat)
    requires i % 4 == 0 && i <= k < i + 4 <= SIZE
    ensures Mirror(k) == i + 3 - (k - i)
  {
  }

  /** `cmd_swap`. */
  method SwapInPlace(a: array<u8>)
    requires a.Length == SIZE
    modifies a
    ensures a[..] == Swap(old(a[..]))
  {
    hide Mirror;
    var i := 0;
    while i < SIZE
      invariant 0 <= i <= SIZE && i % 4 == 0
      invariant forall k :: 0 <= k < i ==> a[k] == old(a[..])[Mirror(k)]
      invariant forall k :: i <= k < SIZE ==> a[k] == old(a[k])
    {
      MirrorInGroup(i, i);
      MirrorInGroup(i, i + 1);
      MirrorInGroup(i, i + 2);
      MirrorInGroup(i, i + 3);
      a[i], a[i + 3] := a[i + 3], a[i];
      a[i + 1], a[i + 2] := a[i + 2], a[i + 1];
      i := i + 4;
    }
  }

  /** Bytes of a transfer landing in the block. */
  method LandInPlace(a: array<u8>, at: nat, room: nat, data: seq<u8>)
    requires a.Length == SIZE && at + room <= SIZE
    modifies a
    ensures a[..] == Land(old(a[..]), at, room, data)
  {
    var i := 0;
    while i < room && i < |data|
      invariant 0 <= i <= room && i <= |data|
      invariant forall k :: 0 <= k < SIZE ==> a[k] == if at <= k < at + i then data[k - at] else old(a[k])
    {
      a[at + i] := data[i];
      i := i + 1;
    }
  }

  /** Receive over the last command byte, look at the status, put the byte back, reverse the reply. */
  method ReceiveInPlace(a: array<u8>, ghost e: Entry, at: nat, answer: seq<u8>)
    requires a.Length == SIZE && Fits(e) && e.at == at && a[at] == e.cmd && a[at + 1] == e.reply
    modifies a
    ensures a[..] == Received(old(a[..]), e, answer)
  {
    hide Land, Reverse, ReplyLength;
    var cmd, reply := a[at], a[at + 1];
    var statusAt := at + cmd + 1;
    var saved := a[statusAt];
    LandInPlace(a, statusAt, reply + 1, answer);
    var status := a[statusAt];
    a[statusAt] := saved;
    var accepted := if cmd < 5 then status != 0 else status >= 0x80 && ReplyLength(status) == reply;
    if !accepted {
      a[at + 1] := Failed(a[at + 1]);
    }
    ReverseInPlace(a, statusAt + 1, reply);
  }

  /** The registry's adapters with the bus behind them, and one channel onto them. */
  class Port {
    var devices: seq<Device>
    var claims: seq<bool>
    var answers: seq<seq<u8>>
    ghost var wire: seq<Transfer>
    ghost var acted: seq<Entry>

    const block: array<u8>
    var swapped: bool

    ghost function TheBus(): Bus
      reads this
    {
      Bus(devices, claims, answers, wire, acted)
    }

    ghost function View(a: array<u8>): State
      requires a.Length == SIZE
      reads this, a
    {
      State(a[..], TheBus())
    }

    ghost predicate Valid()
    {
      block.Length == SIZE
    }

    ghost function TheChannel(): Channel
      requires Valid()
      reads this, block
    {
      Channel(block[..], swapped)
    }

    /** `core_cmd_channel_init`. */
    constructor (devices: seq<Device>, claims: seq<bool>, answers: seq<seq<u8>>)
      ensures Valid() && fresh(block) && TheBus() == Bus(devices, claims, answers, [], [])
      ensures TheChannel() == Channel(seq<u8>(SIZE, i => 0), false)
    {
      this.devices, this.claims, this.answers := devices, claims, answers;
      wire, acted, swapped := [], [], false;
      block := new u8[SIZE](_ => 0);
    }

    /** The emulated accessory write. */
    method WritePak(a: array<u8>, ghost e: Entry, n: nat, at: nat)
      requires a.Length == SIZE && Fits(e) && e.at == at && e.device == n < |devices|
      requires IsPakWrite(a[..], e)
      modifies this`devices, a
      ensures View(a) == PakWrite(old(View(a)), e)
    {
      var d := devices[n];
      var value, replyAt := a[at + 5], at + 0x25;
      var motor := a[at + 3] == 0xC0;
      a[replyAt] := EmulatedCrc(value, a[replyAt]);
      d := d.(pakValue := value);
      if !d.pakPresent {
        a[replyAt] := 0xFF - a[replyAt];
      } else if motor && value <= 1 && d.hasEnable {
        d := d.(motor := d.motor + [value == 1]);
      }
      devices := devices[n := d];
    }

    /** The emulated accessory read. */
    method ReadPak(a: array<u8>, ghost e: Entry, n: nat, at: nat)
      requires a.Length == SIZE && Fits(e) && e.at == at && e.device == n < |devices|
      requires IsPakRead(a[..], e)
      modifies a
      ensures View(a) == PakRead(old(View(a)), e)
    {
      var d := devices[n];
      var fill: u8, crc: u8;
      if !d.pakPresent {
        fill, crc := 0x00, 0xFF;
      } else if d.pakValue == 0xFE {
        fill, crc := 0x00, 0x00;
      } else {
        fill, crc := 0x80, 0xB8;
      }
      a[at + 5 + 0x20] := crc;
      ghost var b := a[..];
      FillInPlace(a, at + 5, 0x20, fill);
      assert a[..] == Fill(old(a[..]), at + 5, 0x20, fill)[at + 5 + 0x20 := crc];
    }

    /** The claim of the vendor slot. */
    method ClaimSlot() returns (won: bool)
      modifies this`claims
      ensures won == FirstOf(old(claims), false) && claims == RestOf(old(claims))
    {
      won := false;
      if claims != [] {
        won := claims[0];
        claims := claims[1..];
      }
    }

    /** The wire: one transfer or two, the status byte looked at and put back, the reply reversed. */
    method Exchange(a: array<u8>, ghost e: Entry, n: nat, at: nat)
      requires a.Length == SIZE && Fits(e) && e.at == at && e.device == n && a[at] == e.cmd && a[at + 1] == e.reply
      modifies this`claims, this`answers, this`wire, a
      ensures View(a) == OnTheWire(old(View(a)), e)
    {
      var won := ClaimSlot();
      if won {
        wire := wire + Transfers(a[..], e);
        var answer := FirstOf(answers, []);
        answers := RestOf(answers);
        ReceiveInPlace(a, e, at, answer);
      }
    }

    /** `core_cmd_exec`. */
    method ExecInPlace(a: array<u8>, ghost e: Entry, n: nat, at: nat)
      requires a.Length == SIZE && Fits(e) && e.at == at && e.device == n < |devices|
      requires a[at] == e.cmd && a[at + 1] == e.reply
      modifies this`devices, this`claims, this`answers, this`wire, a
      ensures View(a) == Exec(old(View(a)), e)
    {
      hide PakWrite, PakRead, OnTheWire;
      var d := devices[n];
      if d.hasState {
        var cmd, reply := a[at], a[at + 1];
        if cmd == 0x23 && reply == 1 && a[at + 2] == 0x03
           && ((a[at + 3] == 0x80 && a[at + 4] == 0x01) || (a[at + 3] == 0xC0 && a[at + 4] == 0x1B)) {
          WritePak(a, e, n, at);
        } else if cmd == 3 && reply == 0x21 && a[at + 2] == 0x02 && a[at + 3] == 0x80 && a[at + 4] == 0x01 {
          ReadPak(a, e, n, at);
        } else if d.hasTransport {
          Exchange(a, e, n, at);
        }
      }
    }

    /** Put the reply length back without its mark, and execute. */
    method ExecuteInPlace(a: array<u8>, ghost e: Entry, n: nat, at: nat, reply: nat)
      requires a.Length == SIZE && Fits(e) && e.at == at && e.device == n < |devices|
      requires a[at] == e.cmd && e.reply == reply
      modifies this`devices, this`claims, this`answers, this`wire, a
      ensures View(a) == Execute(old(View(a)), e)
    {
      a[at + 1] := reply;
      assert View(a) == old(View(a)).(block := old(a[..])[at + 1 := reply]);
      ExecInPlace(a, e, n, at);
    }

    method MarkFailed(a: array<u8>, i: nat)
      requires a.Length == SIZE && i < SIZE
      modifies a
      ensures a[..] == CommandBlock.Mark(old(a[..]), i)
    {
      a[i] := Failed(a[i]);
    }

    /** Answer the cached controller read. */
    method AnswerCached(a: array<u8>, ghost e: Entry, n: nat, at: nat)
      requires a.Length == SIZE && Fits(e) && e.at == at && e.device == n && e.cmd == 1 && e.reply == 4
      modifies a
      ensures View(a) == ReadCached(old(View(a)), e)
    {
      if n >= |devices| || !devices[n].hasState {
        MarkFailed(a, at + 1);
      } else {
        var raw := devices[n].raw;
        a[at + 3] := raw[4];
        a[at + 4] := raw[3];
        a[at + 5] := raw[0];
        a[at + 6] := raw[1];
        assert a[..] == Land(old(a[..]), at + 3, 4, [raw[4], raw[3], raw[0], raw[1]]);
      }
    }

    /** Run the identify and keep its answer. */
    method RunIdentify(a: array<u8>, ghost e: Entry, n: nat, at: nat)
      requires a.Length == SIZE && Fits(e) && e.at == at && e.device == n && e.cmd == 1 && e.reply == 3 && a[at] == 1
      modifies this`devices, this`claims, this`answers, this`wire, a
      ensures View(a) == Identified(old(View(a)), e)
    {
      hide Exec;
      if n >= |devices| || !devices[n].hasState {
        MarkFailed(a, at + 1);
      } else {
        ExecuteInPlace(a, e, n, at, 3);
        var d := devices[n].(pakPresent := a[at + 5] % 2 == 1);
        if a[at + 5] % 4 != 1 {
          d := d.(keepalive := 0);
        }
        devices := devices[n := d];
      }
    }

    /** Everything else. */
    method RunPlain(a: array<u8>, ghost e: Entry, n: nat, at: nat, reply: nat)
      requires a.Length == SIZE && Fits(e) && e.at == at && e.device == n && e.reply == reply && a[at] == e.cmd
      modifies this`devices, this`claims, this`answers, this`wire, a
      ensures View(a) == Other(old(View(a)), e)
    {
      hide Exec;
      if reply < MAX_LEN && n < |devices| {
        ExecuteInPlace(a, e, n, at, reply);
      } else {
        MarkFailed(a, at + 1);
      }
    }

    /** One entry, if this pass owns it. */
    method ActInPlace(a: array<u8>, ghost e: Entry, n: nat, at: nat, pass: nat)
      requires a.Length == SIZE && at < GO && e == EntryAt(a[..], at, n) && Fits(e)
      modifies this, a
      ensures View(a) == Act(old(View(a)), e, pass) && swapped == old(swapped)
    {
      hide ReadCached, Identified, Other;
      var cmd, reply := a[at], ReplyLength(a[at + 1]);
      if cmd == 1 && reply == 4 && a[at + 2] == 0x01 {
        if pass == 1 {
          AnswerCached(a, e, n, at);
          acted := old(acted) + [e];
        }
      } else if cmd == 1 && reply == 3 && (a[at + 2] == 0x00 || a[at + 2] == 0xFF) {
        if pass == 1 {
          RunIdentify(a, e, n, at);
          acted := old(acted) + [e];
        }
      } else if pass == 0 {
        RunPlain(a, e, n, at, reply);
        acted := old(acted) + [e];
      }
    }

    /** `core_cmd_process`. */
    method ProcessInPlace(a: array<u8>, pass: nat)
      requires a.Length == SIZE
      modifies this, a
      ensures View(a) == Process(old(View(a)), pass) && swapped == old(swapped)
    {
      hide Act, TheBus, Turn, Typed;
      var p, index := 0, 0;
      while p < GO
        invariant Walk(View(a), p, index, pass) == Process(old(View(a)), pass) && swapped == old(swapped)
        decreases SIZE - p
      {
        var cmd := a[p];
        if cmd == PAD {
          p, index := p + 1, index + 1;
        } else if cmd == END {
          return;
        } else if cmd == SKIP {
          p := p + 1;
        } else {
          var reply := ReplyLength(a[p + 1]);
          var span := cmd + reply;
          ghost var e := EntryAt(a[..], p, index);
          if cmd > MAX_LEN || index >= MAX_DEVICES || reply > MAX_LEN || (cmd > 4 && reply > 3) || p + span + 2 >= GO {
            MarkFailed(a, p + 1);
            return;
          }
          ActInPlace(a, e, index, p, pass);
          p, index := p + span + 2, index + 1;
        }
      }
    }

    /** `core_cmd_read`: the channel's block stays as it is. */
    method ReadBlock(live: nat, buf: array<u8>) returns (outcome: Outcome, info: nat)
      requires Valid() && buf != block
      modifies this, buf
      ensures TheChannel() == old(TheChannel())
      ensures (Answer(outcome, info, buf[..]), TheBus()) == Read(old(TheChannel()), old(TheBus()), live, old(buf[..]))
    {
      hide Process, Swap;
      if live == 0 && buf.Length != 1 { return NoSuchDevice, 0; }
      if buf.Length == 0 { return Success, 0; }
      if buf.Length > SIZE { return InvalidParameter, 0; }
      if buf.Length == 1 {
        buf[0] := live % 0x100;
        assert buf[..] == [live % 0x100];
      } else if buf.Length == SIZE {
        for i := 0 to SIZE
          invariant forall k :: 0 <= k < i ==> buf[k] == block[k]
          invariant TheChannel() == old(TheChannel()) && TheBus() == old(TheBus())
        {
          buf[i] := block[i];
        }
        assert buf[..] == block[..];
        if buf[GO] == 1 {
          ProcessInPlace(buf, 1);
          buf[GO] := 0;
        }
        assert View(buf) == Refreshed(old(TheChannel()), old(TheBus()));
        if swapped {
          SwapInPlace(buf);
        }
      }
      return Success, buf.Length;
    }

    /** `core_cmd_write`. */
    method WriteBlock(live: nat, buf: array<u8>) returns (outcome: Outcome, info: nat)
      requires Valid() && buf != block
      modifies this, block, buf
      ensures (Answer(outcome, info, buf[..]), TheChannel(), TheBus())
           == Write(old(TheChannel()), old(TheBus()), live, old(buf[..]))
    {
      hide Process, Swap;
      if live == 0 { return NoSuchDevice, 0; }
      if buf.Length == 0 { return Success, 0; }
      if buf.Length != SIZE { return InvalidParameter, buf.Length; }
      swapped := buf[0x3C] == 1 && buf[0x3D] == 0 && buf[0x3E] == 0 && buf[0x3F] == 0;
      if swapped {
        SwapInPlace(buf);
      }
      ghost var native := buf[..];
      for i := 0 to SIZE
        invariant forall k :: 0 <= k < i ==> block[k] == buf[k]
        invariant buf[..] == native && TheBus() == old(TheBus()) && swapped == SaysSwap(old(buf[..]))
      {
        block[i] := buf[i];
      }
      assert block[..] == native;
      if buf[GO] == 1 {
        ProcessInPlace(block, 0);
      }
      return Success, SIZE;
    }
  }
}

/**
  The SDK command block: sixty-four bytes of entries, each a command for one adapter
  with room for its reply. A block is walked twice, once when it is written and once
  when it is read, and every answer goes into the block itself.
*/
module CommandBlock {
  import opened Words

  const SIZE: nat := 0x40
  const GO: nat := 0x3F
  const MAX_LEN: nat := 0x26
  const MAX_DEVICES: nat := 5
  const PAD: u8 := 0x00
  const END: u8 := 0xFE
  const SKIP: u8 := 0xFF

  type Block = b: seq<u8> | |b| == 0x40
    witness seq<u8>(0x40, i => 0)

  type RawPacket = r: seq<u8> | |r| == 5 witness [0, 0, 0, 0, 0]

  /** An adapter, as far as the channel can see it. `motor` lists what the motor register was told. */
  datatype Device = Device(
    hasState: bool, raw: RawPacket, pakPresent: bool, pakValue: u8, keepalive: u64,
    hasTransport: bool, hasEnable: bool, motor: seq<bool>)

  /** One control transfer: the setup packet, and the data sent or the length asked for. */
  datatype Transfer =
    | Receive(device: nat, setup: seq<u8>, length: nat)
    | Send(device: nat, setup: seq<u8>, data: seq<u8>)

  /**
    The adapters and the bus. `claims` decides each attempt on the vendor slot and
    `answers` what each receiving transfer brings; `wire` and `acted` are the
    model's books of the transfers made and the entries acted on.
  */
  datatype Bus = Bus(
    devices: seq<Device>, claims: seq<bool>, answers: seq<seq<u8>>, wire: seq<Transfer>, acted: seq<Entry>)

  datatype State = State(block: Block, bus: Bus)

  // ---- the layout of a block ---------------------------------------------------------

  /** The two entries a read answers, and the rest. */
  datatype Kind = CachedRead | Identify | Plain

  /** An entry: its offset, its two lengths, the adapter it addresses and its kind. */
  datatype Entry = Entry(at: nat, cmd: nat, reply: nat, device: nat, kind: Kind)

  function ReplyAt(e: Entry): nat {
    e.at + e.cmd + 2
  }

  function After(e: Entry): nat {
    e.at + e.cmd + e.reply + 2
  }

  /** What the structural check lets through. */
  predicate Fits(e: Entry) {
    && 0 < e.cmd <= MAX_LEN && e.reply <= MAX_LEN && e.device < MAX_DEVICES
    && !(e.cmd > 4 && e.reply > 3) && After(e) < GO
  }

  /** The low six bits of a reply-length byte. */
  function ReplyLength(x: u8): nat {
    x % 0x40
  }

  /** `x | 0x80`: the mark of a failed entry. */
  function Failed(x: u8): u8 {
    if x < 0x80 then x + 0x80 else x
  }

  function KindOf(cmd: nat, reply: nat, first: u8): Kind {
    if cmd == 1 && reply == 4 && first == 0x01 then CachedRead
    else if cmd == 1 && reply == 3 && (first == 0x00 || first == 0xFF) then Identify
    else Plain
  }

  function EntryAt(b: Block, p: nat, index: nat): Entry
    requires p < GO
  {
    var reply := ReplyLength(b[p + 1]);
    Entry(p, b[p], reply, index, KindOf(b[p], reply, if p + 2 < SIZE then b[p + 2] else 0))
  }

  /** The entries of a block in order, and the offset of the structural error that stops the walk, if any. */
  datatype Layout = Layout(entries: seq<Entry>, error: Option<nat>)

  function Parse(b: Block, p: nat, index: nat): Layout
    decreases SIZE - p
  {
    if p >= GO || b[p] == END then Layout([], None)
    else if b[p] == PAD then Parse(b, p + 1, index + 1)
    else if b[p] == SKIP then Parse(b, p + 1, index)
    else
      var e := EntryAt(b, p, index);
      if !Fits(e) then Layout([], Some(p))
      else
        var rest := Parse(b, After(e), index + 1);
        Layout([e] + rest.entries, rest.error)
  }

  /** The pass that acts on an entry: a read for the first two kinds, a write for the rest. */
  function Turn(e: Entry): nat {
    if e.kind.Plain? then 0 else 1
  }

  // ---- writing into a block ------------------------------------------------------------

  function Mark(b: Block, i: nat): Block
    requires i < SIZE
  {
    b[i := Failed(b[i])]
  }

  /** Bytes landing in the block from `at` on, as many as there is room for. */
  function Land(b: Block, at: nat, room: nat, data: seq<u8>): Block
    requires at + room <= SIZE
  {
    seq<u8>(SIZE, i requires 0 <= i < SIZE => if at <= i < at + room && i - at < |data| then data[i - at] else b[i])
  }

  function Fill(b: Block, at: nat, n: nat, x: u8): Block
    requires at + n <= SIZE
  {
    seq<u8>(SIZE, i requires 0 <= i < SIZE => if at <= i < at + n then x else b[i])
  }

  /** The reply in reverse order. */
  function Reverse(b: Block, at: nat, n: nat): Block
    requires at + n <= SIZE
  {
    seq<u8>(SIZE, i requires 0 <= i < SIZE => if at <= i < at + n then b[at + n - 1 - (i - at)] else b[i])
  }

  // ---- executing one entry -------------------------------------------------------------

  /** The check byte of 32 equal bytes, for the four values an identify uses. */
  function EmulatedCrc(value: u8, current: u8): u8 {
    match value
    case 0xFE => 0xE1
    case 0x80 => 0xB8
    case 0x01 => 0xEB
    case 0x00 => 0x00
    case _ => current
  }

  function WithDevice(s: State, n: nat, d: Device): State
    requires n < |s.bus.devices|
  {
    s.(bus := s.bus.(devices := s.bus.devices[n := d]))
  }

  predicate IsPakWrite(b: Block, e: Entry)
    requires Fits(e)
  {
    e.cmd == 0x23 && e.reply == 1 && b[e.at + 2] == 0x03
    && ((b[e.at + 3] == 0x80 && b[e.at + 4] == 0x01) || (b[e.at + 3] == 0xC0 && b[e.at + 4] == 0x1B))
  }

  predicate IsPakRead(b: Block, e: Entry)
    requires Fits(e)
  {
    e.cmd == 3 && e.reply == 0x21 && b[e.at + 2] == 0x02 && b[e.at + 3] == 0x80 && b[e.at + 4] == 0x01
  }

  /** The emulated accessory write. Without an accessory the check byte is answered inverted. */
  function PakWrite(s: State, e: Entry): State
    requires Fits(e) && IsPakWrite(s.block, e) && e.device < |s.bus.devices|
  {
    var d := s.bus.devices[e.device];
    var value := s.block[e.at + 5];
    var crc := EmulatedCrc(value, s.block[ReplyAt(e)]);
    var drives := d.pakPresent && s.block[e.at + 3] == 0xC0 && value <= 1 && d.hasEnable;
    var d1 := d.(pakValue := value, motor := if drives then d.motor + [value == 1] else d.motor);
    WithDevice(s.(block := s.block[ReplyAt(e) := if d.pakPresent then crc else 0xFF - crc]), e.device, d1)
  }

  /** The emulated accessory read: 32 equal bytes and their check byte. */
  function PakRead(s: State, e: Entry): State
    requires Fits(e) && IsPakRead(s.block, e) && e.device < |s.bus.devices|
  {
    var d := s.bus.devices[e.device];
    var fill := if d.pakPresent && d.pakValue != 0xFE then 0x80 else 0x00;
    var crc := if !d.pakPresent then 0xFF else if d.pakValue == 0xFE then 0x00 else 0xB8;
    s.(block := Fill(s.block, ReplyAt(e), 0x20, fill)[ReplyAt(e) + 0x20 := crc])
  }

  /** The command bytes a setup packet carries; those the command is too short for are zero. */
  function CommandByte(b: Block, e: Entry, k: nat): u8
    requires Fits(e) && k < 4
  {
    if k < e.cmd then b[e.at + 2 + k] else 0
  }

  /** The transfers of one command, the slot being held from the first to the last. */
  function Transfers(b: Block, e: Entry): seq<Transfer>
    requires Fits(e)
  {
    if e.cmd < 5 then
      [Receive(e.device,
               [0xC0, 0x20 + e.cmd, CommandByte(b, e, 0), CommandByte(b, e, 1), CommandByte(b, e, 2),
                CommandByte(b, e, 3)], e.reply + 1)]
    else
      [Send(e.device, [0x40, 0x20, e.reply, b[e.at + 2], b[e.at + 3], b[e.at + 4]], b[e.at + 5..ReplyAt(e)]),
       Receive(e.device, [0xC0, 0x71, 0x30, 0x00, 0x00, 0x00], e.reply + 1)]
  }

  /** Whether the status byte that came with the reply says it is one. */
  predicate Accepted(e: Entry, status: u8) {
    if e.cmd < 5 then status != 0 else status >= 0x80 && ReplyLength(status) == e.reply
  }

  function FirstOf<T>(s: seq<T>, d: T): T {
    if s == [] then d else s[0]
  }

  function RestOf<T>(s: seq<T>): seq<T> {
    if s == [] then [] else s[1..]
  }

  /** What the reply of one command makes of the block. */
  function Received(b: Block, e: Entry, answer: seq<u8>): Block
    requires Fits(e)
  {
    var at := ReplyAt(e) - 1;
    var landed := Land(b, at, e.reply + 1, answer);
    var restored := landed[at := b[at]];
    Reverse(if Accepted(e, landed[at]) then restored else Mark(restored, e.at + 1), ReplyAt(e), e.reply)
  }

  /**
    The wire. The reply is received one byte early, over the last byte of the
    command, which is put back; a busy slot leaves the entry as it is.
  */
  function OnTheWire(s: State, e: Entry): State
    requires Fits(e)
  {
    var claims := RestOf(s.bus.claims);
    if !FirstOf(s.bus.claims, false) then s.(bus := s.bus.(claims := claims))
    else
      State(Received(s.block, e, FirstOf(s.bus.answers, [])),
            s.bus.(claims := claims, answers := RestOf(s.bus.answers), wire := s.bus.wire + Transfers(s.block, e)))
  }

  /** `core_cmd_exec`. */
  function Exec(s: State, e: Entry): (r: State)
    requires Fits(e) && e.device < |s.bus.devices|
    ensures |r.bus.devices| == |s.bus.devices| && r.bus.acted == s.bus.acted
  {
    var d := s.bus.devices[e.device];
    if !d.hasState then s
    else if IsPakWrite(s.block, e) then PakWrite(s, e)
    else if IsPakRead(s.block, e) then PakRead(s, e)
    else if !d.hasTransport then s
    else OnTheWire(s, e)
  }

  // ---- the walk ------------------------------------------------------------------------

  predicate HasState(bus: Bus, n: nat) {
    n < |bus.devices| && bus.devices[n].hasState
  }

  function ReadCached(s: State, e: Entry): State
    requires Fits(e) && e.cmd == 1 && e.reply == 4
  {
    if !HasState(s.bus, e.device) then s.(block := Mark(s.block, e.at + 1))
    else
      var raw := s.bus.devices[e.device].raw;
      s.(block := Land(s.block, e.at + 3, 4, [raw[4], raw[3], raw[0], raw[1]]))
  }

  /** The reply length goes back into its byte without the mark, and the entry is executed. */
  function Execute(s: State, e: Entry): State
    requires Fits(e) && e.device < |s.bus.devices|
  {
    Exec(s.(block := s.block[e.at + 1 := e.reply]), e)
  }

  /** The identify keeps its answer: bit 0 of the status byte says that an accessory is there. */
  function Identified(s: State, e: Entry): State
    requires Fits(e) && e.cmd == 1 && e.reply == 3
  {
    if !HasState(s.bus, e.device) then s.(block := Mark(s.block, e.at + 1))
    else
      var s1 := Execute(s, e);
      var d := s1.bus.devices[e.device];
      var status := s1.block[e.at + 5];
      WithDevice(s1, e.device,
                 d.(pakPresent := status % 2 == 1, keepalive := if status % 4 == 1 then d.keepalive else 0))
  }

  function Other(s: State, e: Entry): State
    requires Fits(e)
  {
    if e.reply < MAX_LEN && e.device < |s.bus.devices| then Execute(s, e)
    else s.(block := Mark(s.block, e.at + 1))
  }

  /** Lengths that match the kind. */
  predicate Typed(e: Entry) {
    (e.kind.CachedRead? ==> e.cmd == 1 && e.reply == 4) && (e.kind.Identify? ==> e.cmd == 1 && e.reply == 3)
  }

  /** Act on an entry if this pass owns it. */
  function Act(s: State, e: Entry, pass: nat): State
    requires Fits(e) && Typed(e)
  {
    if Turn(e) != pass then s
    else
      var s1 := match e.kind
        case CachedRead => ReadCached(s, e)
        case Identify => Identified(s, e)
        case Plain => Other(s, e);
      s1.(bus := s1.bus.(acted := s.bus.acted + [e]))
  }

  /** `core_cmd_process` from offset `p` on. */
  function Walk(s: State, p: nat, index: nat, pass: nat): State
    decreases SIZE - p
  {
    var b := s.block;
    if p >= GO || b[p] == END then s
    else if b[p] == PAD then Walk(s, p + 1, index + 1, pass)
    else if b[p] == SKIP then Walk(s, p + 1, index, pass)
    else
      var e := EntryAt(b, p, index);
      if !Fits(e) then s.(block := Mark(b, p + 1))
      else Walk(Act(s, e, pass), After(e), index + 1, pass)
  }

  function Process(s: State, pass: nat): State {
    Walk(s, 0, 0, pass)
  }

  // ---- the channel ---------------------------------------------------------------------

  /** The driver's copy of the block, and whether its client is big-endian. */
  datatype Channel = Channel(block: Block, swapped: bool)

  datatype Outcome = Success | NoSuchDevice | InvalidParameter

  /** What a read or a write answers: its status, the byte count and the caller's buffer. */
  datatype Answer = Answer(outcome: Outcome, info: nat, buf: seq<u8>)

  /** Where a byte goes when its four-byte group is reversed. */
  function Mirror(i: nat): (m: nat)
    requires i < SIZE
    ensures m < SIZE
  {
    i - i % 4 + 3 - i % 4
  }

  /** Every four-byte group reversed. */
  function Swap(b: Block): Block {
    seq<u8>(SIZE, i requires 0 <= i < SIZE => b[Mirror(i)])
  }

  /** The dword at the end of a block is 1 when its bytes are read low byte first. */
  predicate SaysSwap(b: Block) {
    b[0x3C] == 1 && b[0x3D] == 0 && b[0x3E] == 0 && b[0x3F] == 0
  }

  /** What a full-length read makes of the channel's block. */
  function Refreshed(ch: Channel, bus: Bus): State {
    if ch.block[GO] == 1 then
      var s := Process(State(ch.block, bus), 1);
      s.(block := s.block[GO := 0])
    else State(ch.block, bus)
  }

  /** `core_cmd_read`: the channel is only read. */
  function Read(ch: Channel, bus: Bus, live: nat, buf: seq<u8>): (Answer, Bus) {
    if live == 0 && |buf| != 1 then (Answer(NoSuchDevice, 0, buf), bus)
    else if |buf| == 0 then (Answer(Success, 0, buf), bus)
    else if |buf| > SIZE then (Answer(InvalidParameter, 0, buf), bus)
    else if |buf| == 1 then (Answer(Success, 1, [live % 0x100]), bus)
    else if |buf| == SIZE then
      var s := Refreshed(ch, bus);
      (Answer(Success, SIZE, if ch.swapped then Swap(s.block) else s.block), s.bus)
    else (Answer(Success, |buf|, buf), bus)
  }

  /** `core_cmd_write`. A big-endian client's block is swapped where it lies. */
  function Write(ch: Channel, bus: Bus, live: nat, buf: seq<u8>): (Answer, Channel, Bus) {
    if live == 0 then (Answer(NoSuchDevice, 0, buf), ch, bus)
    else if |buf| == 0 then (Answer(Success, 0, buf), ch, bus)
    else if |buf| != SIZE then (Answer(InvalidParameter, |buf|, buf), ch, bus)
    else
      var b: Block := buf;
      var native := if SaysSwap(b) then Swap(b) else b;
      var s := if native[GO] == 1 then Process(State(native, bus), 0) else State(native, bus);
      (Answer(Success, SIZE, native), Channel(s.block, SaysSwap(b)), s.bus)
  }
}

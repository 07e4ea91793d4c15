/**
  The Controller Pak data CRC-8, x^8 + x^7 + x^2 + 1, as the bit loop computes it
  and as the remainder it stands for.

  Polynomials over GF(2) are bit sequences, highest power first; the register is a
  byte.
*/
module Crc {
  import opened Words

  // ---- the bit loop ------------------------------------------------------------------

  /** Shift the register left by one; the bit leaving it selects the XOR. */
  function Shift(r: bv8): bv8 {
    if r & 0x80 != 0 then (r << 1) ^ 0x85 else r << 1
  }

  /** One bit of data: it is combined with the register's top bit before the shift. */
  function Feed(r: bv8, b: bool): bv8 {
    Shift(if b then r ^ 0x80 else r)
  }

  function FeedAll(r: bv8, bits: seq<bool>): bv8
    decreases |bits|
  {
    if bits == [] then r else FeedAll(Feed(r, bits[0]), bits[1..])
  }

  /** Bit `i` of a byte, from the top. */
  predicate BitOf(b: bv8, i: nat)
    requires i < 8
  {
    b & Top(i) != 0
  }

  function Top(i: nat): bv8
    requires i < 8
  {
    if i == 0 then 0x80 else if i == 1 then 0x40 else if i == 2 then 0x20 else if i == 3 then 0x10
    else if i == 4 then 8 else if i == 5 then 4 else if i == 6 then 2 else 1
  }

  function ByteBits(b: bv8): (r: seq<bool>)
    ensures |r| == 8
  {
    seq(8, i requires 0 <= i < 8 => BitOf(b, i))
  }

  function BitsOf(data: seq<bv8>): (r: seq<bool>)
    ensures |r| == 8 * |data|
  {
    if data == [] then [] else ByteBits(data[0]) + BitsOf(data[1..])
  }

  /** The checksum of a block: the register starts at zero. */
  function Crc8(data: seq<bv8>): bv8 {
    FeedAll(0, BitsOf(data))
  }

  lemma {:induction false} FeedAllConcat(r: bv8, a: seq<bool>, b: seq<bool>)
    ensures FeedAll(r, a + b) == FeedAll(FeedAll(r, a), b)
    decreases |a|
  {
    if a == [] {
      assert a + b == b;
    } else {
      assert (a + b)[1..] == a[1..] + b;
      FeedAllConcat(Feed(r, a[0]), a[1..], b);
    }
  }

  lemma {:induction false} BitsOfSnoc(data: seq<bv8>, b: bv8)
    ensures BitsOf(data + [b]) == BitsOf(data) + ByteBits(b)
    decreases |data|
  {
    if data == [] {
      assert data + [b] == [b] && BitsOf([b][1..]) == [];
    } else {
      assert (data + [b])[1..] == data[1..] + [b];
      BitsOfSnoc(data[1..], b);
    }
  }

  lemma ShiftedByte(b: bv8, i: nat)
    requires i < 7
    ensures BitOf(b << 1, i) == BitOf(b, i + 1) && (BitOf(b, 0) <==> b & 0x80 != 0)
  {
  }

  lemma {:induction false} FeedAllSnoc(r: bv8, bits: seq<bool>, b: bool)
    ensures FeedAll(r, bits + [b]) == Feed(FeedAll(r, bits), b)
  {
    FeedAllConcat(r, bits, [b]);
    assert [b][1..] == [];
  }

  /** The register update for one data bit. */
  method FeedBit(start: bv8, b: bool) returns (crc: bv8)
    ensures crc == Feed(start, b)
  {
    crc := start;
    if b {
      crc := crc ^ 0x80;
    }
    if crc & 0x80 != 0 {
      crc := (crc << 1) ^ 0x85;
    } else {
      crc := crc << 1;
    }
  }

  /** The byte's bits still to come are at its top. */
  ghost predicate Pending(byte: bv8, bits: seq<bool>, i: nat)
    requires |bits| == 8 && i <= 8
  {
    forall k {:trigger BitOf(byte, k)} :: 0 <= k < 8 - i ==> BitOf(byte, k) == bits[i + k]
  }

  lemma PendingShift(byte: bv8, bits: seq<bool>, i: nat)
    requires |bits| == 8 && i < 8 && Pending(byte, bits, i)
    ensures bits[i] == (byte & 0x80 != 0) && Pending(byte << 1, bits, i + 1)
  {
    assert BitOf(byte, 0) == bits[i + 0];
    var next := byte << 1;
    forall k {:trigger BitOf(next, k)} | 0 <= k < 7 - i
      ensures BitOf(next, k) == bits[i + 1 + k]
    {
      ShiftedByte(byte, k);
      assert BitOf(byte, k + 1) == bits[i + (k + 1)];
    }
  }

  /** The inner loop: eight bits, top first. */
  method FeedByte(start: bv8, data: bv8) returns (crc: bv8)
    ensures crc == FeedAll(start, ByteBits(data))
  {
    crc := start;
    var byte := data;
    ghost var bits := ByteBits(data);
    var i := 0;
    hide Feed, BitOf;
    while i < 8
      invariant 0 <= i <= 8 && |bits| == 8
      invariant crc == FeedAll(start, bits[..i])
      invariant Pending(byte, bits, i)
    {
      PendingShift(byte, bits, i);
      FeedAllSnoc(start, bits[..i], bits[i]);
      assert bits[..i + 1] == bits[..i] + [bits[i]];
      crc := FeedBit(crc, byte & 0x80 != 0);
      byte := byte << 1;
      i := i + 1;
    }
    assert bits[..8] == bits;
  }

  /** `core_pak_data_crc8`. */
  method DataCrc8(data: seq<bv8>) returns (crc: bv8)
    ensures crc == Crc8(data)
  {
    crc := 0;
    var n := 0;
    while n < |data|
      invariant 0 <= n <= |data|
      invariant crc == Crc8(data[..n])
    {
      crc := FeedByte(crc, data[n]);
      assert data[..n + 1] == data[..n] + [data[n]];
      BitsOfSnoc(data[..n], data[n]);
      FeedAllConcat(0, BitsOf(data[..n]), ByteBits(data[n]));
      n := n + 1;
    }
    assert data[..n] == data;
  }
}

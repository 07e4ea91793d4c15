/** The check bytes the driver answers for an emulated accessory, against the checksum they stand for. */
module PakConstants {
  import opened Words
  import opened Crc
  import opened CrcTheorems
  import CommandBlock

  /** Eight shifts of the register. */
  function Octet(r: bv8): bv8 {
    Shift(Shift(Shift(Shift(Shift(Shift(Shift(Shift(r))))))))
  }

  lemma OctetIsEightShifts(r: bv8)
    ensures Octet(r) == Shifts(r, 8)
  {
    var n := 8;
    ShiftsDown(r, n);
    ShiftsDown(r, n - 4);
    hide Shift;
    assert Shifts(r, n - 8) == r;
  }

  lemma ShiftsDown(r: bv8, n: nat)
    requires n >= 4
    ensures Shifts(r, n) == Shift(Shift(Shift(Shift(Shifts(r, n - 4)))))
  {
    hide Shift;
    assert Shifts(r, n - 2) == Shift(Shift(Shifts(r, n - 4)));
  }

  lemma {:induction false} FeedingZeros(r: bv8, n: nat)
    ensures FeedAll(r, seq(n, i => false)) == Shifts(r, n)
    decreases n
  {
    hide Shift;
    if n > 0 {
      var zeros := seq(n, i => false);
      assert zeros[1..] == seq(n - 1, i => false);
      FeedingZeros(Shift(r), n - 1);
      ShiftsFirst(r, n - 1);
    }
  }

  /** Feeding a byte is eight shifts of the register combined with it. */
  lemma ByteIsOctet(r: bv8, b: bv8)
    ensures FeedAll(r, ByteBits(b)) == Octet(Xor(r, b))
  {
    hide *;
    var zeros := seq(8, i => false);
    XorZero(r);
    RegisterIsShiftedRemainder(ByteBits(b));
    RemainderOfByte(b);
    FeedingZeros(r, 8);
    PlusZeros(zeros, ByteBits(b));
    FeedAllIsLinear(r, 0, zeros, ByteBits(b));
    ShiftsAreLinear(r, b, 8);
    OctetIsEightShifts(Xor(r, b));
  }

  lemma PlusZeros(zeros: seq<bool>, bits: seq<bool>)
    requires |zeros| == |bits| && forall i :: 0 <= i < |zeros| ==> !zeros[i]
    ensures Plus(zeros, bits) == bits
  {
  }

  /** The register after `n` bytes of the same value. */
  function After(b: bv8, n: nat): bv8 {
    if n == 0 then 0 else Octet(Xor(After(b, n - 1), b))
  }

  function Same(b: bv8, n: nat): seq<bv8> {
    seq(n, i => b)
  }

  lemma {:induction false} ChecksumOfSame(b: bv8, n: nat)
    ensures Crc8(Same(b, n)) == After(b, n)
    decreases n
  {
    hide Octet, ByteBits;
    if n == 0 {
      assert BitsOf(Same(b, 0)) == [];
    } else {
      ChecksumOfSame(b, n - 1);
      assert Same(b, n) == Same(b, n - 1) + [b];
      BitsOfSnoc(Same(b, n - 1), b);
      FeedAllConcat(0, BitsOf(Same(b, n - 1)), ByteBits(b));
      ByteIsOctet(After(b, n - 1), b);
    }
  }

  lemma ProbeChecksum()
    ensures After(0xFE, 32) == 0xE1
  {
    assert After(0xFE, 4) == 0xD1;
    assert After(0xFE, 8) == 0x05;
    assert After(0xFE, 12) == 0x9F;
    assert After(0xFE, 16) == 0x5F;
    assert After(0xFE, 20) == 0x78;
    assert After(0xFE, 24) == 0x55;
    assert After(0xFE, 28) == 0xE4;
    assert After(0xFE, 32) == 0xE1;
  }

  lemma RumbleChecksum()
    ensures After(0x80, 32) == 0xB8
  {
    assert After(0x80, 4) == 0x84;
    assert After(0x80, 8) == 0x65;
    assert After(0x80, 12) == 0x1B;
    assert After(0x80, 16) == 0xEB;
    assert After(0x80, 20) == 0x66;
    assert After(0x80, 24) == 0x21;
    assert After(0x80, 28) == 0xDD;
    assert After(0x80, 32) == 0xB8;
  }

  lemma MotorOnChecksum()
    ensures After(0x01, 32) == 0xEB
  {
    assert After(0x01, 4) == 0xFF;
    assert After(0x01, 8) == 0xA0;
    assert After(0x01, 12) == 0x09;
    assert After(0x01, 16) == 0x59;
    assert After(0x01, 20) == 0x22;
    assert After(0x01, 24) == 0x9C;
    assert After(0x01, 28) == 0x4B;
    assert After(0x01, 32) == 0xEB;
  }

  /** Each check byte the driver keeps as a constant is the checksum of 32 equal bytes. */
  lemma EmulatedCrcIsTheChecksum(value: bv8, current: u8)
    requires value == 0xFE || value == 0x80 || value == 0x01 || value == 0x00
    ensures CommandBlock.EmulatedCrc(value as int, current) == Crc8(Same(value, 32)) as int
  {
    ChecksumOfSame(value, 32);
    ProbeChecksum();
    RumbleChecksum();
    MotorOnChecksum();
    MotorOffChecksum(32);
    hide After, Crc8;
  }

  lemma {:induction false} MotorOffChecksum(n: nat)
    ensures After(0, n) == 0
  {
    if n > 0 {
      MotorOffChecksum(n - 1);
    }
  }
}

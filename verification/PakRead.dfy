/** Reading one Controller Pak block: what the checksum lets through. */
module PakRead {
  import opened Words
  import opened Crc
  import opened CrcTheorems

  const BLOCK: nat := 32

  datatype Status = Success | InvalidParam | DataError | NotReady | CrcError

  /** The verdict on a received block: 32 data bytes and a checksum byte. */
  function Verdict(rx: seq<bv8>): Status {
    if |rx| != BLOCK + 1 then DataError
    else
      var syndrome := Xor(Crc8(rx[..BLOCK]), rx[BLOCK]);
      if syndrome == 0 then Success
      else if syndrome == 0x80 then NotReady
      else CrcError
  }

  /** `ioc_pak_read` after the transaction delivered `rx`. The output is written on success only. */
  method Read(inLen: nat, out: array<bv8>, rx: seq<bv8>) returns (status: Status, info: nat)
    modifies out
    ensures inLen != 4 || out.Length < BLOCK ==> status == InvalidParam
    ensures inLen == 4 && out.Length >= BLOCK ==> status == Verdict(rx)
    ensures status == Success ==> info == BLOCK && out[..] == rx[..BLOCK] + old(out[BLOCK..])
    ensures status != Success ==> info == 0 && out[..] == old(out[..])
  {
    info := 0;
    if inLen != 4 || out.Length < BLOCK {
      return InvalidParam, 0;
    }
    if |rx| != BLOCK + 1 {
      return DataError, 0;
    }
    var crc := DataCrc8(rx[..BLOCK]);
    crc := Xor(crc, rx[BLOCK]);
    if crc != 0 {
      return if crc == 0x80 then NotReady else CrcError, 0;
    }
    var i := 0;
    while i < BLOCK
      invariant 0 <= i <= BLOCK
      invariant out[..i] == rx[..i] && out[BLOCK..] == old(out[BLOCK..])
    {
      out[i] := rx[i];
      i := i + 1;
    }
    return Success, BLOCK;
  }

  /** A block as it leaves the accessory. */
  function Sealed(data: seq<bv8>): seq<bv8> {
    data + [Crc8(data)]
  }

  lemma IntactBlockIsAccepted(data: seq<bv8>)
    requires |data| == BLOCK
    ensures Verdict(Sealed(data)) == Success
  {
    assert Sealed(data)[..BLOCK] == data;
    XorZero(Crc8(data));
    hide Crc8;
  }

  /**
    Of the 256 checksum bytes exactly one passes; the one that differs from it in the top bit
    says that there is no accessory, and the others are errors.
  */
  lemma OneChecksumPasses(data: seq<bv8>, c: bv8)
    requires |data| == BLOCK
    ensures Verdict(data + [c]) == Success <==> c == Crc8(data)
    ensures Verdict(data + [c]) == NotReady <==> c == Xor(Crc8(data), 0x80)
    ensures Verdict(data + [c]) in {Success, NotReady, CrcError}
  {
    assert (data + [c])[..BLOCK] == data;
    hide Crc8;
    SyndromeTells(Crc8(data), c, 0);
    SyndromeTells(Crc8(data), c, 0x80);
    XorZero(Crc8(data));
  }

  lemma SyndromeTells(a: bv8, c: bv8, s: bv8)
    ensures Xor(a, c) == s <==> c == Xor(a, s)
  {
    hide Xor;
    XorAssociates(a, a, c);
    XorAssociates(a, a, s);
    XorZero(a);
    XorZero(c);
    XorZero(s);
  }

  /**
    A block whose bits were hit by any nonzero burst of at most eight places, or in
    any odd number of places, checksum byte included, is never accepted.
  */
  lemma CorruptedBlockIsRefused(data: seq<bv8>, rx: seq<bv8>, e: seq<bool>)
    requires |data| == BLOCK && |rx| == BLOCK + 1 && |e| == 8 * |rx|
    requires BitsOf(rx) == Plus(BitsOf(Sealed(data)), e)
    requires (exists i :: BurstAt(e, i)) || Odd(e)
    ensures Verdict(rx) != Success
  {
    var head, c := rx[..BLOCK], rx[BLOCK];
    assert rx == head + [c];
    BitsOfSnoc(head, c);
    BitsOfSnoc(data, Crc8(data));
    hide BurstAt, Odd, FeedAll;
    ErrorsLeaveASyndrome(BitsOf(data), e, BitsOf(head), c);
  }
}

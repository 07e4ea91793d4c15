/** The checksum is a remainder over GF(2), and what errors it is certain to catch. */
module CrcTheorems {
  import opened Words
  import opened Crc

  // ---- polynomials -------------------------------------------------------------------

  /** Coefficients of x^8 + x^7 + x^2 + 1, highest power first. */
  predicate Gen(j: int) {
    j == 0 || j == 1 || j == 6 || j == 8
  }

  /** Coefficient `i`, from the top, of q times the generator: a convolution over GF(2). */
  predicate ProductAt(q: seq<bool>, i: int) {
    if q == [] then false
    else
      var n := |q| - 1;
      ProductAt(q[..n], i) != (q[n] && Gen(i - n))
  }

  /** Coefficient `i` of a message times x^8. */
  predicate ShiftedAt(m: seq<bool>, i: nat) {
    i < |m| && m[i]
  }

  /** Coefficient `i` of a byte in the eight lowest places below a message of length `n`. */
  predicate LowAt(c: bv8, n: nat, i: nat) {
    n <= i < n + 8 && BitOf(c, i - n)
  }

  /** The message times x^8 is q times the generator plus c. */
  ghost predicate Divides(m: seq<bool>, q: seq<bool>, c: bv8) {
    |q| == |m| && forall i: nat :: i < |m| + 8 ==> ShiftedAt(m, i) == (ProductAt(q, i) != LowAt(c, |m|, i))
  }

  /** The feedback bits of the register are the quotient. */
  function Quotient(m: seq<bool>): (q: seq<bool>)
    ensures |q| == |m|
  {
    if m == [] then []
    else
      var n := |m| - 1;
      Quotient(m[..n]) + [m[n] != BitOf(FeedAll(0, m[..n]), 0)]
  }

  lemma {:induction false} ProductIsShort(q: seq<bool>, i: int)
    ensures i < 0 || i >= |q| + 8 ==> !ProductAt(q, i)
    decreases |q|
  {
    if q != [] {
      ProductIsShort(q[..|q| - 1], i);
    }
  }

  /** One step of long division, position by position. */
  lemma DivisionStep(r: bv8, b: bool, j: nat)
    requires j <= 8
    ensures var fed := b != BitOf(r, 0);
            (((j < 8 && BitOf(r, j)) != (fed && Gen(j))) != (j >= 1 && BitOf(Feed(r, b), j - 1)))
            == (j == 0 && b)
  {
    if j < 5 {
      DivisionStepLow(r, b, j);
    } else {
      DivisionStepHigh(r, b, j);
    }
    hide BitOf, Gen, Feed;
  }

  lemma DivisionStepLow(r: bv8, b: bool, j: nat)
    requires j < 5
    ensures var fed := b != BitOf(r, 0);
            ((BitOf(r, j) != (fed && Gen(j))) != (j >= 1 && BitOf(Feed(r, b), j - 1))) == (j == 0 && b)
  {
    if j == 0 {
    } else if j == 1 {
    } else if j == 2 {
    } else if j == 3 {
    } else {
    }
  }

  lemma DivisionStepHigh(r: bv8, b: bool, j: nat)
    requires 5 <= j <= 8
    ensures var fed := b != BitOf(r, 0);
            ((j < 8 && BitOf(r, j)) != (fed && Gen(j))) == BitOf(Feed(r, b), j - 1)
  {
    if j == 5 {
    } else if j == 6 {
    } else if j == 7 {
    } else {
    }
  }

  /** The division extended by one message bit, position by position. */
  lemma DivisionAt(m: seq<bool>, q: seq<bool>, r: bv8, b: bool, i: nat)
    requires Divides(m, q, r) && i < |m| + 9
    ensures var fed := b != BitOf(r, 0);
            ShiftedAt(m + [b], i) == (ProductAt(q + [fed], i) != LowAt(Feed(r, b), |m| + 1, i))
  {
    var fed := b != BitOf(r, 0);
    assert (q + [fed])[..|m|] == q && (q + [fed])[|m|] == fed;
    assert ProductAt(q + [fed], i) == (ProductAt(q, i) != (fed && Gen(i - |m|)));
    ProductIsShort(q, i);
    hide Feed, BitOf, ProductAt, Gen;
    if i < |m| + 8 {
      assert ShiftedAt(m, i) == (ProductAt(q, i) != LowAt(r, |m|, i));
    }
    if i >= |m| {
      DivisionStep(r, b, i - |m|);
    } else {
      NoGenBelow(i - |m|);
    }
  }

  lemma NoGenBelow(j: int)
    requires j < 0
    ensures !Gen(j)
  {
  }

  /** The register after any message is the remainder of that message times x^8. */
  lemma {:induction false} RegisterDivides(m: seq<bool>)
    ensures Divides(m, Quotient(m), FeedAll(0, m))
    decreases |m|
  {
    if m != [] {
      var n := |m| - 1;
      RegisterDivides(m[..n]);
      FeedAllSnoc(0, m[..n], m[n]);
      assert m[..n] + [m[n]] == m;
      var r, q := FeedAll(0, m[..n]), Quotient(m[..n]);
      hide FeedAll, Feed, Gen, ProductAt, BitOf;
      forall i: nat | i < |m| + 8
        ensures ShiftedAt(m, i) == (ProductAt(Quotient(m), i) != LowAt(FeedAll(0, m), |m|, i))
      {
        DivisionAt(m[..n], q, r, m[n], i);
      }
    }
  }

  lemma {:induction false} SameProductSameFactor(p: seq<bool>, q: seq<bool>)
    requires |p| == |q| && forall i: nat :: i < |p| ==> ProductAt(p, i) == ProductAt(q, i)
    ensures p == q
    decreases |p|
  {
    if p != [] {
      var n := |p| - 1;
      hide Gen;
      forall i: nat | i < n
        ensures ProductAt(p[..n], i) == ProductAt(q[..n], i)
      {
        NoGenBelow(i - n);
        assert ProductAt(p, i) == ProductAt(q, i);
      }
      SameProductSameFactor(p[..n], q[..n]);
      assert Gen(0) by { TopCoefficient(); }
      assert ProductAt(p, n) == ProductAt(q, n);
      assert p == p[..n] + [p[n]] && q == q[..n] + [q[n]];
    }
  }

  lemma TopCoefficient()
    ensures Gen(0)
  {
  }

  lemma SameBitsSameByte(a: bv8, b: bv8)
    requires forall j: nat :: j < 8 ==> BitOf(a, j) == BitOf(b, j)
    ensures a == b
  {
    assert BitOf(a, 0) == BitOf(b, 0) && BitOf(a, 1) == BitOf(b, 1) && BitOf(a, 2) == BitOf(b, 2);
    assert BitOf(a, 3) == BitOf(b, 3) && BitOf(a, 4) == BitOf(b, 4) && BitOf(a, 5) == BitOf(b, 5);
    assert BitOf(a, 6) == BitOf(b, 6) && BitOf(a, 7) == BitOf(b, 7);
  }

  /**
    The bit loop computes the remainder, for every message length: a byte is the
    register's final value exactly when message * x^8 is a multiple of the generator
    plus that byte.
  */
  lemma CrcIsTheRemainder(m: seq<bool>, c: bv8)
    ensures c == FeedAll(0, m) <==> exists q :: Divides(m, q, c)
  {
    RegisterDivides(m);
    forall q | Divides(m, q, c)
      ensures c == FeedAll(0, m)
    {
      RemainderIsUnique(m, q, c);
    }
  }

  lemma RemainderIsUnique(m: seq<bool>, q: seq<bool>, c: bv8)
    requires Divides(m, q, c)
    ensures c == FeedAll(0, m)
  {
    RegisterDivides(m);
    var n, c0, q0 := |m|, FeedAll(0, m), Quotient(m);
    hide FeedAll, Quotient, ProductAt, BitOf;
    forall i: nat | i < n
      ensures ProductAt(q, i) == ProductAt(q0, i)
    {
      assert ShiftedAt(m, i) == (ProductAt(q, i) != LowAt(c, n, i));
      assert ShiftedAt(m, i) == (ProductAt(q0, i) != LowAt(c0, n, i));
    }
    SameProductSameFactor(q, q0);
    forall j: nat | j < 8
      ensures BitOf(c, j) == BitOf(c0, j)
    {
      assert ShiftedAt(m, n + j) == (ProductAt(q, n + j) != LowAt(c, n, n + j));
      assert ShiftedAt(m, n + j) == (ProductAt(q0, n + j) != LowAt(c0, n, n + j));
    }
    SameBitsSameByte(c, c0);
  }

  // ---- linearity -----------------------------------------------------------------------

  /** Addition over GF(2). */
  function Plus(a: seq<bool>, b: seq<bool>): (r: seq<bool>)
    requires |a| == |b|
    ensures |r| == |a| && forall i :: 0 <= i < |r| ==> r[i] == (a[i] != b[i])
  {
    seq(|a|, i requires 0 <= i < |a| => a[i] != b[i])
  }

  /** Byte addition, named so that algebra can be done without looking at bits. */
  function Xor(a: bv8, b: bv8): bv8 {
    a ^ b
  }

  lemma XorAssociates(a: bv8, b: bv8, c: bv8)
    ensures Xor(Xor(a, b), c) == Xor(a, Xor(b, c))
  {
  }

  lemma XorCommutes(a: bv8, b: bv8)
    ensures Xor(a, b) == Xor(b, a)
  {
  }

  lemma XorSwap(a: bv8, b: bv8, c: bv8, d: bv8)
    ensures Xor(Xor(a, b), Xor(c, d)) == Xor(Xor(a, c), Xor(b, d))
  {
    hide Xor;
    XorAssociates(a, b, Xor(c, d));
    XorAssociates(b, c, d);
    XorCommutes(b, c);
    XorAssociates(c, b, d);
    XorAssociates(a, c, Xor(b, d));
  }

  lemma ShiftIsLinear(r: bv8, s: bv8)
    ensures Shift(Xor(r, s)) == Xor(Shift(r), Shift(s))
  {
    if r & 0x80 != 0 {
      if s & 0x80 != 0 {
      } else {
      }
    } else {
      if s & 0x80 != 0 {
      } else {
      }
    }
  }

  function Flip(b: bool): bv8 {
    if b then 0x80 else 0
  }

  lemma FeedFlips(r: bv8, b: bool)
    ensures Feed(r, b) == Shift(Xor(r, Flip(b)))
  {
    hide Shift;
  }

  lemma FlipIsLinear(a: bool, b: bool)
    ensures Flip(a != b) == Xor(Flip(a), Flip(b))
  {
  }

  lemma FeedIsLinear(r: bv8, s: bv8, a: bool, b: bool)
    ensures Feed(Xor(r, s), a != b) == Xor(Feed(r, a), Feed(s, b))
  {
    hide *;
    FeedFlips(r, a);
    FeedFlips(s, b);
    FeedFlips(Xor(r, s), a != b);
    FlipIsLinear(a, b);
    XorSwap(r, s, Flip(a), Flip(b));
    ShiftIsLinear(Xor(r, Flip(a)), Xor(s, Flip(b)));
  }

  lemma {:induction false} FeedAllIsLinear(r: bv8, s: bv8, a: seq<bool>, b: seq<bool>)
    requires |a| == |b|
    ensures FeedAll(Xor(r, s), Plus(a, b)) == Xor(FeedAll(r, a), FeedAll(s, b))
    decreases |a|
  {
    hide Feed, Xor;
    if a != [] {
      assert Plus(a, b)[1..] == Plus(a[1..], b[1..]);
      FeedIsLinear(r, s, a[0], b[0]);
      FeedAllIsLinear(Feed(r, a[0]), Feed(s, b[0]), a[1..], b[1..]);
    }
  }

  // ---- error patterns ------------------------------------------------------------------

  /** The register that divides a whole word, checksum included. */
  function Push(r: bv8, b: bool): bv8 {
    Xor(Shift(r), if b then 1 else 0)
  }

  function Remainder(r: bv8, bits: seq<bool>): bv8 {
    if bits == [] then r
    else Push(Remainder(r, bits[..|bits| - 1]), bits[|bits| - 1])
  }

  function Shifts(r: bv8, n: nat): bv8 {
    if n == 0 then r else Shift(Shifts(r, n - 1))
  }

  lemma {:induction false} ShiftsAreLinear(r: bv8, s: bv8, n: nat)
    ensures Shifts(Xor(r, s), n) == Xor(Shifts(r, n), Shifts(s, n))
  {
    hide Shift, Xor;
    if n > 0 {
      ShiftsAreLinear(r, s, n - 1);
      ShiftIsLinear(Shifts(r, n - 1), Shifts(s, n - 1));
    }
  }

  lemma {:induction false} ShiftsFirst(r: bv8, n: nat)
    ensures Shifts(Shift(r), n) == Shift(Shifts(r, n))
  {
    if n > 0 {
      ShiftsFirst(r, n - 1);
    }
  }

  /** A nonzero register never shifts to zero: the generator has a constant term. */
  lemma {:induction false} ShiftsStayNonzero(r: bv8, n: nat)
    requires r != 0
    ensures Shifts(r, n) != 0
  {
    if n > 0 {
      ShiftsStayNonzero(r, n - 1);
      ShiftStaysNonzero(Shifts(r, n - 1));
    }
  }

  lemma ShiftStaysNonzero(r: bv8)
    requires r != 0
    ensures Shift(r) != 0
  {
  }

  /** Eight shifts of one byte's worth of message undo the augmented form. */
  lemma ShiftOne()
    ensures Shifts(1, 8) == Shift(0x80)
  {
    assert Shift(1) == 2 && Shift(2) == 4 && Shift(4) == 8 && Shift(8) == 16;
    assert Shift(16) == 32 && Shift(32) == 64 && Shift(64) == 0x80;
    assert Shifts(1, 2) == 4;
    assert Shifts(1, 4) == 16;
    assert Shifts(1, 6) == 64;
    assert Shifts(1, 7) == 0x80;
  }

  lemma {:induction false} ShiftsOfZero(n: nat)
    ensures Shifts(0, n) == 0
  {
    if n > 0 {
      ShiftsOfZero(n - 1);
      assert Shift(0) == 0;
    }
  }

  /** Pushing one bit, seen through eight shifts, is feeding it. */
  lemma PushIsFeed(r: bv8, b: bool)
    ensures Shifts(Push(r, b), 8) == Feed(Shifts(r, 8), b)
  {
    ShiftsAreLinear(Shift(r), if b then 1 else 0, 8);
    ShiftsFirst(r, 8);
    ShiftsOfZero(8);
    ShiftOne();
    FeedFlips(Shifts(r, 8), b);
    ShiftIsLinear(Shifts(r, 8), Flip(b));
    assert Shift(Flip(b)) == Shifts(if b then 1 else 0, 8) by {
      hide Shifts;
      assert Shift(0) == 0;
    }
    hide Shift, Shifts, Xor, Feed, Flip;
  }

  /** The checksum register is the plain remainder, eight shifts on. */
  lemma {:induction false} RegisterIsShiftedRemainder(m: seq<bool>)
    ensures FeedAll(0, m) == Shifts(Remainder(0, m), 8)
    decreases |m|
  {
    hide Shift, Shifts, Feed, Push;
    if m == [] {
      ShiftsOfZero(8);
    } else {
      var n := |m| - 1;
      RegisterIsShiftedRemainder(m[..n]);
      FeedAllSnoc(0, m[..n], m[n]);
      assert m[..n] + [m[n]] == m;
      PushIsFeed(Remainder(0, m[..n]), m[n]);
    }
  }

  // ---- whole words: data followed by its checksum ----------------------------------------

  lemma XorZero(a: bv8)
    ensures Xor(a, 0) == a && Xor(0, a) == a && Xor(a, a) == 0
  {
  }

  lemma PushIsLinear(r: bv8, s: bv8, b: bool)
    ensures Push(Xor(r, s), b) == Xor(Shift(r), Push(s, b))
  {
    ShiftIsLinear(r, s);
    hide Shift, Xor;
    XorAssociates(Shift(r), Shift(s), if b then 1 else 0);
  }

  /** Dividing from a nonzero register adds the shifted register to the remainder. */
  lemma {:induction false} RemainderSplits(r: bv8, bits: seq<bool>)
    ensures Remainder(r, bits) == Xor(Shifts(r, |bits|), Remainder(0, bits))
    decreases |bits|
  {
    hide Xor, Push, Shift;
    if bits == [] {
      XorZero(r);
    } else {
      var n := |bits| - 1;
      RemainderSplits(r, bits[..n]);
      PushIsLinear(Shifts(r, n), Remainder(0, bits[..n]), bits[n]);
    }
  }

  lemma {:induction false} RemainderConcat(r: bv8, a: seq<bool>, b: seq<bool>)
    ensures Remainder(r, a + b) == Remainder(Remainder(r, a), b)
    decreases |b|
  {
    hide Push;
    if b == [] {
      assert a + b == a;
    } else {
      var n := |b| - 1;
      RemainderConcat(r, a, b[..n]);
      assert (a + b)[..|a + b| - 1] == a + b[..n];
    }
  }

  /** The first `k` bits of a byte as a number. */
  function Prefix(c: bv8, k: nat): bv8
    requires k <= 8
  {
    if k == 0 then 0 else if k == 1 then c >> 7 else if k == 2 then c >> 6 else if k == 3 then c >> 5
    else if k == 4 then c >> 4 else if k == 5 then c >> 3 else if k == 6 then c >> 2 else if k == 7 then c >> 1
    else c
  }

  lemma PrefixGrows(c: bv8, k: nat)
    requires k < 8
    ensures Push(Prefix(c, k), BitOf(c, k)) == Prefix(c, k + 1)
  {
    if k == 0 {
    } else if k == 1 {
    } else if k == 2 {
    } else if k == 3 {
    } else if k == 4 {
    } else if k == 5 {
    } else if k == 6 {
    } else {
    }
  }

  lemma {:induction false} RemainderOfPrefix(c: bv8, k: nat)
    requires k <= 8
    ensures Remainder(0, ByteBits(c)[..k]) == Prefix(c, k)
  {
    hide Push, BitOf;
    if k > 0 {
      RemainderOfPrefix(c, k - 1);
      PrefixGrows(c, k - 1);
      assert ByteBits(c)[..k][..k - 1] == ByteBits(c)[..k - 1];
      hide Prefix;
    }
  }

  /** A byte has degree below eight: it is its own remainder. */
  lemma RemainderOfByte(c: bv8)
    ensures Remainder(0, ByteBits(c)) == c
  {
    RemainderOfPrefix(c, 8);
    assert ByteBits(c)[..8] == ByteBits(c);
  }

  /** What the receiver computes, the checksum of the data against the checksum sent, is the word's remainder. */
  lemma SyndromeIsRemainder(m: seq<bool>, c: bv8)
    ensures Remainder(0, m + ByteBits(c)) == Xor(FeedAll(0, m), c)
  {
    hide Xor, FeedAll;
    RemainderConcat(0, m, ByteBits(c));
    RemainderSplits(Remainder(0, m), ByteBits(c));
    RegisterIsShiftedRemainder(m);
    RemainderOfByte(c);
  }

  lemma PushAddsUp(r: bv8, s: bv8, a: bool, b: bool)
    ensures Push(Xor(r, s), a != b) == Xor(Push(r, a), Push(s, b))
  {
    ShiftIsLinear(r, s);
    hide Shift;
    XorSwap(Shift(r), if a then 1 else 0, Shift(s), if b then 1 else 0);
    assert (if a != b then 1 as bv8 else 0) == Xor(if a then 1 else 0, if b then 1 else 0);
    hide Xor;
  }

  lemma {:induction false} RemainderIsLinear(w: seq<bool>, e: seq<bool>)
    requires |w| == |e|
    ensures Remainder(0, Plus(w, e)) == Xor(Remainder(0, w), Remainder(0, e))
    decreases |w|
  {
    hide Push, Xor;
    if w == [] {
      XorZero(0);
    } else {
      var n := |w| - 1;
      assert Plus(w, e)[..n] == Plus(w[..n], e[..n]);
      RemainderIsLinear(w[..n], e[..n]);
      PushAddsUp(Remainder(0, w[..n]), Remainder(0, e[..n]), w[n], e[n]);
    }
  }

  // ---- bursts and odd errors -----------------------------------------------------------

  function Zeros(n: nat): (r: seq<bool>)
    ensures |r| == n && forall i :: 0 <= i < n ==> !r[i]
  {
    seq(n, i => false)
  }

  lemma {:induction false} RemainderOfZeros(r: bv8, n: nat)
    ensures Remainder(r, Zeros(n)) == Shifts(r, n)
  {
    hide Shift, Xor;
    if n > 0 {
      RemainderOfZeros(r, n - 1);
      assert Zeros(n)[..n - 1] == Zeros(n - 1);
      XorZero(Shift(Shifts(r, n - 1)));
    }
  }

  /** All error bits lie in the eight places from `i`, and there is one. */
  ghost predicate BurstAt(e: seq<bool>, i: nat) {
    && i + 8 <= |e|
    && (forall j :: 0 <= j < |e| && e[j] ==> i <= j < i + 8)
    && (exists j :: 0 <= j < |e| && e[j])
  }

  function ByteOf(bits: seq<bool>): bv8
    requires |bits| == 8
  {
    (if bits[0] then 0x80 else 0) | (if bits[1] then 0x40 else 0) | (if bits[2] then 0x20 else 0)
    | (if bits[3] then 0x10 else 0) | (if bits[4] then 8 else 0) | (if bits[5] then 4 else 0)
    | (if bits[6] then 2 else 0) | (if bits[7] then 1 else 0)
  }

  lemma ByteOfBit(bits: seq<bool>, j: nat)
    requires |bits| == 8 && j < 8
    ensures BitOf(ByteOf(bits), j) == bits[j]
  {
    if j == 0 {
    } else if j == 1 {
    } else if j == 2 {
    } else if j == 3 {
    } else if j == 4 {
    } else if j == 5 {
    } else if j == 6 {
    } else {
    }
  }

  lemma BurstForm(e: seq<bool>, i: nat)
    requires BurstAt(e, i)
    ensures var b := ByteOf(e[i..i + 8]);
            b != 0 && e == Zeros(i) + ByteBits(b) + Zeros(|e| - i - 8)
  {
    var b := ByteOf(e[i..i + 8]);
    forall j | 0 <= j < 8
      ensures BitOf(b, j) == e[i + j]
    {
      ByteOfBit(e[i..i + 8], j);
    }
    hide ByteOf;
    var at :| 0 <= at < |e| && e[at];
    assert BitOf(b, at - i);
    NonzeroBit(b, at - i);
    hide BitOf;
    assert e == Zeros(i) + ByteBits(b) + Zeros(|e| - i - 8);
  }

  lemma NonzeroBit(b: bv8, j: nat)
    requires j < 8 && BitOf(b, j)
    ensures b != 0
  {
  }

  lemma BurstIsNotDivisible(e: seq<bool>, i: nat)
    requires BurstAt(e, i)
    ensures Remainder(0, e) != 0
  {
    BurstForm(e, i);
    var b := ByteOf(e[i..i + 8]);
    var l := |e| - i - 8;
    hide ByteOf, BurstAt, Remainder, Shifts;
    RemainderConcat(0, Zeros(i) + ByteBits(b), Zeros(l));
    RemainderConcat(0, Zeros(i), ByteBits(b));
    RemainderOfZeros(0, i);
    ShiftsOfZero(i);
    RemainderOfByte(b);
    RemainderOfZeros(b, l);
    ShiftsStayNonzero(b, l);
  }

  /** Whether an odd number of bits is set. */
  function Odd(bits: seq<bool>): bool {
    if bits == [] then false else Odd(bits[..|bits| - 1]) != bits[|bits| - 1]
  }

  function Parity(r: bv8): bool {
    (((BitOf(r, 0) != BitOf(r, 1)) != (BitOf(r, 2) != BitOf(r, 3)))
     != ((BitOf(r, 4) != BitOf(r, 5)) != (BitOf(r, 6) != BitOf(r, 7))))
  }

  /** The generator has four terms, so dividing by it never changes the parity. */
  lemma PushKeepsParity(r: bv8, b: bool)
    ensures Parity(Push(r, b)) == (Parity(r) != b)
  {
    if r & 0x80 != 0 {
      if b {
      } else {
      }
    } else {
      if b {
      } else {
      }
    }
  }

  lemma {:induction false} RemainderParity(e: seq<bool>)
    ensures Parity(Remainder(0, e)) == Odd(e)
    decreases |e|
  {
    hide Push, BitOf;
    if e == [] {
      ZeroParity();
    } else {
      RemainderParity(e[..|e| - 1]);
      PushKeepsParity(Remainder(0, e[..|e| - 1]), e[|e| - 1]);
    }
    hide Parity;
  }

  lemma ZeroParity()
    ensures !Parity(0)
  {
  }

  /** Every nonzero burst of at most eight bits, and every error of odd weight, leaves a nonzero syndrome. */
  lemma ErrorsLeaveASyndrome(m: seq<bool>, e: seq<bool>, received: seq<bool>, c: bv8)
    requires |e| == |m| + 8
    requires received + ByteBits(c) == Plus(m + ByteBits(FeedAll(0, m)), e)
    requires (exists i :: BurstAt(e, i)) || Odd(e)
    ensures Xor(FeedAll(0, received), c) != 0
  {
    hide FeedAll, BurstAt, Remainder, ByteBits, Parity, Xor;
    var c0 := FeedAll(0, m);
    SyndromeIsRemainder(m, c0);
    XorZero(c0);
    SyndromeIsRemainder(received, c);
    RemainderIsLinear(m + ByteBits(c0), e);
    XorZero(Remainder(0, e));
    if Odd(e) {
      RemainderParity(e);
      ZeroParity();
    } else {
      var i :| BurstAt(e, i);
      BurstIsNotDivisible(e, i);
    }
  }
}

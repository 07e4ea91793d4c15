/**
  Fixed-width integers of the driver: `u32`, `u64` and their signed readings.

  Values are mathematical integers with an explicit wrap, so that only the four
  bitwise operators of the script language go through bit-vectors.
*/
module Words {
  const TWO_31: int := 0x8000_0000
  const TWO_32: int := 0x1_0000_0000
  const TWO_63: int := 0x8000_0000_0000_0000
  const TWO_64: int := 0x1_0000_0000_0000_0000

  type u8 = x: int | 0 <= x < 256
  type u32 = x: int | 0 <= x < 0x1_0000_0000
  type s32 = x: int | -0x8000_0000 <= x < 0x8000_0000
  type u64 = x: int | 0 <= x < 0x1_0000_0000_0000_0000

  datatype Option<+T> = None | Some(value: T)

  function Wrap(x: int): u32 {
    x % TWO_32
  }

  function Wrap64(x: int): u64 {
    x % TWO_64
  }

  /** The signed reading of a 32-bit pattern. */
  function ToS32(x: u32): (r: int)
    ensures -TWO_31 <= r < TWO_31
  {
    if x < TWO_31 then x else x - TWO_32
  }

  /** The signed reading of a 64-bit pattern. */
  function ToS64(x: u64): int {
    if x < TWO_63 then x else x - TWO_64
  }

  function Abs(x: int): nat {
    if x < 0 then -x else x
  }

  function Max(x: int, y: int): int {
    if x < y then y else x
  }

  function Min(x: int, y: int): int {
    if x < y then x else y
  }

  function Clamp(x: int, lo: int, hi: int): int {
    if x < lo then lo else if x > hi then hi else x
  }

  /** C division: the quotient is truncated toward zero. */
  function TruncDiv(a: int, b: int): int
    requires b != 0
  {
    if a >= 0 then
      if b > 0 then a / b else -(a / -b)
    else
      if b > 0 then -(-a / b) else -a / -b
  }

  function Pow2(n: nat): (r: nat)
    ensures r >= 1
  {
    if n == 0 then 1 else 2 * Pow2(n - 1)
  }

  /** Bit `k` of a natural number. */
  predicate Bit(w: nat, k: nat) {
    if k == 0 then w % 2 == 1 else Bit(w / 2, k - 1)
  }

  function BitAnd(a: u32, b: u32): u32 {
    ((a as bv32) & (b as bv32)) as int
  }

  function BitOr(a: u32, b: u32): u32 {
    ((a as bv32) | (b as bv32)) as int
  }

  function BitXor(a: u32, b: u32): u32 {
    ((a as bv32) ^ (b as bv32)) as int
  }

  // ---- quotients --------------------------------------------------------------------------

  /** A quotient is known by its remainder. */
  lemma QuotientIs(v: int, d: int, q: int, r: int)
    requires d > 0 && v == d * q + r && 0 <= r < d
    ensures v / d == q
  {
    var q2 := v / d;
    var r2 := v % d;
    assert v == d * q2 + r2 && 0 <= r2 < d;
    Scaled(d, q - q2);
    assert d * (q - q2) == d * q - d * q2;
  }

  lemma Scaled(d: int, k: int)
    requires d > 0
    ensures k >= 1 ==> d * k >= d
    ensures k <= -1 ==> d * k <= -d
  {
    if k >= 1 {
      assert d * k == d * (k - 1) + d && d * (k - 1) >= 0;
    }
    if k <= -1 {
      assert d * k == d * (k + 1) - d && d * (k + 1) <= 0;
    }
  }
}

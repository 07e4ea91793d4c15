/**
  What single instructions do to a machine, each from its word in the code: the steps the
  meaning of compiled code is put together from, and the calling convention.
*/
module ScriptLaws {
  import opened Words
  import opened Script

  /** The machine stands at an instruction `op`. */
  predicate At<E>(p: Program<E>, c: Core, op: u32) {
    Ready(p.varCount, c) && c.pc < |p.code| && p.code[c.pc] == op
  }

  /** The machine stands at an instruction `op` with its operand word. */
  predicate AtPair<E>(p: Program<E>, c: Core, op: u32, operand: u32) {
    At(p, c, op) && c.pc + 1 < |p.code| && p.code[c.pc + 1] == operand
  }

  /** The top word of the operand stack. */
  function Top<E>(p: Program<E>, c: Core): u32
    requires Storage(p.varCount, c) && 0 < c.sp <= LOCALS
  {
    c.vars[p.varCount + c.sp - 1]
  }

  lemma WrapSmall(x: int)
    requires 0 <= x < TWO_31
    ensures Wrap(x) == x && ToS32(Wrap(x)) == x
  {
  }

  /** A signed number survives the trip through its 32-bit pattern, added to anything. */
  lemma WrapDisplaced(x: int, k: s32)
    requires -TWO_31 <= x + k < TWO_31
    ensures ToS32(Wrap(x + Wrap(k))) == x + k
  {
  }

  // ---- the accumulator -----------------------------------------------------------------

  lemma DoLoad<E>(p: Program<E>, env: E, c: Core, operand: u32)
    requires AtPair(p, c, OP_LOAD, operand)
    ensures Exec(p, env, c) == Outcome(env, c.(pc := c.pc + 2, acc := operand), Running)
  {
  }

  /** `NOT` tells zero from the rest; `BNOT` and `NEG` are those of two's complement. */
  lemma DoUnary<E>(p: Program<E>, env: E, c: Core, op: u32)
    requires At(p, c, op) && OP_NOT <= op <= OP_NEG
    ensures var x := Exec(p, env, c);
            && x == Outcome(env, c.(pc := c.pc + 1, acc := x.core.acc), Running)
            && (op == OP_NOT ==> x.core.acc == if c.acc == 0 then 1 else 0)
            && (op == OP_BNOT ==> x.core.acc == Wrap(-1 - ToS32(c.acc)))
            && (op == OP_NEG ==> x.core.acc == Wrap(-ToS32(c.acc)))
  {
  }

  // ---- the stack -----------------------------------------------------------------------

  lemma DoPush<E>(p: Program<E>, env: E, c: Core)
    requires At(p, c, OP_PUSH) && c.sp < LOCALS
    ensures var d := c.(pc := c.pc + 1, sp := c.sp + 1, vars := c.vars[p.varCount + c.sp := c.acc]);
            Exec(p, env, c) == Outcome(env, d, Running) && Top(p, d) == c.acc
  {
  }

  lemma DoPop<E>(p: Program<E>, env: E, c: Core)
    requires At(p, c, OP_POP) && c.sp > 0
    ensures Exec(p, env, c) == Outcome(env, c.(pc := c.pc + 1, sp := c.sp - 1, acc := Top(p, c)), Running)
  {
  }

  lemma DoSwap<E>(p: Program<E>, env: E, c: Core)
    requires At(p, c, OP_SWAP) && c.sp > 0
    ensures var d := c.(pc := c.pc + 1, acc := Top(p, c), vars := c.vars[p.varCount + c.sp - 1 := c.acc]);
            Exec(p, env, c) == Outcome(env, d, Running) && Top(p, d) == c.acc
  {
  }

  /** A stack adjustment by a signed operand stops the thread exactly when it leaves 0..200. */
  lemma DoAdjust<E>(p: Program<E>, env: E, c: Core, op: u32, k: s32)
    requires AtPair(p, c, op, Wrap(k)) && (op == OP_STACK || op == OP_BAIL)
    requires c.sp + k < TWO_31
    ensures Exec(p, env, c)
         == Outcome(env, c.(pc := c.pc + 2, sp := c.sp + k),
                    if c.sp + k < 0 then Underflow else if c.sp + k > LOCALS then Overflow else Running)
  {
    AdjustStep(p, env, c, op, Wrap(k));
    WrapDisplaced(c.sp, k);
    hide *;
  }

  lemma AdjustStep<E>(p: Program<E>, env: E, c: Core, op: u32, operand: u32)
    requires AtPair(p, c, op, operand) && (op == OP_STACK || op == OP_BAIL)
    ensures var sp := ToS32(Wrap(c.sp + operand));
            var status := if sp < 0 then Underflow else if sp > LOCALS then Overflow else Running;
            Exec(p, env, c) == Outcome(env, c.(pc := c.pc + 2, sp := sp), status)
  {
    hide Wrap, ToS32;
  }

  // ---- branches ------------------------------------------------------------------------

  predicate Taken(op: u32, acc: u32) {
    op == OP_B || (op == OP_BT && acc != 0) || (op == OP_BF && acc == 0)
  }

  /** A taken branch lands its signed operand away from the next instruction; one before the code stops the thread. */
  lemma DoBranch<E>(p: Program<E>, env: E, c: Core, op: u32, k: s32)
    requires AtPair(p, c, op, Wrap(k)) && OP_B <= op <= OP_BF
    requires c.pc + 2 + k < TWO_31
    ensures Exec(p, env, c)
         == if Taken(op, c.acc)
            then Outcome(env, c.(pc := c.pc + 2 + k), if c.pc + 2 + k < 0 then Range else Running)
            else Outcome(env, c.(pc := c.pc + 2), Running)
  {
    WrapDisplaced(c.pc + 2, k);
  }

  // ---- variables -----------------------------------------------------------------------

  /** What an instruction on a variable makes of it: the counting ones move it by one in 32 bits. */
  function Moved(op: u32, v: u32): u32 {
    if op == OP_MEM then v
    else if op == OP_MEMPP || op == OP_PPMEM then Wrap(v + 1)
    else Wrap(v - 1)
  }

  predicate AnswersNew(op: u32) {
    op == OP_PPMEM || op == OP_MMMEM
  }

  lemma DoVariable<E>(p: Program<E>, env: E, c: Core, op: u32)
    requires At(p, c, op) && IsVariable(op)
    ensures var x := Exec(p, env, c);
            match VarIndex(c.acc, p.varCount)
            case None => x == Outcome(env, c.(pc := c.pc + 1), BadVar)
            case Some(i) =>
              var acc := if AnswersNew(op) then Moved(op, c.vars[i]) else c.vars[i];
              x == Outcome(env, c.(pc := c.pc + 1, acc := acc, vars := c.vars[i := Moved(op, c.vars[i])]), Running)
  {
    if VarIndex(c.acc, p.varCount).Some? {
      var i := VarIndex(c.acc, p.varCount).value;
      assert c.vars[i := c.vars[i]] == c.vars;
    }
  }

  /** Both stores take the top word off; `STORS` puts it where the accumulator says, `STORA` the other way round. */
  lemma DoStore<E>(p: Program<E>, env: E, c: Core, op: u32)
    requires At(p, c, op) && (op == OP_STORS || op == OP_STORA) && c.sp > 0
    ensures var name := if op == OP_STORA then Top(p, c) else c.acc;
            var word := if op == OP_STORA then c.acc else Top(p, c);
            var x := Exec(p, env, c);
            match VarIndex(name, p.varCount)
            case None => x == Outcome(env, c.(pc := c.pc + 1, sp := c.sp - 1), BadVar)
            case Some(i) => x == Outcome(env, c.(pc := c.pc + 1, sp := c.sp - 1, vars := c.vars[i := word]), Running)
  {
  }

  // ---- operators -----------------------------------------------------------------------

  /** The quotient of magnitudes with the sign C gives it. */
  function Quotient(a: int, b: int): int
    requires b != 0
  {
    var q: int := Abs(a) / Abs(b);
    if (a < 0) == (b < 0) then q else -q
  }

  /** The remainder of magnitudes with the sign of the dividend. */
  function Remainder(a: int, b: int): int
    requires b != 0
  {
    var r: int := Abs(a) % Abs(b);
    if a < 0 then -r else r
  }

  /** The relations: the order of signed numbers, and the truth values of C. */
  predicate Related(op: u32, a: s32, b: s32) {
    if op == OP_EQ then a == b
    else if op == OP_NE then a != b
    else if op == OP_GT then a > b
    else if op == OP_LT then a < b
    else if op == OP_GE then a >= b
    else if op == OP_LE then a <= b
    else if op == OP_AND then a != 0 && b != 0
    else a != 0 || b != 0
  }

  predicate IsBitwise(op: u32) {
    op == OP_BAND || op == OP_BOR || op == OP_BXOR
  }

  /**
    What an operator computes from two signed numbers, before it is cut to 32 bits;
    nothing when the quotient does not exist or is not a signed 32-bit number. The six
    codes between `BXOR` and `EQ` have no name and are taken for `OR`.
  */
  function Meaning(op: u32, a: s32, b: s32): Option<int>
    requires OP_LSHFT <= op <= OP_OR && !IsBitwise(op)
  {
    if op == OP_LSHFT then Some(a * Pow2(b % 32))
    else if op == OP_RSHFT then Some(a / Pow2(b % 32))
    else if op == OP_ADD then Some(a + b)
    else if op == OP_SUB then Some(a - b)
    else if op == OP_MUL then Some(a * b)
    else if op == OP_DIV || op == OP_MOD then
      if b == 0 || Quotient(a, b) >= TWO_31 then None
      else Some(if op == OP_DIV then Quotient(a, b) else Remainder(a, b))
    else Some(if Related(op, a, b) then 1 else 0)
  }

  /** The 32-bit word an operator makes of two words. */
  function Operate(op: u32, l: u32, r: u32): Option<u32>
    requires OP_LSHFT <= op <= OP_OR
  {
    if op == OP_BAND then Some(BitAnd(l, r))
    else if op == OP_BOR then Some(BitOr(l, r))
    else if op == OP_BXOR then Some(BitXor(l, r))
    else
      match Meaning(op, ToS32(l), ToS32(r))
      case None => None
      case Some(v) => Some(Wrap(v))
  }

  lemma {:induction false} ShiftRightIsFloor(v: int, n: nat)
    ensures ShiftRight(v, n) == v / Pow2(n)
  {
    if n > 0 {
      ShiftRightIsFloor(v, n - 1);
      HalfOfFloor(v, Pow2(n - 1));
    }
  }

  lemma HalfOfFloor(v: int, m: nat)
    requires m >= 1
    ensures v / m / 2 == v / (2 * m)
  {
    var q := v / m;
    var r := v % m;
    assert v == m * q + r;
    var h := q / 2;
    var s := q % 2;
    assert m * q == m * (2 * h + s);
    Distributes(m, h, s);
    assert v == (2 * m) * h + (m * s + r);
    assert 0 <= m * s <= m;
    QuotientIs(v, 2 * m, h, m * s + r);
  }

  lemma Distributes(m: int, h: int, s: int)
    ensures m * (2 * h + s) == (2 * m) * h + m * s
  {
  }

  /** Two numbers a whole number of words apart have the same pattern. */
  lemma SamePattern(x: int, y: int, k: int)
    requires x == y + k * TWO_32
    ensures Wrap(x) == Wrap(y)
  {
  }

  function Borrow(x: u32): (k: int)
    ensures x == ToS32(x) + k * TWO_32
  {
    if x < TWO_31 then 0 else 1
  }

  lemma ShiftCount(r: u32)
    ensures ToS32(r) % 32 == r % 32
  {
  }

  lemma ProductOfPatterns(a: int, b: int, i: int, j: int)
    ensures Wrap((a + i * TWO_32) * (b + j * TWO_32)) == Wrap(a * b)
  {
    var k := a * j + i * b + i * j * TWO_32;
    ExpandProduct(a, b, i * TWO_32, j * TWO_32);
    assert a * (j * TWO_32) + (i * TWO_32) * b + (i * TWO_32) * (j * TWO_32) == k * TWO_32;
    SamePattern((a + i * TWO_32) * (b + j * TWO_32), a * b, k);
  }

  lemma ExpandProduct(a: int, b: int, c: int, d: int)
    ensures (a + c) * (b + d) == a * b + a * d + c * b + c * d
  {
  }

  lemma ArithmeticMeans(op: u32, l: u32, r: u32)
    requires op == OP_ADD || op == OP_SUB || op == OP_MUL
    ensures Some(Binary(op, l, r)) == Operate(op, l, r)
  {
    var a, b, i, j := ToS32(l), ToS32(r), Borrow(l), Borrow(r);
    if op == OP_ADD {
      SamePattern(l + r, a + b, i + j);
    } else if op == OP_SUB {
      SamePattern(l - r, a - b, i - j);
    } else {
      ProductOfPatterns(a, b, i, j);
    }
  }

  lemma ShiftMeans(op: u32, l: u32, r: u32)
    requires op == OP_LSHFT || op == OP_RSHFT
    ensures Some(Binary(op, l, r)) == Operate(op, l, r)
  {
    ShiftCount(r);
    if op == OP_LSHFT {
      var a, i, m := ToS32(l), Borrow(l), Pow2(r % 32);
      assert l * m == a * m + (i * m) * TWO_32 by { ExpandProduct(a, m, i * TWO_32, 0); }
      SamePattern(l * m, a * m, i * m);
    } else {
      ShiftRightIsFloor(ToS32(l), r % 32);
    }
  }

  lemma RelationMeans(op: u32, l: u32, r: u32)
    requires OP_BXOR < op <= OP_OR
    ensures Some(Binary(op, l, r)) == Operate(op, l, r)
  {
  }

  lemma Magnitudes(x: nat, y: nat)
    requires y > 0
    ensures x == y * (x / y) + x % y && 0 <= x / y <= x
    ensures y >= 2 ==> x / y <= x / 2
  {
    var q, r := x / y, x % y;
    assert x == y * q + r && 0 <= r < y;
    if q < 0 {
      Scaled(y, q);
    }
    ExpandProduct(1, q, y - 1, 0);
    assert (y - 1) * q >= 0;
    if y >= 2 {
      ExpandProduct(2, q, y - 2, 0);
      assert (y - 2) * q >= 0;
    }
  }

  lemma SignedProduct(b: int, q: int)
    ensures b * -q == -(b * q) && -b * q == -(b * q) && -b * -q == b * q
  {
  }

  lemma QuotientTruncates(a: int, b: int)
    requires b != 0
    ensures TruncDiv(a, b) == Quotient(a, b)
  {
    if a < 0 && b < 0 {
      assert TruncDiv(a, b) == -a / -b;
    }
  }

  lemma RemainderIsLeft(a: int, b: int)
    requires b != 0
    ensures a - b * Quotient(a, b) == Remainder(a, b)
  {
    var x, y := Abs(a), Abs(b);
    Magnitudes(x, y);
    var q: int, r: int := x / y, x % y;
    SignedProduct(b, q);
    assert Quotient(a, b) == if (a < 0) == (b < 0) then q else -q;
    assert Remainder(a, b) == if a < 0 then -r else r;
    hide Quotient, Remainder;
  }

  /** Only the least number divided by -1 leaves 32 bits. */
  lemma QuotientFits(a: s32, b: s32)
    requires b != 0
    ensures Quotient(a, b) < TWO_31 <==> !(a == -TWO_31 && b == -1)
  {
    Magnitudes(Abs(a), Abs(b));
    var q: int := Abs(a) / Abs(b);
    assert Abs(a) / 1 == Abs(a);
    if Abs(b) == 1 {
      assert q == Abs(a);
    }
  }

  lemma DivisionMeans(op: u32, l: u32, r: u32)
    requires op == OP_DIV || op == OP_MOD
    ensures Divides(l, r) <==> Operate(op, l, r).Some?
    ensures Divides(l, r) ==> Some(Binary(op, l, r)) == Operate(op, l, r)
  {
    var a, b := ToS32(l), ToS32(r);
    if b != 0 {
      QuotientFits(a, b);
      QuotientTruncates(a, b);
      RemainderIsLeft(a, b);
    }
    hide Quotient, Remainder, TruncDiv;
  }

  /**
    The eighteen operators mean what they are named for, on every pair of words; a
    divide is refused exactly when it has no 32-bit answer.
  */
  lemma OperatorMeans(op: u32, l: u32, r: u32)
    requires OP_LSHFT <= op <= OP_OR
    ensures Operate(op, l, r) == None <==> (op == OP_DIV || op == OP_MOD) && !Divides(l, r)
    ensures Operate(op, l, r).Some? ==> Some(Binary(op, l, r)) == Operate(op, l, r)
  {
    if op <= OP_RSHFT {
      ShiftMeans(op, l, r);
    } else if op <= OP_MUL {
      ArithmeticMeans(op, l, r);
    } else if op <= OP_MOD {
      DivisionMeans(op, l, r);
    } else if op > OP_BXOR {
      RelationMeans(op, l, r);
    }
    hide Divides, Meaning, ShiftRight, SignedQuotient, SignedRemainder;
  }

  predicate Divider(op: u32) {
    op == OP_DIV || op == OP_MOD
  }

  /** An operator takes the top word as its left and the accumulator as its right operand. */
  lemma DoOperator<E>(p: Program<E>, env: E, c: Core, op: u32)
    requires At(p, c, op) && OP_LSHFT <= op <= OP_OR && c.sp > 0
    ensures var x := Exec(p, env, c);
            match Operate(op, Top(p, c), c.acc)
            case Some(v) => x == Outcome(env, c.(pc := c.pc + 1, sp := c.sp - 1, acc := v), Running)
            case None => x.env == env && x.status == DivZero && x.core.vars == c.vars && x.core.acc == c.acc
  {
    OperatorMeans(op, Top(p, c), c.acc);
    OperatorStep(p, env, c, op);
    hide *;
  }

  lemma OperatorStep<E>(p: Program<E>, env: E, c: Core, op: u32)
    requires At(p, c, op) && OP_LSHFT <= op <= OP_OR && c.sp > 0
    ensures var x := Exec(p, env, c);
            if Divider(op) && !Divides(Top(p, c), c.acc)
            then x.env == env && x.status == DivZero && x.core.vars == c.vars && x.core.acc == c.acc
            else x == Outcome(env, c.(pc := c.pc + 1, sp := c.sp - 1, acc := Binary(op, Top(p, c), c.acc)), Running)
  {
    hide Binary;
    OperandFree(op);
  }

  lemma OperandFree(op: u32)
    requires OP_LSHFT <= op <= OP_OR
    ensures !HasOperand(op)
  {
  }

  // ---- calls ---------------------------------------------------------------------------

  /** Where a call instruction goes: through the accumulator or to its operand word. */
  function Target<E>(p: Program<E>, c: Core): u32
    requires At(p, c, OP_CALLA) || At(p, c, OP_CALL)
  {
    if p.code[c.pc] == OP_CALLA then c.acc else if c.pc + 1 < |p.code| then p.code[c.pc + 1] else 0
  }

  /** The word after a call instruction. */
  function Beyond<E>(p: Program<E>, c: Core): nat
    requires At(p, c, OP_CALLA) || At(p, c, OP_CALL)
  {
    c.pc + if p.code[c.pc] == OP_CALLA then 1 else 2
  }

  lemma DoCall<E>(p: Program<E>, env: E, c: Core)
    requires At(p, c, OP_CALLA) || At(p, c, OP_CALL)
    requires Tag(Target(p, c)) == TAG_CODE && TagValue(Target(p, c)) < |p.code| && c.sp < LOCALS
    requires Beyond(p, c) < TWO_31
    ensures var d := c.(pc := TagValue(Target(p, c)), sp := c.sp + 1,
                        vars := c.vars[p.varCount + c.sp := Beyond(p, c)]);
            Exec(p, env, c) == Outcome(env, d, Running) && Top(p, d) == Beyond(p, c)
  {
    WrapSmall(Beyond(p, c));
    CallStep(p, env, c);
    hide *;
  }

  lemma CallStep<E>(p: Program<E>, env: E, c: Core)
    requires At(p, c, OP_CALLA) || At(p, c, OP_CALL)
    requires Tag(Target(p, c)) == TAG_CODE && TagValue(Target(p, c)) < |p.code| && c.sp < LOCALS
    ensures Exec(p, env, c)
         == Outcome(env, c.(pc := TagValue(Target(p, c)), sp := c.sp + 1,
                            vars := c.vars[p.varCount + c.sp := Wrap(Beyond(p, c))]), Running)
  {
    hide Tag, TagValue, Wrap;
  }

  lemma DoReturn<E>(p: Program<E>, env: E, c: Core)
    requires At(p, c, OP_RET) && c.sp > 0
    ensures var pc := ToS32(Top(p, c));
            Exec(p, env, c) == Outcome(env, c.(pc := pc, sp := c.sp - 1), if pc < 0 then Range else Running)
  {
  }

  /**
    A call goes to its target with one more word on the stack. Whatever the callee does,
    a return met with the stack as deep as at its entry and the same word on top goes to
    the instruction after the call, with the caller's depth; nothing else changes.
  */
  lemma CallsReturn<E>(p: Program<E>, env: E, c: Core, later: E, d: Core)
    requires At(p, c, OP_CALLA) || At(p, c, OP_CALL)
    requires Tag(Target(p, c)) == TAG_CODE && TagValue(Target(p, c)) < |p.code| && c.sp < LOCALS
    requires Beyond(p, c) < TWO_31
    requires var entry := Exec(p, env, c).core;
             At(p, d, OP_RET) && d.sp == entry.sp == c.sp + 1 && Top(p, d) == Top(p, entry)
    ensures var x := Exec(p, env, c);
            && x == Outcome(env, x.core, Running)
            && x.core.pc == TagValue(Target(p, c)) && x.core.acc == c.acc
            && (forall i | 0 <= i < p.varCount + LOCALS && i != p.varCount + c.sp :: x.core.vars[i] == c.vars[i])
    ensures Exec(p, later, d) == Outcome(later, d.(pc := Beyond(p, c), sp := c.sp), Running)
  {
    hide Tag, TagValue, Wrap;
    DoCall(p, env, c);
    DoReturn(p, later, d);
    WrapSmall(Beyond(p, c));
  }

  /** The bit pattern of a slot number, counted up from zero. */
  lemma {:induction false} SlotPattern(x: int) returns (b: bv32)
    requires 0 <= x < LOCALS
    ensures b as int == x && b < 0x400
  {
    if x == 0 {
      b := 0;
    } else {
      var a := SlotPattern(x - 1);
      NextPattern(a);
      b := a + 1;
      SmallPattern(b);
    }
  }

  lemma NextPattern(b: bv32)
    requires b < 0x400
    ensures (b + 1) as int == (b as int) + 1
  {
  }

  lemma SmallPattern(b: bv32)
    requires (b as int) < LOCALS
    ensures b < 0x400
  {
  }

  lemma TaggedPattern(b: bv32, t: bv32)
    requires b < 0x400 && t == 0x3000_0000
    ensures (b | t) as int == (b as int) + TAG_LOCAL
  {
  }

  lemma TagPattern(t: bv32)
    requires t == 0x3000_0000
    ensures t as int == TAG_LOCAL
  {
  }

  lemma PatternBack(b: bv32)
    ensures (b as int) as bv32 == b
  {
  }

  lemma PatternOf(x: u32, b: bv32)
    requires b as int == x
    ensures x as bv32 == b
  {
    PatternBack(b);
  }

  lemma OrOfPatterns(x: u32, b: bv32, y: u32, t: bv32)
    requires x as bv32 == b && y as bv32 == t
    ensures BitOr(x, y) == (b | t) as int
  {
  }

  lemma TaggedSlot(x: u32, b: bv32, y: u32, t: bv32)
    requires b as int == x && b < 0x400 && y == TAG_LOCAL && t == 0x3000_0000
    ensures BitOr(x, y) == x + y
  {
    hide BitOr;
    PatternOf(x, b);
    TagPattern(t);
    PatternOf(y, t);
    OrOfPatterns(x, b, y, t);
    TaggedPattern(b, t);
  }

  lemma TagOfLocal(x: u32, tag: u32)
    requires x < LOCALS && tag == TAG_LOCAL
    ensures BitOr(x, tag) == x + tag
  {
    hide BitOr;
    var b := SlotPattern(x);
    TaggedSlot(x, b, tag, 0x3000_0000);
  }

  /** `LOC` names the slot its signed operand away from the top of the operand stack. */
  lemma DoLocal<E>(p: Program<E>, env: E, c: Core, k: s32)
    requires AtPair(p, c, OP_LOC, Wrap(k)) && 0 <= c.sp + k < LOCALS
    ensures var x := Exec(p, env, c);
            && x == Outcome(env, c.(pc := c.pc + 2, acc := x.core.acc), Running)
            && VarIndex(x.core.acc, p.varCount) == Some(p.varCount + c.sp + k)
  {
    hide BitOr;
    WrapDisplaced(c.sp, k);
    LocalStep(p, env, c, Wrap(k));
    TagOfLocal(c.sp + k, TAG_LOCAL);
    SlotOfLocal(c.sp + k, p.varCount);
  }

  lemma SlotOfLocal(x: u32, varCount: nat)
    requires x < LOCALS
    ensures VarIndex(x + TAG_LOCAL, varCount) == Some(varCount + x)
  {
  }

  lemma LocalStep<E>(p: Program<E>, env: E, c: Core, operand: u32)
    requires AtPair(p, c, OP_LOC, operand)
    ensures Exec(p, env, c)
         == Outcome(env, c.(pc := c.pc + 2, acc := BitOr(Wrap(c.sp + operand), TAG_LOCAL)), Running)
  {
    hide BitOr;
  }

  /**
    The calling convention: what a caller at some depth names as local `k`, the function
    it calls names as local `k - 1`, because the return word lies between the two.
  */
  lemma ArgumentsMeet<E>(p: Program<E>, env: E, c: Core, callee: Core, k: s32)
    requires 1 <= k && c.sp + k < LOCALS && callee.sp == c.sp + 1
    requires AtPair(p, c, OP_LOC, Wrap(k)) && AtPair(p, callee, OP_LOC, Wrap(k - 1))
    ensures var given, taken := Exec(p, env, c).core.acc, Exec(p, env, callee).core.acc;
            VarIndex(given, p.varCount) == VarIndex(taken, p.varCount) == Some(p.varCount + c.sp + k)
  {
    DoLocal(p, env, c, k);
    DoLocal(p, env, callee, k - 1);
    hide *;
  }

  // ---- refusals ------------------------------------------------------------------------

  /** The codes with a name that are not calls. */
  predicate Named(op: u32) {
    || IsVariable(op) || OP_NOT <= op <= OP_NEG || op == OP_RET || op == OP_PUSH || op == OP_SWAP
    || op == OP_LOAD || OP_B <= op <= OP_BF || OP_STACK <= op <= OP_LOC
    || op == OP_STORS || op == OP_STORA || OP_LSHFT <= op <= OP_OR || op == OP_POP
  }

  /** The instructions that need a word on the operand stack. */
  predicate Takes(op: u32) {
    op == OP_POP || op == OP_SWAP || op == OP_STORS || op == OP_STORA || OP_LSHFT <= op <= OP_OR
  }

  /** How an instruction without the room, the word or the name it needs stops the thread. */
  lemma Refusals<E>(p: Program<E>, env: E, c: Core)
    requires Ready(p.varCount, c) && c.pc < |p.code|
    ensures var x, op := Exec(p, env, c), p.code[c.pc];
            && (op == OP_PUSH && c.sp == LOCALS ==> x.status == Overflow && x.core.vars == c.vars)
            && (Takes(op) && c.sp == 0 ==>
                  x.status == (if Divider(op) && c.acc == 0 then DivZero else Underflow) && x.core.vars == c.vars)
            && (op == OP_RET && c.sp == 0 ==> x.status == Terminated && x.core.acc == c.acc)
            && (!Named(op) && !IsCall(op) ==> x.status == Illegal && x.core.vars == c.vars)
  {
  }

  /** How a call that cannot be made stops the thread; one to an untagged word is passed over. */
  lemma CallRefusals<E>(p: Program<E>, env: E, c: Core)
    requires At(p, c, OP_CALLA) || At(p, c, OP_CALL)
    ensures var x, target := Exec(p, env, c), Target(p, c);
            var tag := Tag(target);
            && (tag == 0 ==> x == Outcome(env, c.(pc := Beyond(p, c)), Running))
            && (tag == TAG_CODE && TagValue(target) >= |p.code| ==> x.status == Range && x.core.vars == c.vars)
            && (tag == TAG_CODE && TagValue(target) < |p.code| && c.sp == LOCALS ==>
                  x.status == Overflow && x.core.vars == c.vars)
            && (tag != 0 && tag != TAG_CODE && tag != TAG_NATIVE ==> x.status == Range && x.core.vars == c.vars)
            && (tag == TAG_NATIVE && p.native == None ==> x.status == BadNative && x.core.vars == c.vars)
  {
    hide Tag, TagValue, Wrap;
  }
}

/**
  The script bytecode machine: one fetch-decode step as a pure function and a
  run as its budgeted iteration.

  Globals, locals and the operand stack share one array: slot `i` of the stack is
  `vars[varCount + i]`.
*/
module Script {
  import opened Words

  const LOCALS: nat := 200
  const BUDGET: nat := 100000

  datatype Status =
    | Running | Terminated | BadVar | Underflow | Overflow | DivZero
    | Range | Illegal | BadNative | Sleeping | BudgetOut | NoMemory

  /** The two ways a run stops that leave a thread able to go on. */
  predicate Yields(s: Status) {
    s == Sleeping || s == BudgetOut
  }

  const TAG_UNIT: nat := 0x1000_0000
  const TAG_CODE: u32 := 0x1000_0000
  const TAG_GLOBAL: u32 := 0x2000_0000
  const TAG_LOCAL: u32 := 0x3000_0000
  const TAG_NATIVE: u32 := 0x4000_0000

  const OP_MEM: u32 := 0x020
  const OP_MEMPP: u32 := 0x021
  const OP_MEMMM: u32 := 0x022
  const OP_PPMEM: u32 := 0x023
  const OP_MMMEM: u32 := 0x024
  const OP_NOT: u32 := 0x040
  const OP_BNOT: u32 := 0x041
  const OP_NEG: u32 := 0x042
  const OP_CALLA: u32 := 0x080
  const OP_RET: u32 := 0x082
  const OP_PUSH: u32 := 0x093
  const OP_SWAP: u32 := 0x095
  const OP_LOAD: u32 := 0x110
  const OP_B: u32 := 0x170
  const OP_BT: u32 := 0x171
  const OP_BF: u32 := 0x172
  const OP_CALL: u32 := 0x181
  const OP_STACK: u32 := 0x190
  const OP_BAIL: u32 := 0x191
  const OP_LOC: u32 := 0x192
  const OP_STORS: u32 := 0x230
  const OP_STORA: u32 := 0x231
  const OP_LSHFT: u32 := 0x250
  const OP_RSHFT: u32 := 0x251
  const OP_ADD: u32 := 0x252
  const OP_SUB: u32 := 0x253
  const OP_MUL: u32 := 0x254
  const OP_DIV: u32 := 0x255
  const OP_MOD: u32 := 0x256
  const OP_BAND: u32 := 0x257
  const OP_BOR: u32 := 0x258
  const OP_BXOR: u32 := 0x259
  const OP_EQ: u32 := 0x260
  const OP_NE: u32 := 0x261
  const OP_GT: u32 := 0x262
  const OP_LT: u32 := 0x263
  const OP_GE: u32 := 0x264
  const OP_LE: u32 := 0x265
  const OP_AND: u32 := 0x266
  const OP_OR: u32 := 0x267
  const OP_POP: u32 := 0x294

  /** The thread state a scheduler saves and restores, with the shared storage. */
  datatype Core = Core(pc: int, acc: u32, sp: int, vars: seq<u32>)

  /** What a native builtin may do: change its own environment, write the accumulator, choose the status. */
  datatype NativeResult<E> = NativeResult(env: E, acc: u32, status: Status)

  datatype Program<!E> = Program(
    code: seq<u32>, varCount: nat, native: Option<(E, Core, u32) -> NativeResult<E>>)

  /** The result of one instruction. */
  datatype Outcome<E> = Outcome(env: E, core: Core, status: Status)

  /** The result of one instruction that does not reach the environment. */
  datatype Local = Local(core: Core, status: Status)

  predicate Storage(varCount: nat, c: Core) {
    |c.vars| == varCount + LOCALS
  }

  /** The states `core_script_run` may be entered in and keeps while it runs. */
  predicate Ready(varCount: nat, c: Core) {
    Storage(varCount, c) && 0 <= c.sp <= LOCALS && 0 <= c.pc
  }

  function Tag(v: u32): u32 {
    v - v % TAG_UNIT
  }

  function TagValue(v: u32): u32 {
    v % TAG_UNIT
  }

  /** Resolve a tagged operand to an index into `vars`, or reject it. */
  function VarIndex(v: u32, varCount: nat): (r: Option<nat>)
    ensures r.Some? ==> r.value < varCount + LOCALS
    ensures r.Some? <==>
              || (Tag(v) == TAG_GLOBAL && TagValue(v) < varCount)
              || (Tag(v) == TAG_LOCAL && TagValue(v) < LOCALS)
    ensures r.Some? && Tag(v) == TAG_LOCAL ==> r.value >= varCount
  {
    if Tag(v) == TAG_GLOBAL then
      if TagValue(v) >= varCount then None else Some(TagValue(v))
    else if Tag(v) == TAG_LOCAL then
      if TagValue(v) > LOCALS - 1 then None else Some(TagValue(v) + varCount)
    else None
  }

  function Stack(varCount: nat, c: Core, i: int): u32
    requires Storage(varCount, c) && 0 <= i < LOCALS
  {
    c.vars[varCount + i]
  }

  function Bool(b: bool): u32 {
    if b then 1 else 0
  }

  /** True of the operand pairs a 32-bit signed divide has a result for. */
  predicate Divides(lhs: u32, rhs: u32) {
    rhs != 0 && !(lhs == 0x8000_0000 && rhs == 0xFFFF_FFFF)
  }

  /** The quotient of a signed divide; it is a signed 32-bit value again. */
  function SignedQuotient(lhs: u32, rhs: u32): (q: s32)
    requires Divides(lhs, rhs)
  {
    TruncDiv(ToS32(lhs), ToS32(rhs))
  }

  function SignedRemainder(lhs: u32, rhs: u32): int
    requires Divides(lhs, rhs)
  {
    ToS32(lhs) - ToS32(rhs) * SignedQuotient(lhs, rhs)
  }

  /** The eighteen binary operators; `acc` is the right operand. */
  function Binary(op: u32, lhs: u32, acc: u32): u32
    requires OP_LSHFT <= op <= OP_OR
    requires op == OP_DIV || op == OP_MOD ==> Divides(lhs, acc)
  {
    if op == OP_LSHFT then Wrap(lhs * Pow2(acc % 32))
    else if op == OP_RSHFT then Wrap(ShiftRight(ToS32(lhs), acc % 32))
    else if op == OP_ADD then Wrap(lhs + acc)
    else if op == OP_SUB then Wrap(lhs - acc)
    else if op == OP_MUL then Wrap(lhs * acc)
    else if op == OP_DIV then Wrap(SignedQuotient(lhs, acc))
    else if op == OP_MOD then Wrap(SignedRemainder(lhs, acc))
    else if op == OP_BAND then BitAnd(lhs, acc)
    else if op == OP_BOR then BitOr(lhs, acc)
    else if op == OP_BXOR then BitXor(lhs, acc)
    else if op == OP_EQ then Bool(lhs == acc)
    else if op == OP_NE then Bool(lhs != acc)
    else if op == OP_GT then Bool(ToS32(lhs) > ToS32(acc))
    else if op == OP_LT then Bool(ToS32(lhs) < ToS32(acc))
    else if op == OP_GE then Bool(ToS32(lhs) >= ToS32(acc))
    else if op == OP_LE then Bool(ToS32(lhs) <= ToS32(acc))
    else if op == OP_AND then Bool(lhs != 0 && acc != 0)
    else Bool(lhs != 0 || acc != 0)
  }

  /** Arithmetic shift right: floor division by a power of two. */
  function ShiftRight(v: int, n: nat): int {
    if n == 0 then v else ShiftRight(v, n - 1) / 2
  }

  predicate HasOperand(op: u32) {
    op / 0x100 % 2 == 1
  }

  function Operand<E>(p: Program<E>, at: nat): u32
    requires at < |p.code|
  {
    if HasOperand(p.code[at]) && at + 1 < |p.code| then p.code[at + 1] else 0
  }

  predicate IsVariable(op: u32) {
    OP_MEM <= op <= OP_MMMEM
  }

  function StepVariable(varCount: nat, c: Core, op: u32): (r: Local)
    requires Storage(varCount, c) && IsVariable(op)
    ensures Storage(varCount, r.core) && r.core.sp == c.sp && r.core.pc == c.pc
    ensures r.status == Running || r.status == BadVar
  {
    match VarIndex(c.acc, varCount)
    case None => Local(c, BadVar)
    case Some(i) =>
      var v: int := c.vars[i];
      if op == OP_MEM then Local(c.(acc := v), Running)
      else if op == OP_MEMPP then Local(c.(acc := v, vars := c.vars[i := Wrap(v + 1)]), Running)
      else if op == OP_MEMMM then Local(c.(acc := v, vars := c.vars[i := Wrap(v - 1)]), Running)
      else if op == OP_PPMEM then Local(c.(acc := Wrap(v + 1), vars := c.vars[i := Wrap(v + 1)]), Running)
      else Local(c.(acc := Wrap(v - 1), vars := c.vars[i := Wrap(v - 1)]), Running)
  }

  function Push(varCount: nat, c: Core, v: u32): (r: Local)
    requires Storage(varCount, c) && 0 <= c.sp <= LOCALS
    ensures Storage(varCount, r.core) && 0 <= r.core.sp <= LOCALS && r.core.pc == c.pc
    ensures r.status == if c.sp == LOCALS then Overflow else Running
  {
    if c.sp >= LOCALS then Local(c, Overflow)
    else Local(c.(vars := c.vars[varCount + c.sp := v], sp := c.sp + 1), Running)
  }

  /** `vm->sp += operand` in 32 bits; the bounds are tested after the addition. */
  function StepAdjust(c: Core, operand: u32): (r: Local)
    ensures r.core.vars == c.vars && r.core.pc == c.pc && r.core.acc == c.acc
    ensures r.status == Running ==> 0 <= r.core.sp <= LOCALS
    ensures !Yields(r.status)
  {
    var sp := ToS32(Wrap(c.sp + operand));
    Local(c.(sp := sp), if sp < 0 then Underflow else if sp > LOCALS then Overflow else Running)
  }

  /** A taken branch: relative to the instruction after the operand, in 32 bits. */
  function Jump(c: Core, at: nat, operand: u32): (r: Local)
    ensures r.core.vars == c.vars && r.core.sp == c.sp
    ensures r.status == Running ==> 0 <= r.core.pc
    ensures !Yields(r.status)
  {
    var pc := ToS32(Wrap(at + 2 + operand));
    Local(c.(pc := pc), if pc < 0 then Range else Running)
  }

  function StepReturn(varCount: nat, c: Core): (r: Local)
    requires Storage(varCount, c) && 0 <= c.sp <= LOCALS
    ensures Storage(varCount, r.core) && 0 <= r.core.sp <= LOCALS
    ensures r.status == Running ==> 0 <= r.core.pc
    ensures !Yields(r.status)
  {
    if c.sp <= 0 then Local(c, Terminated)
    else
      var pc := ToS32(Stack(varCount, c, c.sp - 1));
      Local(c.(sp := c.sp - 1, pc := pc), if pc < 0 then Range else Running)
  }

  /** `STORS` stores the popped value through the accumulator, `STORA` the accumulator through it. */
  function StepStore(varCount: nat, c: Core, op: u32): (r: Local)
    requires Storage(varCount, c) && 0 <= c.sp <= LOCALS
    ensures Storage(varCount, r.core) && 0 <= r.core.sp <= LOCALS && r.core.pc == c.pc
    ensures !Yields(r.status)
  {
    if c.sp <= 0 then Local(c, Underflow)
    else
      var d := c.(sp := c.sp - 1);
      var top := Stack(varCount, c, c.sp - 1);
      var (address, value) := if op == OP_STORS then (c.acc, top) else (top, c.acc);
      match VarIndex(address, varCount)
      case None => Local(d, BadVar)
      case Some(i) => Local(d.(vars := c.vars[i := value]), Running)
  }

  /** The default arm: the zero divisor is reported before an illegal opcode or an empty stack. */
  function StepBinary(varCount: nat, c: Core, op: u32): (r: Local)
    requires Storage(varCount, c) && 0 <= c.sp <= LOCALS
    ensures Storage(varCount, r.core) && 0 <= r.core.sp <= LOCALS && r.core.pc == c.pc
    ensures !Yields(r.status)
  {
    var divides := op == OP_DIV || op == OP_MOD;
    if divides && c.acc == 0 then Local(c, DivZero)
    else if op < OP_LSHFT || op > OP_OR then Local(c, Illegal)
    else if c.sp <= 0 then Local(c, Underflow)
    else
      var d := c.(sp := c.sp - 1);
      var lhs := Stack(varCount, c, c.sp - 1);
      if divides && !Divides(lhs, c.acc) then Local(d, DivZero)
      else Local(d.(acc := Binary(op, lhs, c.acc)), Running)
  }

  predicate IsCall(op: u32) {
    op == OP_CALLA || op == OP_CALL
  }

  /** A call whose target is not a native: an untagged target does nothing at all. */
  function StepCall(varCount: nat, codeCount: nat, c: Core, target: u32): (r: Local)
    requires Ready(varCount, c)
    ensures Storage(varCount, r.core) && 0 <= r.core.sp <= LOCALS && 0 <= r.core.pc
    ensures !Yields(r.status)
  {
    if Tag(target) == 0 then Local(c, Running)
    else if Tag(target) == TAG_CODE then
      if TagValue(target) >= codeCount then Local(c, Range)
      else
        var pushed := Push(varCount, c, Wrap(c.pc));
        if pushed.status == Overflow then pushed
        else Local(pushed.core.(pc := TagValue(target)), Running)
    else Local(c, Range)
  }

  /** Every instruction except a call; `c.pc` is already past the instruction at `at`. */
  function StepLocal(varCount: nat, c: Core, at: nat, op: u32, operand: u32): (r: Local)
    requires Ready(varCount, c) && !IsCall(op)
    ensures Storage(varCount, r.core)
    ensures r.status == Running ==> Ready(varCount, r.core)
    ensures !Yields(r.status)
  {
    if IsVariable(op) then StepVariable(varCount, c, op)
    else if op == OP_NOT then Local(c.(acc := Bool(c.acc == 0)), Running)
    else if op == OP_BNOT then Local(c.(acc := 0xFFFF_FFFF - c.acc), Running)
    else if op == OP_NEG then Local(c.(acc := Wrap(0 - ToS32(c.acc))), Running)
    else if op == OP_PUSH then Push(varCount, c, c.acc)
    else if op == OP_POP then
      if c.sp <= 0 then Local(c, Underflow)
      else Local(c.(sp := c.sp - 1, acc := Stack(varCount, c, c.sp - 1)), Running)
    else if op == OP_SWAP then
      if c.sp <= 0 then Local(c, Underflow)
      else Local(c.(acc := Stack(varCount, c, c.sp - 1),
                    vars := c.vars[varCount + c.sp - 1 := c.acc]), Running)
    else if op == OP_STACK || op == OP_BAIL then StepAdjust(c, operand)
    else if op == OP_LOC then Local(c.(acc := BitOr(Wrap(c.sp + operand), TAG_LOCAL)), Running)
    else if op == OP_LOAD then Local(c.(acc := operand), Running)
    else if op == OP_B then Jump(c, at, operand)
    else if op == OP_BT then if c.acc != 0 then Jump(c, at, operand) else Local(c, Running)
    else if op == OP_BF then if c.acc == 0 then Jump(c, at, operand) else Local(c, Running)
    else if op == OP_RET then StepReturn(varCount, c)
    else if op == OP_STORS || op == OP_STORA then StepStore(varCount, c, op)
    else StepBinary(varCount, c, op)
  }

  /** One instruction. Only a native call can change the environment or put the thread to sleep. */
  function Exec<E>(p: Program<E>, env: E, c: Core): (r: Outcome<E>)
    requires Ready(p.varCount, c) && c.pc < |p.code|
    ensures Storage(p.varCount, r.core)
    ensures r.status == Running || Yields(r.status) ==> Ready(p.varCount, r.core)
  {
    var at := c.pc;
    var op := p.code[at];
    var operand := Operand(p, at);
    var d := c.(pc := at + if HasOperand(op) then 2 else 1);
    if IsCall(op) then
      var target := if op == OP_CALLA then c.acc else operand;
      if Tag(target) == TAG_NATIVE then
        match p.native
        case None => Outcome(env, d, BadNative)
        case Some(native) =>
          var n := native(env, d, target);
          Outcome(n.env, d.(acc := n.acc), n.status)
      else
        var l := StepCall(p.varCount, |p.code|, d, target);
        Outcome(env, l.core, l.status)
    else
      var l := StepLocal(p.varCount, d, at, op, operand);
      Outcome(env, l.core, l.status)
  }

  /** A stopped run. `executed` counts the instructions that ran; the machine itself keeps no such count. */
  datatype RunResult<E> = RunResult(env: E, core: Core, budget: int, status: Status, executed: nat)

  /**
    The budgeted loop. A token is spent before the test, so a budget of 1 runs
    nothing and a budget of `b` runs at most `b - 1` instructions.
  */
  function Loop<E>(p: Program<E>, env: E, c: Core, budget: int): (r: RunResult<E>)
    requires Ready(p.varCount, c)
    ensures Storage(p.varCount, r.core)
    ensures r.status != Running
    ensures Yields(r.status) ==> Ready(p.varCount, r.core)
    ensures r.budget < budget
    ensures budget >= 1 ==> 0 <= r.budget && r.executed <= budget - r.budget
    ensures budget <= 1 ==> r == RunResult(env, c, budget - 1, BudgetOut, 0)
    decreases Max(budget, 0)
  {
    var left := budget - 1;
    if left < 1 then RunResult(env, c, left, BudgetOut, 0)
    else if c.pc >= |p.code| then RunResult(env, c, left, Range, 0)
    else
      var x := Exec(p, env, c);
      if x.status == Running then
        var r := Loop(p, x.env, x.core, left);
        r.(executed := r.executed + 1)
      else
        RunResult(x.env, x.core, left, x.status, 1)
  }

  /** `core_script_run`: a negative program counter is refused before a token is spent. */
  function Run<E>(p: Program<E>, env: E, c: Core, budget: int): (r: RunResult<E>)
    requires Storage(p.varCount, c) && 0 <= c.sp <= LOCALS
    ensures Storage(p.varCount, r.core)
    ensures r.status != Running
    ensures Yields(r.status) ==> Ready(p.varCount, r.core)
    ensures r.budget <= budget && r.executed <= Max(budget, 0) - Max(r.budget, 0)
    ensures c.pc >= 0 ==> r.budget < budget
  {
    if c.pc < 0 then RunResult(env, c, budget, Range, 0)
    else Loop(p, env, c, budget)
  }
}

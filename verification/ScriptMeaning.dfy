/**
  What compiled code means: the words a compiler emits for an expression leave the
  expression's value in the accumulator, and a fault of the expression stops the thread.

  The language has what the emitted code is made of: words, named variables, counting,
  operators, stores, a choice, a reserved stretch of stack and calls of functions.
*/
module ScriptMeaning {
  import opened Words
  import opened Script
  import opened ScriptLaws

  /** Where code can be called at. */
  type address = x: int | 0 <= x < 0x1000_0000

  /** How two operands, evaluated left to right, become one value. */
  datatype Join =
    | Operator(op: u32)
    | Reversed(op: u32)  // with the second as its left operand
    | Dropped            // the first, the second was only for its effect

  datatype Expr =
    | Word(word: u32)                              // a constant
    | Touch(kind: u32, name: u32)                  // a variable, read or counted
    | Unary(op: u32, operand: Expr)
    | Pair(join: Join, left: Expr, right: Expr)
    | Assign(name: u32, value: Expr)               // the value written is the answer
    | Put(stored: Expr, place: u32)                // the name written to is the answer
    | Choice(branch: u32, test: Expr, near: Expr, far: Expr)
    | Framed(words: nat, body: Expr)               // with that many words of stack reserved
    | Invoke(target: address, body: Expr)          // a call of the function whose body is there

  /** The operators and branches in the tree are ones of their kind. */
  predicate Legal(e: Expr) {
    match e
    case Word(_) => true
    case Touch(kind, _) => IsVariable(kind)
    case Unary(op, a) => OP_NOT <= op <= OP_NEG && Legal(a)
    case Pair(join, l, r) => (join.Dropped? || OP_LSHFT <= join.op <= OP_OR) && Legal(l) && Legal(r)
    case Assign(_, a) => Legal(a)
    case Put(a, _) => Legal(a)
    case Choice(branch, t, n, f) => (branch == OP_BF || branch == OP_BT) && Legal(t) && Legal(n) && Legal(f)
    case Framed(_, a) => Legal(a)
    case Invoke(_, a) => Legal(a)
  }

  // ---- meaning -------------------------------------------------------------------------

  /** What an expression comes to, what it leaves the variables as, and how many instructions it takes. */
  datatype Answer =
    | Value(word: u32, memory: seq<u32>, cost: nat)
    | Fault(status: Status, memory: seq<u32>, cost: nat)

  function Later(a: Answer, n: nat): Answer {
    a.(cost := a.cost + n)
  }

  /** A variable by its tagged name, in the part of the storage that is looked at. */
  function Slot(name: u32, m: seq<u32>, varCount: nat): (r: Option<nat>)
    ensures r.Some? ==> r.value < |m| && VarIndex(name, varCount) == r
  {
    match VarIndex(name, varCount)
    case None => None
    case Some(i) => if i < |m| then Some(i) else None
  }

  function Written(name: u32, word: u32, answer: u32, m: seq<u32>, varCount: nat, cost: nat): Answer {
    match Slot(name, m, varCount)
    case None => Fault(BadVar, m, cost)
    case Some(i) => Value(answer, m[i := word], cost)
  }

  function Touched(kind: u32, name: u32, m: seq<u32>, varCount: nat): Answer {
    match Slot(name, m, varCount)
    case None => Fault(BadVar, m, 2)
    case Some(i) =>
      var v := Moved(kind, m[i]);
      Value(if AnswersNew(kind) then v else m[i], m[i := v], 2)
  }

  function Applied(op: u32, l: u32, r: u32, m: seq<u32>, cost: nat): Answer
    requires OP_LSHFT <= op <= OP_OR
  {
    match Operate(op, l, r)
    case None => Fault(DivZero, m, cost)
    case Some(v) => Value(v, m, cost)
  }

  function Joined(join: Join, v: u32, w: u32, m: seq<u32>, n: nat): Answer
    requires join.Dropped? || OP_LSHFT <= join.op <= OP_OR
  {
    match join
    case Operator(op) => Applied(op, v, w, m, n + 1)
    case Reversed(op) => Applied(op, w, v, m, n + 2)
    case Dropped => Value(v, m, n + 1)
  }

  function Signed(op: u32, word: u32): u32 {
    if op == OP_NOT then if word == 0 then 1 else 0
    else if op == OP_BNOT then Wrap(-1 - ToS32(word))
    else Wrap(-ToS32(word))
  }

  /** The value of an expression over the variables `m`. */
  function Eval(e: Expr, m: seq<u32>, varCount: nat): (r: Answer)
    requires Legal(e)
    ensures |r.memory| == |m|
  {
    match e
    case Word(w) => Value(w, m, 1)
    case Touch(kind, name) => Touched(kind, name, m, varCount)
    case Unary(op, a) => (
      match Eval(a, m, varCount)
      case Fault(s, m1, n) => Fault(s, m1, n)
      case Value(v, m1, n) => Value(Signed(op, v), m1, n + 1))
    case Pair(join, l, r) => (
      match Eval(l, m, varCount)
      case Fault(s, m1, n) => Fault(s, m1, n)
      case Value(v, m1, n) =>
        match Eval(r, m1, varCount)
        case Fault(s, m2, k) => Fault(s, m2, n + 1 + k)
        case Value(w, m2, k) => Joined(join, v, w, m2, n + 1 + k))
    case Assign(name, a) => (
      match Eval(a, m, varCount)
      case Fault(s, m1, n) => Fault(s, m1, 2 + n)
      case Value(v, m1, n) => Written(name, v, v, m1, varCount, 2 + n + 1))
    case Put(a, name) => (
      match Eval(a, m, varCount)
      case Fault(s, m1, n) => Fault(s, m1, n)
      case Value(v, m1, n) => Written(name, v, name, m1, varCount, n + 3))
    case Choice(branch, t, near, far) => (
      match Eval(t, m, varCount)
      case Fault(s, m1, n) => Fault(s, m1, n)
      case Value(v, m1, n) =>
        if (branch == OP_BF) == (v != 0) then
          match Eval(near, m1, varCount)
          case Fault(s, m2, k) => Fault(s, m2, n + 1 + k)
          case Value(w, m2, k) => Value(w, m2, n + 1 + k + 1)
        else Later(Eval(far, m1, varCount), n + 1))
    case Framed(_, a) => (
      match Eval(a, m, varCount)
      case Fault(s, m1, n) => Fault(s, m1, 1 + n)
      case Value(v, m1, n) => Value(v, m1, 1 + n + 1))
    case Invoke(_, a) => (
      match Eval(a, m, varCount)
      case Fault(s, m1, n) => Fault(s, m1, 1 + n)
      case Value(v, m1, n) => Value(v, m1, 1 + n + 1))
  }

  // ---- code ----------------------------------------------------------------------------

  /** What follows the code of the second operand. */
  function Tail(join: Join): seq<u32> {
    match join
    case Operator(op) => [op]
    case Reversed(op) => [OP_SWAP, op]
    case Dropped => [OP_POP]
  }

  /** The words emitted for an expression; they can stand anywhere. */
  function Emit(e: Expr): seq<u32> {
    match e
    case Word(w) => [OP_LOAD, w]
    case Touch(kind, name) => [OP_LOAD, name, kind]
    case Unary(op, a) => Emit(a) + [op]
    case Pair(join, l, r) => Emit(l) + [OP_PUSH] + Emit(r) + Tail(join)
    case Assign(name, a) => [OP_LOAD, name, OP_PUSH] + Emit(a) + [OP_STORA]
    case Put(a, name) => Emit(a) + [OP_PUSH, OP_LOAD, name, OP_STORS]
    case Choice(branch, t, near, far) =>
      Emit(t) + [branch, Wrap(|Emit(near)| + 2)] + Emit(near) + [OP_B, Wrap(|Emit(far)|)] + Emit(far)
    case Framed(words, a) => [OP_STACK, Wrap(words)] + Emit(a) + [OP_STACK, Wrap(-1 * words)]
    case Invoke(target, _) => [OP_CALL, TAG_CODE + target]
  }

  /** The words `w` stand in the code at `at`. */
  predicate Stands(code: seq<u32>, at: int, w: seq<u32>) {
    0 <= at && at + |w| <= |code| && code[at..at + |w|] == w
  }

  /** Every function called stands where it is called, with a return after its body. */
  predicate Linked(code: seq<u32>, e: Expr) {
    match e
    case Word(_) => true
    case Touch(_, _) => true
    case Unary(_, a) => Linked(code, a)
    case Pair(_, l, r) => Linked(code, l) && Linked(code, r)
    case Assign(_, a) => Linked(code, a)
    case Put(a, _) => Linked(code, a)
    case Choice(_, t, n, f) => Linked(code, t) && Linked(code, n) && Linked(code, f)
    case Framed(_, a) => Linked(code, a)
    case Invoke(target, a) => Stands(code, target, Emit(a) + [OP_RET]) && Linked(code, a)
  }

  /** Every name that resolves, resolves below `floor`: no name reaches the operand stack in use. */
  predicate Below(e: Expr, varCount: nat, floor: nat) {
    match e
    case Word(_) => true
    case Touch(_, name) => NameBelow(name, varCount, floor)
    case Unary(_, a) => Below(a, varCount, floor)
    case Pair(_, l, r) => Below(l, varCount, floor) && Below(r, varCount, floor)
    case Assign(name, a) => NameBelow(name, varCount, floor) && Below(a, varCount, floor)
    case Put(a, name) => NameBelow(name, varCount, floor) && Below(a, varCount, floor)
    case Choice(_, t, n, f) => Below(t, varCount, floor) && Below(n, varCount, floor) && Below(f, varCount, floor)
    case Framed(_, a) => Below(a, varCount, floor)
    case Invoke(_, a) => Below(a, varCount, floor)
  }

  predicate NameBelow(name: u32, varCount: nat, floor: nat) {
    match VarIndex(name, varCount)
    case None => true
    case Some(i) => i < floor
  }

  /** The operand stack an expression needs. */
  function Room(e: Expr): nat {
    match e
    case Word(_) => 0
    case Touch(_, _) => 0
    case Unary(_, a) => Room(a)
    case Pair(_, l, r) => Max(Room(l), 1 + Room(r))
    case Assign(_, a) => 1 + Room(a)
    case Put(a, _) => Max(Room(a), 1)
    case Choice(_, t, n, f) => Max(Room(t), Max(Room(n), Room(f)))
    case Framed(words, a) => words + Room(a)
    case Invoke(_, a) => 1 + Room(a)
  }

  // ---- runs ----------------------------------------------------------------------------

  /** `n` instructions, or fewer if one of them stops the machine. */
  function Steps<E>(p: Program<E>, env: E, c: Core, n: nat): (r: Outcome<E>)
    requires Ready(p.varCount, c)
    ensures r.status == Running ==> Ready(p.varCount, r.core)
    ensures Storage(p.varCount, r.core)
    decreases n
  {
    if n == 0 then Outcome(env, c, Running)
    else if c.pc >= |p.code| then Outcome(env, c, Range)
    else
      var x := Exec(p, env, c);
      if x.status == Running then Steps(p, x.env, x.core, n - 1) else x
  }

  /** `n` instructions take the machine from `c` to `d`. */
  predicate Goes<E(==)>(p: Program<E>, env: E, c: Core, n: nat, d: Core) {
    Ready(p.varCount, c) && Steps(p, env, c, n) == Outcome(env, d, Running)
  }

  /** The `n`th instruction stops the machine with `status`, the variables below `|m|` being `m`. */
  predicate Stops<E(==)>(p: Program<E>, env: E, c: Core, n: nat, status: Status, m: seq<u32>) {
    && Ready(p.varCount, c) && status != Running
    && var x := Steps(p, env, c, n);
       x.env == env && x.status == status && m <= x.core.vars
  }

  lemma {:induction false} StepsAdd<E>(p: Program<E>, env: E, c: Core, n: nat, k: nat)
    requires Ready(p.varCount, c)
    ensures var x := Steps(p, env, c, n);
            Steps(p, env, c, n + k) == if x.status == Running then Steps(p, x.env, x.core, k) else x
    decreases n
  {
    hide Exec;
    if n > 0 && c.pc < |p.code| {
      var x := Exec(p, env, c);
      if x.status == Running {
        StepsAdd(p, x.env, x.core, n - 1, k);
      }
    }
  }

  lemma GoesOn<E>(p: Program<E>, env: E, c: Core, n: nat, d: Core, k: nat, e: Core)
    requires Goes(p, env, c, n, d) && Goes(p, env, d, k, e)
    ensures Goes(p, env, c, n + k, e)
  {
    hide Exec;
    StepsAdd(p, env, c, n, k);
    hide Steps;
  }

  lemma GoesThenStops<E>(p: Program<E>, env: E, c: Core, n: nat, d: Core, k: nat, status: Status, m: seq<u32>)
    requires Goes(p, env, c, n, d) && Stops(p, env, d, k, status, m)
    ensures Stops(p, env, c, n + k, status, m)
  {
    hide Exec;
    StepsAdd(p, env, c, n, k);
    hide Steps;
  }

  lemma GoesOne<E>(p: Program<E>, env: E, c: Core, d: Core)
    requires Ready(p.varCount, c) && c.pc < |p.code| && Exec(p, env, c) == Outcome(env, d, Running)
    ensures Goes(p, env, c, 1, d)
  {
    hide Exec;
    var x := Exec(p, env, c);
    assert Steps(p, x.env, x.core, 0) == Outcome(env, d, Running);
  }

  lemma StopsAtOnce<E>(p: Program<E>, env: E, c: Core, m: seq<u32>)
    requires Ready(p.varCount, c) && c.pc < |p.code|
    requires var x := Exec(p, env, c); x.env == env && x.status != Running && m <= x.core.vars
    ensures Stops(p, env, c, 1, Exec(p, env, c).status, m)
  {
    hide Exec;
  }

  /** `d` has the stack of `c` from `floor` up, `m` below it. */
  predicate Keeps(varCount: nat, c: Core, d: Core, floor: nat, m: seq<u32>) {
    && Storage(varCount, c) && Storage(varCount, d)
    && 0 <= c.sp <= d.sp <= LOCALS && |m| == floor <= varCount + c.sp
    && d.vars[..floor] == m
    && forall i | floor <= i < varCount + c.sp :: d.vars[i] == c.vars[i]
  }

  lemma KeepsOn(varCount: nat, c: Core, d: Core, e: Core, floor: nat, m: seq<u32>, m1: seq<u32>)
    requires Keeps(varCount, c, d, floor, m) && Keeps(varCount, d, e, floor, m1)
    ensures Keeps(varCount, c, e, floor, m1)
  {
  }

  /** Registers may change, and words that neither `floor` nor the stack of `c` covers. */
  lemma KeepsAside(varCount: nat, c: Core, d: Core, floor: nat, m: seq<u32>, x: Core)
    requires Keeps(varCount, c, d, floor, m) && c.sp <= x.sp <= LOCALS && |x.vars| == |d.vars|
    requires forall i | 0 <= i < varCount + c.sp :: x.vars[i] == d.vars[i]
    ensures Keeps(varCount, c, x, floor, m)
  {
    assert x.vars[..floor] == d.vars[..floor];
  }

  lemma KeepsWritten(varCount: nat, c: Core, d: Core, floor: nat, m: seq<u32>, x: Core, i: nat, word: u32)
    requires Keeps(varCount, c, d, floor, m) && c.sp <= x.sp <= LOCALS && i < floor
    requires x.vars == d.vars[i := word]
    ensures Keeps(varCount, c, x, floor, m[i := word]) && d.vars[i] == m[i]
  {
    assert x.vars[..floor] == d.vars[..floor][i := word];
  }

  lemma KeepsBelow(varCount: nat, c: Core, d: Core, floor: nat, m: seq<u32>)
    requires Keeps(varCount, c, d, floor, m)
    ensures |m| == floor <= |d.vars| && m <= d.vars && d.vars[..floor] == m
  {
  }

  /** One more instruction. */
  lemma Advance<E>(p: Program<E>, env: E, c: Core, n: nat, d: Core, x: Core)
    requires Goes(p, env, c, n, d) && Ready(p.varCount, d) && d.pc < |p.code|
    requires Exec(p, env, d) == Outcome(env, x, Running)
    ensures Goes(p, env, c, n + 1, x)
  {
    hide Exec, Steps;
    GoesOne(p, env, d, x);
    GoesOn(p, env, c, n, d, 1, x);
  }

  /** One more instruction, which stops the machine. */
  lemma Halts<E>(p: Program<E>, env: E, c: Core, n: nat, d: Core, status: Status, floor: nat, m: seq<u32>)
    requires Goes(p, env, c, n, d) && Ready(p.varCount, d) && d.pc < |p.code| && Keeps(p.varCount, c, d, floor, m)
    requires var x := Exec(p, env, d); x.env == env && x.status == status != Running && x.core.vars == d.vars
    ensures Stops(p, env, c, n + 1, status, m)
  {
    hide Exec, Steps, Goes, Stops;
    KeepsBelow(p.varCount, c, d, floor, m);
    StopsAtOnce(p, env, d, m);
    GoesThenStops(p, env, c, n, d, 1, status, m);
  }

  lemma Reached<E>(p: Program<E>, env: E, c: Core, n: nat, d: Core)
    requires Goes(p, env, c, n, d)
    ensures Ready(p.varCount, d)
  {
    hide Exec;
  }

  /** The code of `len` words at `c.pc` does what the answer says, and touches nothing else below the stack pointer. */
  predicate Computes<E(==)>(p: Program<E>, env: E, c: Core, len: nat, floor: nat, a: Answer) {
    match a
    case Fault(s, m, n) => Stops(p, env, c, n, s, m)
    case Value(v, m, n) =>
      && Ready(p.varCount, c)
      && var d := Steps(p, env, c, n).core;
         Goes(p, env, c, n, d) && Arrives(p, c, len, floor, v, m, d)
  }

  predicate Arrives<E>(p: Program<E>, c: Core, len: nat, floor: nat, v: u32, m: seq<u32>, d: Core) {
    d.pc == c.pc + len && d.acc == v && d.sp == c.sp && Keeps(p.varCount, c, d, floor, m)
  }

  /** The machine stands before the code of `e`, with the stack it needs. */
  predicate Before<E>(p: Program<E>, c: Core, e: Expr, floor: nat) {
    && Ready(p.varCount, c) && |p.code| < TWO_31
    && Legal(e) && Stands(p.code, c.pc, Emit(e)) && Linked(p.code, e)
    && Below(e, p.varCount, floor) && p.varCount <= floor <= p.varCount + c.sp
    && c.sp + Room(e) <= LOCALS
  }

  /** A machine that goes to `d` in `n` instructions computes what `d` holds. */
  lemma Lands<E>(p: Program<E>, env: E, c: Core, d: Core, len: nat, floor: nat, v: u32, m: seq<u32>, n: nat)
    requires Goes(p, env, c, n, d) && Arrives(p, c, len, floor, v, m, d)
    ensures Computes(p, env, c, len, floor, Value(v, m, n))
  {
    hide Steps, Arrives;
  }

  lemma Landed<E>(p: Program<E>, env: E, c: Core, len: nat, floor: nat, a: Answer) returns (d: Core)
    requires Computes(p, env, c, len, floor, a) && a.Value?
    ensures Goes(p, env, c, a.cost, d) && Arrives(p, c, len, floor, a.word, a.memory, d)
  {
    d := Steps(p, env, c, a.cost).core;
    hide Steps, Arrives;
  }

  // ---- placement -----------------------------------------------------------------------

  lemma StandsParts(code: seq<u32>, at: int, u: seq<u32>, v: seq<u32>)
    requires Stands(code, at, u + v)
    ensures Stands(code, at, u) && Stands(code, at + |u|, v)
  {
    var w := u + v;
    assert code[at..at + |u|] == code[at..at + |w|][..|u|] == u;
    assert code[at + |u|..at + |u| + |v|] == code[at..at + |w|][|u|..] == v;
  }

  lemma StandsWord(code: seq<u32>, at: int, w: seq<u32>, i: nat)
    requires Stands(code, at, w) && i < |w|
    ensures 0 <= at + i < |code| && code[at + i] == w[i]
  {
    assert code[at..at + |w|][i] == w[i];
  }

  // ---- the cases -----------------------------------------------------------------------

  lemma WordRuns<E>(p: Program<E>, env: E, c: Core, w: u32, floor: nat)
    requires Before(p, c, Word(w), floor)
    ensures Computes(p, env, c, 2, floor, Value(w, c.vars[..floor], 1))
  {
    StandsWord(p.code, c.pc, [OP_LOAD, w], 0);
    StandsWord(p.code, c.pc, [OP_LOAD, w], 1);
    var d := c.(pc := c.pc + 2, acc := w);
    DoLoad(p, env, c, w);
    hide Exec, Steps, Computes;
    GoesOne(p, env, c, d);
    Lands(p, env, c, d, 2, floor, w, c.vars[..floor], 1);
  }

  lemma TouchRuns<E>(p: Program<E>, env: E, c: Core, kind: u32, name: u32, floor: nat)
    requires Before(p, c, Touch(kind, name), floor)
    ensures Computes(p, env, c, 3, floor, Touched(kind, name, c.vars[..floor], p.varCount))
  {
    hide Exec, Steps, Moved;
    forall i: nat | i < 3 {
      StandsWord(p.code, c.pc, [OP_LOAD, name, kind], i);
    }
    var m := c.vars[..floor];
    var d := c.(pc := c.pc + 2, acc := name);
    DoLoad(p, env, c, name);
    GoesOne(p, env, c, d);
    DoVariable(p, env, d, kind);
    match VarIndex(name, p.varCount)
    case None =>
      StopsAtOnce(p, env, d, m);
      GoesThenStops(p, env, c, 1, d, 1, BadVar, m);
    case Some(i) =>
      var v := Moved(kind, c.vars[i]);
      var x := Exec(p, env, d).core;
      GoesOne(p, env, d, x);
      GoesOn(p, env, c, 1, d, 1, x);
      assert x.vars[..floor] == m[i := v];
      Lands(p, env, c, x, 3, floor, x.acc, m[i := v], 2);
  }

  lemma UnaryRuns<E>(p: Program<E>, env: E, c: Core, op: u32, len: nat, floor: nat, a: Answer)
    requires Computes(p, env, c, len, floor, a) && a.Value?
    requires OP_NOT <= op <= OP_NEG && 0 <= c.pc && Stands(p.code, c.pc + len, [op])
    ensures Computes(p, env, c, len + 1, floor, Value(Signed(op, a.word), a.memory, a.cost + 1))
  {
    var d := Landed(p, env, c, len, floor, a);
    Reached(p, env, c, a.cost, d);
    StandsWord(p.code, d.pc, [op], 0);
    DoUnary(p, env, d, op);
    hide Exec, Steps, Computes, Goes, Keeps;
    var x := Exec(p, env, d).core;
    Advance(p, env, c, a.cost, d, x);
    KeepsAside(p.varCount, c, d, floor, a.memory, x);
    Lands(p, env, c, x, len + 1, floor, x.acc, a.memory, a.cost + 1);
  }

  // ---- two operands --------------------------------------------------------------------

  /** The first value on the stack, the second in the accumulator. */
  predicate Holds<E>(p: Program<E>, c: Core, len: nat, floor: nat, v: u32, w: u32, m: seq<u32>, d: Core) {
    && Keeps(p.varCount, c, d, floor, m)
    && d.pc == c.pc + len && d.sp == c.sp + 1 && Top(p, d) == v && d.acc == w
  }

  lemma HoldsReady<E>(p: Program<E>, env: E, c: Core, n: nat, len: nat, floor: nat,
                      v: u32, w: u32, m: seq<u32>, d: Core)
    requires Goes(p, env, c, n, d) && Holds(p, c, len, floor, v, w, m, d)
    ensures Ready(p.varCount, d) && Keeps(p.varCount, c, d, floor, m)
    ensures d.pc == c.pc + len && d.sp == c.sp + 1 && Top(p, d) == v && d.acc == w && 0 <= c.sp
    ensures |d.vars| == p.varCount + LOCALS && floor <= p.varCount + c.sp
  {
    Reached(p, env, c, n, d);
  }

  lemma TopKept<E>(p: Program<E>, c: Core, d: Core, e: Core, floor: nat, m: seq<u32>, m2: seq<u32>)
    requires Keeps(p.varCount, c, d, floor, m) && Keeps(p.varCount, d, e, floor, m2)
    requires d.sp == c.sp + 1 && e.sp == d.sp
    ensures Top(p, e) == Top(p, d) == e.vars[p.varCount + c.sp]
  {
  }

  lemma HeldBy<E>(p: Program<E>, c: Core, len: nat, floor: nat, v: u32, w: u32, m: seq<u32>, d: Core)
    requires Holds(p, c, len, floor, v, w, m, d)
    ensures d.pc == c.pc + len && d.sp == c.sp + 1 && Storage(p.varCount, d) && d.sp <= LOCALS && 0 <= c.sp
    ensures Top(p, d) == v && d.acc == w
  {
  }

  lemma IsHeld<E>(p: Program<E>, c: Core, len: nat, floor: nat, v: u32, w: u32, m: seq<u32>, d: Core)
    requires Keeps(p.varCount, c, d, floor, m) && d.pc == c.pc + len && d.sp == c.sp + 1 && d.acc == w
    requires p.varCount + c.sp < |d.vars| && d.vars[p.varCount + c.sp] == v
    ensures Holds(p, c, len, floor, v, w, m, d)
  {
  }

  lemma PushRuns<E>(p: Program<E>, env: E, c: Core, len: nat, floor: nat, a: Answer) returns (d: Core)
    requires Computes(p, env, c, len, floor, a) && a.Value?
    requires 0 <= c.pc && Stands(p.code, c.pc + len, [OP_PUSH]) && c.sp < LOCALS
    ensures Goes(p, env, c, a.cost + 1, d) && Holds(p, c, len + 1, floor, a.word, a.word, a.memory, d)
  {
    var b := Landed(p, env, c, len, floor, a);
    Reached(p, env, c, a.cost, b);
    StandsWord(p.code, b.pc, [OP_PUSH], 0);
    DoPush(p, env, b);
    hide Exec, Steps, Computes, Goes, Keeps, Holds, Top;
    d := b.(pc := b.pc + 1, sp := b.sp + 1, vars := b.vars[p.varCount + b.sp := b.acc]);
    Advance(p, env, c, a.cost, b, d);
    KeepsAside(p.varCount, c, b, floor, a.memory, d);
    IsHeld(p, c, len + 1, floor, a.word, a.word, a.memory, d);
  }

  lemma SecondRuns<E>(p: Program<E>, env: E, c: Core, n: nat, len: nat, floor: nat, v: u32, m: seq<u32>, d: Core,
                      len2: nat, b: Answer) returns (e: Core)
    requires Goes(p, env, c, n, d) && Holds(p, c, len, floor, v, v, m, d)
    requires Computes(p, env, d, len2, floor, b) && b.Value?
    ensures Goes(p, env, c, n + b.cost, e) && Holds(p, c, len + len2, floor, v, b.word, b.memory, e)
  {
    e := Landed(p, env, d, len2, floor, b);
    hide Exec, Steps, Computes, Goes;
    GoesOn(p, env, c, n, d, b.cost, e);
    TopKept(p, c, d, e, floor, m, b.memory);
    KeepsOn(p.varCount, c, d, e, floor, m, b.memory);
    hide Keeps, Holds;
    HeldBy(p, c, len, floor, v, v, m, d);
    IsHeld(p, c, len + len2, floor, v, b.word, b.memory, e);
  }

  /** An operator with its operands in place. */
  lemma OperatorRuns<E>(p: Program<E>, env: E, c: Core, n: nat, len: nat, floor: nat,
                        v: u32, w: u32, m: seq<u32>, d: Core, op: u32)
    requires Goes(p, env, c, n, d) && Holds(p, c, len, floor, v, w, m, d)
    requires OP_LSHFT <= op <= OP_OR && 0 <= c.pc && Stands(p.code, c.pc + len, [op])
    ensures Computes(p, env, c, len + 1, floor, Applied(op, v, w, m, n + 1))
  {
    HoldsReady(p, env, c, n, len, floor, v, w, m, d);
    StandsWord(p.code, d.pc, [op], 0);
    DoOperator(p, env, d, op);
    hide Exec, Steps, Goes, Keeps, Holds, Top, Stands, Stops, Operate;
    match Operate(op, v, w)
    case None =>
      Halts(p, env, c, n, d, DivZero, floor, m);
    case Some(r) =>
      hide Computes;
      var x := d.(pc := d.pc + 1, sp := d.sp - 1, acc := r);
      Advance(p, env, c, n, d, x);
      KeepsAside(p.varCount, c, d, floor, m, x);
      Lands(p, env, c, x, len + 1, floor, r, m, n + 1);
  }

  lemma SwapRuns<E>(p: Program<E>, env: E, c: Core, n: nat, len: nat, floor: nat,
                    v: u32, w: u32, m: seq<u32>, d: Core) returns (e: Core)
    requires Goes(p, env, c, n, d) && Holds(p, c, len, floor, v, w, m, d)
    requires 0 <= c.pc && Stands(p.code, c.pc + len, [OP_SWAP])
    ensures Goes(p, env, c, n + 1, e) && Holds(p, c, len + 1, floor, w, v, m, e)
  {
    HoldsReady(p, env, c, n, len, floor, v, w, m, d);
    StandsWord(p.code, d.pc, [OP_SWAP], 0);
    DoSwap(p, env, d);
    hide Exec, Steps, Goes, Keeps, Holds, Top, Stands;
    e := d.(pc := d.pc + 1, acc := v, vars := d.vars[p.varCount + d.sp - 1 := w]);
    Advance(p, env, c, n, d, e);
    KeepsAside(p.varCount, c, d, floor, m, e);
    IsHeld(p, c, len + 1, floor, w, v, m, e);
  }

  lemma PopRuns<E>(p: Program<E>, env: E, c: Core, n: nat, len: nat, floor: nat,
                   v: u32, w: u32, m: seq<u32>, d: Core)
    requires Goes(p, env, c, n, d) && Holds(p, c, len, floor, v, w, m, d)
    requires 0 <= c.pc && Stands(p.code, c.pc + len, [OP_POP])
    ensures Computes(p, env, c, len + 1, floor, Value(v, m, n + 1))
  {
    HoldsReady(p, env, c, n, len, floor, v, w, m, d);
    StandsWord(p.code, d.pc, [OP_POP], 0);
    DoPop(p, env, d);
    hide Exec, Steps, Goes, Keeps, Holds, Top, Stands, Computes;
    var x := d.(pc := d.pc + 1, sp := d.sp - 1, acc := v);
    Advance(p, env, c, n, d, x);
    KeepsAside(p.varCount, c, d, floor, m, x);
    Lands(p, env, c, x, len + 1, floor, v, m, n + 1);
  }

  // ---- stores --------------------------------------------------------------------------

  /** A name loaded and pushed, for a store through the stack. */
  lemma NameRuns<E>(p: Program<E>, env: E, c: Core, name: u32, floor: nat) returns (d: Core)
    requires Ready(p.varCount, c) && Stands(p.code, c.pc, [OP_LOAD, name, OP_PUSH]) && c.sp < LOCALS
    requires p.varCount <= floor <= p.varCount + c.sp
    ensures Goes(p, env, c, 2, d) && Holds(p, c, 3, floor, name, name, c.vars[..floor], d)
  {
    forall i: nat | i < 3 {
      StandsWord(p.code, c.pc, [OP_LOAD, name, OP_PUSH], i);
    }
    var m := c.vars[..floor];
    assert Keeps(p.varCount, c, c, floor, m);
    DoLoad(p, env, c, name);
    hide Exec, Steps, Goes, Keeps, Holds, Top, Stands;
    var b := c.(pc := c.pc + 2, acc := name);
    GoesOne(p, env, c, b);
    DoPush(p, env, b);
    d := b.(pc := b.pc + 1, sp := b.sp + 1, vars := b.vars[p.varCount + b.sp := name]);
    Advance(p, env, c, 1, b, d);
    KeepsAside(p.varCount, c, c, floor, m, d);
    IsHeld(p, c, 3, floor, name, name, m, d);
  }

  lemma ReloadRuns<E>(p: Program<E>, env: E, c: Core, n: nat, len: nat, floor: nat,
                      v: u32, m: seq<u32>, d: Core, w: u32) returns (e: Core)
    requires Goes(p, env, c, n, d) && Holds(p, c, len, floor, v, v, m, d)
    requires 0 <= c.pc && Stands(p.code, c.pc + len, [OP_LOAD, w])
    ensures Goes(p, env, c, n + 1, e) && Holds(p, c, len + 2, floor, v, w, m, e)
  {
    HoldsReady(p, env, c, n, len, floor, v, v, m, d);
    StandsWord(p.code, d.pc, [OP_LOAD, w], 0);
    StandsWord(p.code, d.pc, [OP_LOAD, w], 1);
    assert d.vars[p.varCount + c.sp] == v;
    DoLoad(p, env, d, w);
    hide Exec, Steps, Goes, Keeps, Holds, Top, Stands;
    e := d.(pc := d.pc + 2, acc := w);
    Advance(p, env, c, n, d, e);
    KeepsAside(p.varCount, c, d, floor, m, e);
    IsHeld(p, c, len + 2, floor, v, w, m, e);
  }

  /** A store of `word` under `name` carried out by the instruction at `d`. */
  lemma StoreLands<E>(p: Program<E>, env: E, c: Core, n: nat, len: nat, floor: nat,
                      m: seq<u32>, d: Core, name: u32, word: u32)
    requires Goes(p, env, c, n, d) && Keeps(p.varCount, c, d, floor, m)
    requires Ready(p.varCount, d) && d.pc == c.pc + len < |p.code| && d.sp == c.sp + 1 && 0 <= c.sp
    requires NameBelow(name, p.varCount, floor)
    requires var x := Exec(p, env, d);
             match VarIndex(name, p.varCount)
             case None => x == Outcome(env, d.(pc := d.pc + 1, sp := d.sp - 1), BadVar)
             case Some(i) => x == Outcome(env, d.(pc := d.pc + 1, sp := d.sp - 1, vars := d.vars[i := word]), Running)
    ensures Computes(p, env, c, len + 1, floor, Written(name, word, d.acc, m, p.varCount, n + 1))
  {
    hide Exec, Steps, Goes, Stops, VarIndex;
    KeepsBelow(p.varCount, c, d, floor, m);
    match VarIndex(name, p.varCount)
    case None =>
      hide Keeps;
      Halts(p, env, c, n, d, BadVar, floor, m);
    case Some(i) =>
      hide Computes, Keeps;
      WordLands(p, env, c, n, len, floor, m, d, i, word);
  }

  lemma WordLands<E>(p: Program<E>, env: E, c: Core, n: nat, len: nat, floor: nat,
                     m: seq<u32>, d: Core, i: nat, word: u32)
    requires Goes(p, env, c, n, d) && Keeps(p.varCount, c, d, floor, m)
    requires Ready(p.varCount, d) && d.pc == c.pc + len < |p.code| && d.sp == c.sp + 1 && 0 <= c.sp
    requires i < floor == |m| && i < |d.vars|
    requires Exec(p, env, d)
          == Outcome(env, d.(pc := d.pc + 1, sp := d.sp - 1, vars := d.vars[i := word]), Running)
    ensures Computes(p, env, c, len + 1, floor, Value(d.acc, m[i := word], n + 1))
  {
    hide Exec, Steps, Goes, Keeps, Computes;
    var x := d.(pc := d.pc + 1, sp := d.sp - 1, vars := d.vars[i := word]);
    Advance(p, env, c, n, d, x);
    KeepsWritten(p.varCount, c, d, floor, m, x, i, word);
    Lands(p, env, c, x, len + 1, floor, d.acc, m[i := word], n + 1);
  }

  /** `STORA`: the name on the stack, the word in the accumulator. */
  lemma StoreAccRuns<E>(p: Program<E>, env: E, c: Core, n: nat, len: nat, floor: nat,
                        name: u32, word: u32, m: seq<u32>, d: Core)
    requires Goes(p, env, c, n, d) && Holds(p, c, len, floor, name, word, m, d)
    requires 0 <= c.pc && Stands(p.code, c.pc + len, [OP_STORA]) && NameBelow(name, p.varCount, floor)
    ensures Computes(p, env, c, len + 1, floor, Written(name, word, word, m, p.varCount, n + 1))
  {
    HoldsReady(p, env, c, n, len, floor, name, word, m, d);
    StandsWord(p.code, d.pc, [OP_STORA], 0);
    DoStore(p, env, d, OP_STORA);
    hide Exec, Steps, Goes, Keeps, Holds, Top, Stands, Computes, VarIndex, NameBelow, Written;
    StoreLands(p, env, c, n, len, floor, m, d, name, word);
  }

  /** `STORS`: the word on the stack, the name in the accumulator. */
  lemma StoreStackRuns<E>(p: Program<E>, env: E, c: Core, n: nat, len: nat, floor: nat,
                          word: u32, name: u32, m: seq<u32>, d: Core)
    requires Goes(p, env, c, n, d) && Holds(p, c, len, floor, word, name, m, d)
    requires 0 <= c.pc && Stands(p.code, c.pc + len, [OP_STORS]) && NameBelow(name, p.varCount, floor)
    ensures Computes(p, env, c, len + 1, floor, Written(name, word, name, m, p.varCount, n + 1))
  {
    HoldsReady(p, env, c, n, len, floor, word, name, m, d);
    StandsWord(p.code, d.pc, [OP_STORS], 0);
    DoStore(p, env, d, OP_STORS);
    hide Exec, Steps, Goes, Keeps, Holds, Top, Stands, Computes, VarIndex, NameBelow, Written;
    StoreLands(p, env, c, n, len, floor, m, d, name, word);
  }

  // ---- branches ------------------------------------------------------------------------

  lemma JumpRuns<E>(p: Program<E>, env: E, c: Core, n: nat, len: nat, floor: nat, v: u32, m: seq<u32>, d: Core,
                    op: u32, k: nat) returns (e: Core)
    requires Goes(p, env, c, n, d) && Arrives(p, c, len, floor, v, m, d)
    requires OP_B <= op <= OP_BF && c.pc + len + 2 + k < TWO_31
    requires 0 <= c.pc && Stands(p.code, c.pc + len, [op, Wrap(k)])
    ensures Goes(p, env, c, n + 1, e)
    ensures Arrives(p, c, len + 2 + (if Taken(op, v) then k else 0), floor, v, m, e)
  {
    Reached(p, env, c, n, d);
    StandsWord(p.code, d.pc, [op, Wrap(k)], 0);
    StandsWord(p.code, d.pc, [op, Wrap(k)], 1);
    DoBranch(p, env, d, op, k);
    assert d.sp <= LOCALS;
    hide Exec, Steps, Goes, Keeps, Stands, Taken, Wrap;
    e := d.(pc := d.pc + 2 + if Taken(op, v) then k else 0);
    Advance(p, env, c, n, d, e);
    KeepsAside(p.varCount, c, d, floor, m, e);
  }

  /** What follows computes on from where the machine got. */
  lemma ChainRuns<E>(p: Program<E>, env: E, c: Core, n: nat, len: nat, floor: nat, v: u32, m: seq<u32>, d: Core,
                     len2: nat, b: Answer)
    requires Goes(p, env, c, n, d) && Arrives(p, c, len, floor, v, m, d)
    requires Computes(p, env, d, len2, floor, b)
    ensures Computes(p, env, c, len + len2, floor, Later(b, n))
  {
    match b
    case Fault(s, m2, k) =>
      hide Exec, Steps, Goes, Stops, Arrives, Keeps;
      GoesThenStops(p, env, c, n, d, k, s, m2);
    case Value(w, m2, k) =>
      var e := Landed(p, env, d, len2, floor, b);
      hide Exec, Steps, Goes, Computes, Keeps;
      GoesOn(p, env, c, n, d, k, e);
      KeepsOn(p.varCount, c, d, e, floor, m, m2);
      Lands(p, env, c, e, len + len2, floor, w, m2, n + k);
  }

  // ---- frames and calls ----------------------------------------------------------------

  /** An inner stretch of code, entered by one instruction and left by another. */
  lemma Between<E>(p: Program<E>, env: E, c: Core, d: Core, len: nat, floor: nat, m: seq<u32>, a: Answer, e: Core,
                   x: Core, len2: nat)
    requires Goes(p, env, c, 1, d) && Keeps(p.varCount, c, d, floor, m)
    requires Goes(p, env, d, a.cost, e) && a.Value? && Arrives(p, d, len, floor, a.word, a.memory, e)
    requires Ready(p.varCount, e) && e.pc < |p.code| && Exec(p, env, e) == Outcome(env, x, Running)
    requires x == e.(pc := c.pc + len2, sp := c.sp)
    ensures Computes(p, env, c, len2, floor, Value(a.word, a.memory, 1 + a.cost + 1))
  {
    assert c.sp <= LOCALS;
    hide Exec, Steps, Goes, Computes, Keeps;
    GoesOn(p, env, c, 1, d, a.cost, e);
    Advance(p, env, c, 1 + a.cost, e, x);
    KeepsOn(p.varCount, c, d, e, floor, m, a.memory);
    KeepsAside(p.varCount, c, e, floor, a.memory, x);
    Lands(p, env, c, x, len2, floor, a.word, a.memory, 1 + a.cost + 1);
  }

  lemma ReserveRuns<E>(p: Program<E>, env: E, c: Core, words: nat, floor: nat) returns (d: Core)
    requires Ready(p.varCount, c) && Stands(p.code, c.pc, [OP_STACK, Wrap(words)]) && c.sp + words <= LOCALS
    requires p.varCount <= floor <= p.varCount + c.sp
    ensures d == c.(pc := c.pc + 2, sp := c.sp + words)
    ensures Goes(p, env, c, 1, d) && Keeps(p.varCount, c, d, floor, c.vars[..floor])
  {
    StandsWord(p.code, c.pc, [OP_STACK, Wrap(words)], 0);
    StandsWord(p.code, c.pc, [OP_STACK, Wrap(words)], 1);
    DoAdjust(p, env, c, OP_STACK, words);
    hide Exec, Steps, Goes, Wrap;
    d := c.(pc := c.pc + 2, sp := c.sp + words);
    GoesOne(p, env, c, d);
  }

  lemma ReleaseRuns<E>(p: Program<E>, env: E, c: Core, words: nat, d: Core, len: nat, floor: nat, m: seq<u32>,
                       a: Answer)
    requires 0 <= c.pc && d == c.(pc := c.pc + 2, sp := c.sp + words)
    requires Goes(p, env, c, 1, d) && Keeps(p.varCount, c, d, floor, m)
    requires Computes(p, env, d, len, floor, a) && a.Value?
    requires Stands(p.code, d.pc + len, [OP_STACK, Wrap(-1 * words)])
    ensures Computes(p, env, c, len + 4, floor, Value(a.word, a.memory, 1 + a.cost + 1))
  {
    var e := Landed(p, env, d, len, floor, a);
    Reached(p, env, d, a.cost, e);
    StandsWord(p.code, e.pc, [OP_STACK, Wrap(-1 * words)], 0);
    StandsWord(p.code, e.pc, [OP_STACK, Wrap(-1 * words)], 1);
    assert 0 <= c.sp && e.sp == c.sp + words <= LOCALS;
    hide Exec, Steps, Goes, Wrap, Computes, Keeps, Stands;
    DoAdjust(p, env, e, OP_STACK, -1 * words);
    Between(p, env, c, d, len, floor, m, a, e, e.(pc := e.pc + 2, sp := c.sp), len + 4);
  }

  lemma EnterRuns<E>(p: Program<E>, env: E, c: Core, target: address, floor: nat) returns (d: Core)
    requires Ready(p.varCount, c) && Stands(p.code, c.pc, [OP_CALL, TAG_CODE + target])
    requires target < |p.code| < TWO_31 && c.sp < LOCALS
    requires p.varCount <= floor <= p.varCount + c.sp
    ensures Goes(p, env, c, 1, d) && Keeps(p.varCount, c, d, floor, c.vars[..floor])
    ensures d.pc == target && d.sp == c.sp + 1 && Top(p, d) == c.pc + 2
  {
    StandsWord(p.code, c.pc, [OP_CALL, TAG_CODE + target], 0);
    StandsWord(p.code, c.pc, [OP_CALL, TAG_CODE + target], 1);
    DoCall(p, env, c);
    hide Exec, Steps, Goes;
    d := Exec(p, env, c).core;
    GoesOne(p, env, c, d);
    assert d.vars[..floor] == c.vars[..floor];
  }

  lemma LeaveRuns<E>(p: Program<E>, env: E, c: Core, d: Core, len: nat, floor: nat, m: seq<u32>, a: Answer)
    requires 0 <= c.pc && c.pc + 2 < TWO_31
    requires Goes(p, env, c, 1, d) && Keeps(p.varCount, c, d, floor, m)
    requires d.sp == c.sp + 1 && 0 <= d.pc && Top(p, d) == c.pc + 2
    requires Computes(p, env, d, len, floor, a) && a.Value?
    requires Stands(p.code, d.pc + len, [OP_RET])
    ensures Computes(p, env, c, 2, floor, Value(a.word, a.memory, 1 + a.cost + 1))
  {
    var e := Landed(p, env, d, len, floor, a);
    Reached(p, env, d, a.cost, e);
    StandsWord(p.code, e.pc, [OP_RET], 0);
    TopKept(p, c, d, e, floor, m, a.memory);
    DoReturn(p, env, e);
    WrapSmall(c.pc + 2);
    hide Exec, Steps, Goes, Computes, Keeps, Stands, Top;
    Between(p, env, c, d, len, floor, m, a, e, e.(pc := c.pc + 2, sp := c.sp), 2);
  }

  // ---- whole expressions ---------------------------------------------------------------

  lemma EmitsPair(e: Expr)
    requires e.Pair?
    ensures Emit(e) == Emit(e.left) + ([OP_PUSH] + (Emit(e.right) + Tail(e.join)))
  {
    var l, r := Emit(e.left), Emit(e.right);
    assert l + [OP_PUSH] + r + Tail(e.join) == l + ([OP_PUSH] + (r + Tail(e.join)));
  }

  lemma PairParts<E>(p: Program<E>, c: Core, e: Expr, floor: nat)
    requires Before(p, c, e, floor) && e.Pair?
    ensures Ready(p.varCount, c) && |p.code| < TWO_31 && p.varCount <= floor <= p.varCount + c.sp
    ensures Stands(p.code, c.pc, Emit(e))
    ensures Legal(e.left) && Linked(p.code, e.left) && Below(e.left, p.varCount, floor)
    ensures Legal(e.right) && Linked(p.code, e.right) && Below(e.right, p.varCount, floor)
    ensures c.sp + Room(e.left) <= LOCALS && c.sp + 1 + Room(e.right) <= LOCALS
  {
  }

  lemma FourStand(code: seq<u32>, at: int, l: seq<u32>, push: seq<u32>, r: seq<u32>, tail: seq<u32>)
    requires Stands(code, at, l + (push + (r + tail))) && |push| == 1
    ensures Stands(code, at, l) && Stands(code, at + |l|, push) && Stands(code, at + |l| + 1, r)
    ensures Stands(code, at + |l| + 1 + |r|, tail)
  {
    hide Stands;
    StandsParts(code, at, l, push + (r + tail));
    StandsParts(code, at + |l|, push, r + tail);
    StandsParts(code, at + |l| + 1, r, tail);
  }

  lemma PairStands<E>(p: Program<E>, c: Core, e: Expr, floor: nat)
    requires Before(p, c, e, floor) && e.Pair?
    ensures Before(p, c, e.left, floor) && 0 <= c.pc && c.sp < LOCALS
    ensures Legal(e.right) && Below(e.right, p.varCount, floor) && Linked(p.code, e.right)
    ensures c.sp + 1 + Room(e.right) <= LOCALS
    ensures |p.code| < TWO_31 && p.varCount <= floor <= p.varCount + c.sp
    ensures var at := c.pc + |Emit(e.left)|;
            && Stands(p.code, at, [OP_PUSH]) && Stands(p.code, at + 1, Emit(e.right))
            && Stands(p.code, at + 1 + |Emit(e.right)|, Tail(e.join))
  {
    EmitsPair(e);
    PairParts(p, c, e, floor);
    StandsWithin(p.code, c.pc, Emit(e));
    hide *;
    FourStand(p.code, c.pc, Emit(e.left), [OP_PUSH], Emit(e.right), Tail(e.join));
    StandsBefore(p, c, e.left, floor);
  }

  /** The second operand starts with the first on the stack. */
  lemma SecondStands<E>(p: Program<E>, env: E, c: Core, n: nat, e: Expr, floor: nat, v: u32, m: seq<u32>, d: Core)
    requires Before(p, c, e, floor) && e.Pair?
    requires Goes(p, env, c, n, d) && Holds(p, c, |Emit(e.left)| + 1, floor, v, v, m, d)
    ensures Before(p, d, e.right, floor) && d.vars[..floor] == m
  {
    hide *;
    PairStands(p, c, e, floor);
    HoldsReady(p, env, c, n, |Emit(e.left)| + 1, floor, v, v, m, d);
    KeepsBelow(p.varCount, c, d, floor, m);
    StandsBefore(p, d, e.right, floor);
  }

  lemma StandsBefore<E>(p: Program<E>, d: Core, e: Expr, floor: nat)
    requires Ready(p.varCount, d) && |p.code| < TWO_31
    requires Legal(e) && Stands(p.code, d.pc, Emit(e)) && Linked(p.code, e)
    requires Below(e, p.varCount, floor) && p.varCount <= floor <= p.varCount + d.sp
    requires d.sp + Room(e) <= LOCALS
    ensures Before(p, d, e, floor)
  {
  }

  /** The answer of the second operand, asked for only if the first has a value. */
  function Second(e: Expr, a: Answer, varCount: nat): Answer
    requires Legal(e)
  {
    if a.Fault? then a else Eval(e, a.memory, varCount)
  }

  /** Two operands evaluated: the first on the stack, the second in the accumulator, or a fault of either. */
  predicate Ran<E(==)>(p: Program<E>, env: E, c: Core, len: nat, floor: nat, a: Answer, b: Answer, d: Core) {
    if a.Fault? then Stops(p, env, c, a.cost, a.status, a.memory)
    else if b.Fault? then Stops(p, env, c, a.cost + 1 + b.cost, b.status, b.memory)
    else Goes(p, env, c, a.cost + 1 + b.cost, d) && Holds(p, c, len, floor, a.word, b.word, b.memory, d)
  }

  lemma RanFirst<E>(p: Program<E>, env: E, c: Core, len: nat, len2: nat, floor: nat, a: Answer, d: Core)
    requires Computes(p, env, c, len, floor, a) && a.Fault?
    ensures Ran(p, env, c, len2, floor, a, a, d)
  {
    hide Stops, Goes, Holds;
  }

  lemma RanSecond<E>(p: Program<E>, env: E, c: Core, len: nat, floor: nat, a: Answer, d: Core, len2: nat, b: Answer)
    returns (e: Core)
    requires a.Value? && Goes(p, env, c, a.cost + 1, d) && Holds(p, c, len, floor, a.word, a.word, a.memory, d)
    requires Computes(p, env, d, len2, floor, b)
    ensures Ran(p, env, c, len + len2, floor, a, b, e)
  {
    hide Stops, Goes, Holds, Exec, Steps, Keeps;
    if b.Value? {
      e := SecondRuns(p, env, c, a.cost + 1, len, floor, a.word, a.memory, d, len2, b);
    } else {
      GoesThenStops(p, env, c, a.cost + 1, d, b.cost, b.status, b.memory);
      e := d;
    }
  }

  lemma SecondIs(e: Expr, a: Answer, varCount: nat)
    requires Legal(e)
    ensures a.Fault? ==> Second(e, a, varCount) == a
    ensures a.Value? ==> Second(e, a, varCount) == Eval(e, a.memory, varCount)
  {
  }

  lemma FloorWithin<E>(p: Program<E>, c: Core, e: Expr, floor: nat)
    requires Before(p, c, e, floor)
    ensures floor <= |c.vars| && Legal(e) && 0 <= c.pc
  {
  }

  lemma BothRun<E>(p: Program<E>, env: E, c: Core, e: Expr, floor: nat, m: seq<u32>) returns (d: Core)
    requires Before(p, c, e, floor) && e.Pair? && m == c.vars[..floor]
    ensures var a := Eval(e.left, m, p.varCount);
            Ran(p, env, c, |Emit(e.left)| + 1 + |Emit(e.right)|, floor, a, Second(e.right, a, p.varCount), d)
    decreases e, 0
  {
    hide *;
    PairStands(p, c, e, floor);
    FloorWithin(p, c, e.left, floor);
    Compiled(p, env, c, e.left, floor, m);
    var a := Eval(e.left, m, p.varCount);
    var len, len2 := |Emit(e.left)|, |Emit(e.right)|;
    SecondIs(e.right, a, p.varCount);
    if a.Fault? {
      d := c;
      RanFirst(p, env, c, len, len + 1 + len2, floor, a, d);
    } else {
      var b := PushRuns(p, env, c, len, floor, a);
      SecondStands(p, env, c, a.cost + 1, e, floor, a.word, a.memory, b);
      Compiled(p, env, b, e.right, floor, a.memory);
      d := RanSecond(p, env, c, len + 1, floor, a, b, len2, Eval(e.right, a.memory, p.varCount));
    }
  }

  /** What two operands come to. */
  function Concluded(e: Expr, a: Answer, b: Answer): Answer
    requires e.Pair? && Legal(e)
  {
    if a.Fault? then a
    else if b.Fault? then Fault(b.status, b.memory, a.cost + 1 + b.cost)
    else Joined(e.join, a.word, b.word, b.memory, a.cost + 1 + b.cost)
  }

  lemma PairMeans(e: Expr, m: seq<u32>, varCount: nat)
    requires Legal(e) && e.Pair?
    ensures var a := Eval(e.left, m, varCount);
            Eval(e, m, varCount) == Concluded(e, a, Second(e.right, a, varCount))
  {
    hide Applied;
  }

  lemma TailRuns<E>(p: Program<E>, env: E, c: Core, n: nat, len: nat, floor: nat,
                    v: u32, w: u32, m: seq<u32>, d: Core, e: Expr)
    requires Goes(p, env, c, n, d) && Holds(p, c, len, floor, v, w, m, d)
    requires e.Pair? && Legal(e) && 0 <= c.pc && Stands(p.code, c.pc + len, Tail(e.join))
    ensures Computes(p, env, c, len + |Tail(e.join)|, floor, Joined(e.join, v, w, m, n))
  {
    hide Holds, Goes, Stands, Exec, Steps, Computes, Applied;
    match e.join
    case Operator(op) => OperatorRuns(p, env, c, n, len, floor, v, w, m, d, op);
    case Reversed(op) =>
      assert Tail(e.join) == [OP_SWAP] + [op];
      StandsParts(p.code, c.pc + len, [OP_SWAP], [op]);
      var x := SwapRuns(p, env, c, n, len, floor, v, w, m, d);
      OperatorRuns(p, env, c, n + 1, len + 1, floor, w, v, m, x, op);
    case Dropped => PopRuns(p, env, c, n, len, floor, v, w, m, d);
  }

  lemma ConcludedRuns<E>(p: Program<E>, env: E, c: Core, len: nat, floor: nat, a: Answer, b: Answer, d: Core, e: Expr)
    requires Ran(p, env, c, len, floor, a, b, d)
    requires e.Pair? && Legal(e) && 0 <= c.pc && Stands(p.code, c.pc + len, Tail(e.join))
    ensures Computes(p, env, c, len + |Tail(e.join)|, floor, Concluded(e, a, b))
  {
    hide Stops, Goes, Holds, Joined, Tail, Stands;
    if a.Value? && b.Value? {
      TailRuns(p, env, c, a.cost + 1 + b.cost, len, floor, a.word, b.word, b.memory, d, e);
      hide Computes;
    } else {
      hide Steps, Arrives;
    }
  }

  /** Operands and what joins them. */
  lemma PairRuns<E>(p: Program<E>, env: E, c: Core, e: Expr, floor: nat, m: seq<u32>)
    requires Before(p, c, e, floor) && e.Pair? && m == c.vars[..floor]
    ensures Computes(p, env, c, |Emit(e)|, floor, Eval(e, m, p.varCount))
    decreases e, 1
  {
    hide *;
    PairStands(p, c, e, floor);
    FloorWithin(p, c, e, floor);
    EmitsPair(e);
    PairMeans(e, m, p.varCount);
    var d := BothRun(p, env, c, e, floor, m);
    var a := Eval(e.left, m, p.varCount);
    ConcludedRuns(p, env, c, |Emit(e.left)| + 1 + |Emit(e.right)|, floor, a, Second(e.right, a, p.varCount), d, e);
  }

  // ---- one operand ---------------------------------------------------------------------

  lemma FaultAnyLength<E>(p: Program<E>, env: E, c: Core, len: nat, floor: nat, a: Answer, len2: nat)
    requires Computes(p, env, c, len, floor, a) && a.Fault?
    ensures Computes(p, env, c, len2, floor, a)
  {
    hide Stops;
  }

  lemma UnaryStands<E>(p: Program<E>, c: Core, e: Expr, floor: nat)
    requires Before(p, c, e, floor) && e.Unary?
    ensures Before(p, c, e.operand, floor) && 0 <= c.pc && OP_NOT <= e.op <= OP_NEG
    ensures Stands(p.code, c.pc + |Emit(e.operand)|, [e.op]) && |Emit(e)| == |Emit(e.operand)| + 1
  {
    StandsParts(p.code, c.pc, Emit(e.operand), [e.op]);
  }

  lemma UnaryMeans(e: Expr, m: seq<u32>, varCount: nat)
    requires Legal(e) && e.Unary?
    ensures var a := Eval(e.operand, m, varCount);
            Eval(e, m, varCount) == if a.Fault? then a else Value(Signed(e.op, a.word), a.memory, a.cost + 1)
  {
  }

  lemma UnaryCompiled<E>(p: Program<E>, env: E, c: Core, e: Expr, floor: nat, m: seq<u32>)
    requires Before(p, c, e, floor) && m == c.vars[..floor] && e.Unary?
    ensures Computes(p, env, c, |Emit(e)|, floor, Eval(e, m, p.varCount))
    decreases e, 1
  {
    hide *;
    FloorWithin(p, c, e, floor);
    UnaryStands(p, c, e, floor);
    UnaryMeans(e, m, p.varCount);
    Compiled(p, env, c, e.operand, floor, m);
    var a := Eval(e.operand, m, p.varCount);
    if a.Fault? {
      FaultAnyLength(p, env, c, |Emit(e.operand)|, floor, a, |Emit(e)|);
    } else {
      UnaryRuns(p, env, c, e.op, |Emit(e.operand)|, floor, a);
    }
  }

  // ---- a store -------------------------------------------------------------------------

  lemma ThreeStand(code: seq<u32>, at: int, start: seq<u32>, w: seq<u32>, end: seq<u32>)
    requires Stands(code, at, start + w + end)
    ensures Stands(code, at, start) && Stands(code, at + |start|, w) && Stands(code, at + |start| + |w|, end)
    ensures |start + w + end| == |start| + |w| + |end|
  {
    assert start + w + end == start + (w + end);
    hide Stands;
    StandsParts(code, at, start, w + end);
    StandsParts(code, at + |start|, w, end);
  }

  lemma AssignParts<E>(p: Program<E>, c: Core, e: Expr, floor: nat)
    requires Before(p, c, e, floor) && e.Assign?
    ensures Ready(p.varCount, c) && |p.code| < TWO_31 && p.varCount <= floor <= p.varCount + c.sp
    ensures NameBelow(e.name, p.varCount, floor) && c.sp + 1 + Room(e.value) <= LOCALS
    ensures Legal(e.value) && Linked(p.code, e.value) && Below(e.value, p.varCount, floor)
    ensures Stands(p.code, c.pc, [OP_LOAD, e.name, OP_PUSH] + Emit(e.value) + [OP_STORA])
    ensures Emit(e) == [OP_LOAD, e.name, OP_PUSH] + Emit(e.value) + [OP_STORA]
  {
  }

  lemma AssignStands<E>(p: Program<E>, c: Core, e: Expr, floor: nat)
    requires Before(p, c, e, floor) && e.Assign?
    ensures c.sp < LOCALS && |Emit(e)| == 3 + |Emit(e.value)| + 1
    ensures Stands(p.code, c.pc, [OP_LOAD, e.name, OP_PUSH])
    ensures Stands(p.code, c.pc + 3, Emit(e.value))
    ensures Stands(p.code, c.pc + 3 + |Emit(e.value)|, [OP_STORA])
  {
    hide *;
    AssignParts(p, c, e, floor);
    ThreeStand(p.code, c.pc, [OP_LOAD, e.name, OP_PUSH], Emit(e.value), [OP_STORA]);
  }

  lemma AssignMeans(e: Expr, m: seq<u32>, varCount: nat)
    requires Legal(e) && e.Assign?
    ensures var a := Eval(e.value, m, varCount);
            var r := if a.Fault? then Later(a, 2)
                     else Written(e.name, a.word, a.word, a.memory, varCount, 2 + a.cost + 1);
            Eval(e, m, varCount) == r
  {
  }

  lemma FaultLater<E>(p: Program<E>, env: E, c: Core, n: nat, d: Core, len: nat, floor: nat, a: Answer, len2: nat)
    requires Goes(p, env, c, n, d) && Computes(p, env, d, len, floor, a) && a.Fault?
    ensures Computes(p, env, c, len2, floor, Later(a, n))
  {
    hide Goes, Stops;
    GoesThenStops(p, env, c, n, d, a.cost, a.status, a.memory);
  }

  lemma AssignCompiled<E>(p: Program<E>, env: E, c: Core, e: Expr, floor: nat, m: seq<u32>)
    requires Before(p, c, e, floor) && m == c.vars[..floor] && e.Assign?
    ensures Computes(p, env, c, |Emit(e)|, floor, Eval(e, m, p.varCount))
    decreases e, 1
  {
    hide *;
    FloorWithin(p, c, e, floor);
    AssignStands(p, c, e, floor);
    AssignParts(p, c, e, floor);
    AssignMeans(e, m, p.varCount);
    var d := NameRuns(p, env, c, e.name, floor);
    HoldsReady(p, env, c, 2, 3, floor, e.name, e.name, m, d);
    KeepsBelow(p.varCount, c, d, floor, m);
    StandsBefore(p, d, e.value, floor);
    Compiled(p, env, d, e.value, floor, m);
    var a := Eval(e.value, m, p.varCount);
    var len := |Emit(e.value)|;
    if a.Fault? {
      FaultLater(p, env, c, 2, d, len, floor, a, |Emit(e)|);
    } else {
      var x := SecondRuns(p, env, c, 2, 3, floor, e.name, m, d, len, a);
      StoreAccRuns(p, env, c, 2 + a.cost, 3 + len, floor, e.name, a.word, a.memory, x);
    }
  }

  lemma EmitsPut(e: Expr)
    requires e.Put?
    ensures Emit(e) == Emit(e.stored) + ([OP_PUSH] + ([OP_LOAD, e.place] + [OP_STORS]))
  {
    var w := Emit(e.stored);
    assert w + [OP_PUSH, OP_LOAD, e.place, OP_STORS] == w + ([OP_PUSH] + ([OP_LOAD, e.place] + [OP_STORS]));
  }

  lemma PutStands<E>(p: Program<E>, c: Core, e: Expr, floor: nat)
    requires Before(p, c, e, floor) && e.Put?
    ensures Before(p, c, e.stored, floor) && c.sp < LOCALS && 0 <= c.pc
    ensures NameBelow(e.place, p.varCount, floor) && |Emit(e)| == |Emit(e.stored)| + 4
    ensures var at := c.pc + |Emit(e.stored)|;
            && Stands(p.code, at, [OP_PUSH]) && Stands(p.code, at + 1, [OP_LOAD, e.place])
            && Stands(p.code, at + 3, [OP_STORS])
  {
    EmitsPut(e);
    assert Legal(e.stored) && Linked(p.code, e.stored) && Below(e.stored, p.varCount, floor);
    hide Emit, Legal, Linked, Below;
    var w := Emit(e.stored);
    StandsParts(p.code, c.pc, w, [OP_PUSH] + ([OP_LOAD, e.place] + [OP_STORS]));
    StandsParts(p.code, c.pc + |w|, [OP_PUSH], [OP_LOAD, e.place] + [OP_STORS]);
    StandsParts(p.code, c.pc + |w| + 1, [OP_LOAD, e.place], [OP_STORS]);
  }

  lemma PutMeans(e: Expr, m: seq<u32>, varCount: nat)
    requires Legal(e) && e.Put?
    ensures var a := Eval(e.stored, m, varCount);
            var r := if a.Fault? then a else Written(e.place, a.word, e.place, a.memory, varCount, a.cost + 3);
            Eval(e, m, varCount) == r
  {
  }

  lemma PutCompiled<E>(p: Program<E>, env: E, c: Core, e: Expr, floor: nat, m: seq<u32>)
    requires Before(p, c, e, floor) && m == c.vars[..floor] && e.Put?
    ensures Computes(p, env, c, |Emit(e)|, floor, Eval(e, m, p.varCount))
    decreases e, 1
  {
    hide *;
    FloorWithin(p, c, e, floor);
    PutStands(p, c, e, floor);
    PutMeans(e, m, p.varCount);
    Compiled(p, env, c, e.stored, floor, m);
    var a := Eval(e.stored, m, p.varCount);
    var len := |Emit(e.stored)|;
    if a.Fault? {
      FaultAnyLength(p, env, c, len, floor, a, |Emit(e)|);
    } else {
      var d := PushRuns(p, env, c, len, floor, a);
      var x := ReloadRuns(p, env, c, a.cost + 1, len + 1, floor, a.word, a.memory, d, e.place);
      StoreStackRuns(p, env, c, a.cost + 2, len + 3, floor, a.word, e.place, a.memory, x);
    }
  }

  // ---- frames and calls ----------------------------------------------------------------

  lemma FrameParts<E>(p: Program<E>, c: Core, e: Expr, floor: nat)
    requires Before(p, c, e, floor) && e.Framed?
    ensures Ready(p.varCount, c) && |p.code| < TWO_31 && p.varCount <= floor <= p.varCount + c.sp
    ensures Legal(e.body) && Linked(p.code, e.body) && Below(e.body, p.varCount, floor)
    ensures c.sp + e.words + Room(e.body) <= LOCALS
    ensures Stands(p.code, c.pc, [OP_STACK, Wrap(e.words)] + Emit(e.body) + [OP_STACK, Wrap(-1 * e.words)])
    ensures Emit(e) == [OP_STACK, Wrap(e.words)] + Emit(e.body) + [OP_STACK, Wrap(-1 * e.words)]
  {
    hide Wrap;
  }

  lemma FrameStands<E>(p: Program<E>, c: Core, e: Expr, floor: nat)
    requires Before(p, c, e, floor) && e.Framed?
    ensures |Emit(e)| == |Emit(e.body)| + 4
    ensures Stands(p.code, c.pc, [OP_STACK, Wrap(e.words)]) && Stands(p.code, c.pc + 2, Emit(e.body))
    ensures Stands(p.code, c.pc + 2 + |Emit(e.body)|, [OP_STACK, Wrap(-1 * e.words)])
  {
    hide *;
    FrameParts(p, c, e, floor);
    ThreeStand(p.code, c.pc, [OP_STACK, Wrap(e.words)], Emit(e.body), [OP_STACK, Wrap(-1 * e.words)]);
  }

  lemma FrameMeans(e: Expr, m: seq<u32>, varCount: nat)
    requires Legal(e) && (e.Framed? || e.Invoke?)
    ensures var a := Eval(e.body, m, varCount);
            Eval(e, m, varCount) == if a.Fault? then Later(a, 1) else Value(a.word, a.memory, 1 + a.cost + 1)
  {
  }

  lemma FrameCompiled<E>(p: Program<E>, env: E, c: Core, e: Expr, floor: nat, m: seq<u32>)
    requires Before(p, c, e, floor) && m == c.vars[..floor] && e.Framed?
    ensures Computes(p, env, c, |Emit(e)|, floor, Eval(e, m, p.varCount))
    decreases e, 1
  {
    hide *;
    FloorWithin(p, c, e, floor);
    FrameParts(p, c, e, floor);
    FrameStands(p, c, e, floor);
    FrameMeans(e, m, p.varCount);
    var d := ReserveRuns(p, env, c, e.words, floor);
    Reached(p, env, c, 1, d);
    KeepsBelow(p.varCount, c, d, floor, m);
    StandsBefore(p, d, e.body, floor);
    Compiled(p, env, d, e.body, floor, m);
    var a := Eval(e.body, m, p.varCount);
    var len := |Emit(e.body)|;
    if a.Fault? {
      FaultLater(p, env, c, 1, d, len, floor, a, |Emit(e)|);
    } else {
      ReleaseRuns(p, env, c, e.words, d, len, floor, m, a);
    }
  }

  lemma CallStands<E>(p: Program<E>, c: Core, e: Expr, floor: nat)
    requires Before(p, c, e, floor) && e.Invoke?
    ensures Ready(p.varCount, c) && e.target < |p.code| < TWO_31 && p.varCount <= floor <= p.varCount + c.sp
    ensures Legal(e.body) && Linked(p.code, e.body) && Below(e.body, p.varCount, floor)
    ensures c.sp + 1 + Room(e.body) <= LOCALS && |Emit(e)| == 2 && c.pc + 2 < TWO_31
    ensures Stands(p.code, c.pc, [OP_CALL, TAG_CODE + e.target])
    ensures Stands(p.code, e.target, Emit(e.body)) && Stands(p.code, e.target + |Emit(e.body)|, [OP_RET])
  {
    StandsParts(p.code, e.target, Emit(e.body), [OP_RET]);
  }

  lemma CallCompiled<E>(p: Program<E>, env: E, c: Core, e: Expr, floor: nat, m: seq<u32>)
    requires Before(p, c, e, floor) && m == c.vars[..floor] && e.Invoke?
    ensures Computes(p, env, c, |Emit(e)|, floor, Eval(e, m, p.varCount))
    decreases e, 1
  {
    hide *;
    FloorWithin(p, c, e, floor);
    CallStands(p, c, e, floor);
    FrameMeans(e, m, p.varCount);
    var d := EnterRuns(p, env, c, e.target, floor);
    Reached(p, env, c, 1, d);
    KeepsBelow(p.varCount, c, d, floor, m);
    StandsBefore(p, d, e.body, floor);
    Compiled(p, env, d, e.body, floor, m);
    var a := Eval(e.body, m, p.varCount);
    var len := |Emit(e.body)|;
    if a.Fault? {
      FaultLater(p, env, c, 1, d, len, floor, a, |Emit(e)|);
    } else {
      LeaveRuns(p, env, c, d, len, floor, m, a);
    }
  }

  // ---- a choice ------------------------------------------------------------------------

  function Laid(t: seq<u32>, over: seq<u32>, n: seq<u32>, past: seq<u32>, f: seq<u32>): seq<u32> {
    t + (over + (n + (past + f)))
  }

  lemma Regrouped(t: seq<u32>, over: seq<u32>, n: seq<u32>, past: seq<u32>, f: seq<u32>)
    ensures t + over + n + past + f == Laid(t, over, n, past, f)
  {
  }

  lemma EmitsChoice(e: Expr, over: seq<u32>, past: seq<u32>)
    requires e.Choice?
    requires over == [e.branch, Wrap(|Emit(e.near)| + 2)] && past == [OP_B, Wrap(|Emit(e.far)|)]
    ensures Emit(e) == Laid(Emit(e.test), over, Emit(e.near), past, Emit(e.far))
  {
    Regrouped(Emit(e.test), over, Emit(e.near), past, Emit(e.far));
    hide Laid, Wrap;
  }

  lemma FiveStand(code: seq<u32>, at: int, t: seq<u32>, over: seq<u32>, n: seq<u32>, past: seq<u32>, f: seq<u32>)
    requires Stands(code, at, Laid(t, over, n, past, f)) && |over| == 2 && |past| == 2
    ensures Stands(code, at, t) && Stands(code, at + |t|, over) && Stands(code, at + |t| + 2, n)
    ensures Stands(code, at + |t| + 2 + |n|, past) && Stands(code, at + |t| + 2 + |n| + 2, f)
    ensures |Laid(t, over, n, past, f)| == |t| + 2 + |n| + 2 + |f|
  {
    hide Stands;
    StandsParts(code, at, t, over + (n + (past + f)));
    StandsParts(code, at + |t|, over, n + (past + f));
    StandsParts(code, at + |t| + 2, n, past + f);
    StandsParts(code, at + |t| + 2 + |n|, past, f);
  }

  lemma ChoiceStands<E>(p: Program<E>, c: Core, e: Expr, floor: nat, over: seq<u32>, past: seq<u32>)
    requires Before(p, c, e, floor) && e.Choice?
    requires over == [e.branch, Wrap(|Emit(e.near)| + 2)] && past == [OP_B, Wrap(|Emit(e.far)|)]
    ensures Before(p, c, e.test, floor) && 0 <= c.pc && (e.branch == OP_BF || e.branch == OP_BT)
    ensures var at, n, f := c.pc + |Emit(e.test)|, |Emit(e.near)|, |Emit(e.far)|;
            && |Emit(e)| == |Emit(e.test)| + 2 + n + 2 + f && c.pc + |Emit(e)| < TWO_31
            && Stands(p.code, at, over) && Stands(p.code, at + 2, Emit(e.near))
            && Stands(p.code, at + 2 + n, past) && Stands(p.code, at + 2 + n + 2, Emit(e.far))
  {
    hide *;
    EmitsChoice(e, over, past);
    ChoiceParts(p, c, e, floor);
    StandsWithin(p.code, c.pc, Emit(e));
    FiveStand(p.code, c.pc, Emit(e.test), over, Emit(e.near), past, Emit(e.far));
    StandsBefore(p, c, e.test, floor);
  }

  lemma StandsWithin(code: seq<u32>, at: int, w: seq<u32>)
    requires Stands(code, at, w)
    ensures 0 <= at && at + |w| <= |code|
  {
  }

  lemma ChoiceParts<E>(p: Program<E>, c: Core, e: Expr, floor: nat)
    requires Before(p, c, e, floor) && e.Choice?
    ensures Ready(p.varCount, c) && |p.code| < TWO_31 && p.varCount <= floor <= p.varCount + c.sp
    ensures Stands(p.code, c.pc, Emit(e)) && (e.branch == OP_BF || e.branch == OP_BT)
    ensures Legal(e.test) && Linked(p.code, e.test) && Below(e.test, p.varCount, floor)
    ensures c.sp + Room(e.test) <= LOCALS
    ensures Legal(e.near) && Linked(p.code, e.near) && Below(e.near, p.varCount, floor)
    ensures Legal(e.far) && Linked(p.code, e.far) && Below(e.far, p.varCount, floor)
    ensures c.sp + Room(e.near) <= LOCALS && c.sp + Room(e.far) <= LOCALS
  {
  }

  /** The code that does not follow the branch: its answer, and the jump past the other. */
  function Skipped(a: Answer): Answer {
    if a.Fault? then a else Later(a, 1)
  }

  lemma ChoiceMeans(e: Expr, m: seq<u32>, varCount: nat)
    requires Legal(e) && e.Choice?
    ensures var a := Eval(e.test, m, varCount);
            && (a.Fault? ==> Eval(e, m, varCount) == a)
            && (a.Value? && Taken(e.branch, a.word) ==>
                  Eval(e, m, varCount) == Later(Eval(e.far, a.memory, varCount), a.cost + 1))
            && (a.Value? && !Taken(e.branch, a.word) ==>
                  Eval(e, m, varCount) == Later(Skipped(Eval(e.near, a.memory, varCount)), a.cost + 1))
  {
  }

  /** The nearer code, with the jump past the farther. */
  lemma NearRuns<E>(p: Program<E>, env: E, c: Core, e: Expr, far: nat, floor: nat, a: Answer)
    requires Computes(p, env, c, |Emit(e)|, floor, a) && 0 <= c.pc
    requires Stands(p.code, c.pc + |Emit(e)|, [OP_B, Wrap(far)]) && c.pc + |Emit(e)| + 2 + far < TWO_31
    ensures Computes(p, env, c, |Emit(e)| + 2 + far, floor, Skipped(a))
  {
    hide Emit, Stands, Computes, Goes, Exec, Steps, Wrap;
    var len := |Emit(e)|;
    if a.Fault? {
      FaultAnyLength(p, env, c, len, floor, a, len + 2 + far);
    } else {
      var d := Landed(p, env, c, len, floor, a);
      var x := JumpRuns(p, env, c, a.cost, len, floor, a.word, a.memory, d, OP_B, far);
      hide Arrives;
      Lands(p, env, c, x, len + 2 + far, floor, a.word, a.memory, a.cost + 1);
    }
  }

  /** A machine arrived before a part of an expression. */
  lemma ArrivesBefore<E>(p: Program<E>, env: E, c: Core, n: nat, len: nat, floor: nat, v: u32, m: seq<u32>, d: Core,
                         e: Expr)
    requires Goes(p, env, c, n, d) && Arrives(p, c, len, floor, v, m, d)
    requires Legal(e) && Stands(p.code, c.pc + len, Emit(e)) && Linked(p.code, e)
    requires Below(e, p.varCount, floor) && p.varCount <= floor && c.sp + Room(e) <= LOCALS
    requires |p.code| < TWO_31
    ensures Before(p, d, e, floor) && floor <= |d.vars| && d.vars[..floor] == m && d.pc == c.pc + len
  {
    Reached(p, env, c, n, d);
    hide Goes, Exec, Steps, Emit, Legal, Linked, Below, Room, Stands;
  }

  lemma ChoiceCompiled<E>(p: Program<E>, env: E, c: Core, e: Expr, floor: nat, m: seq<u32>)
    requires Before(p, c, e, floor) && m == c.vars[..floor] && e.Choice?
    ensures Computes(p, env, c, |Emit(e)|, floor, Eval(e, m, p.varCount))
    decreases e, 1
  {
    hide *;
    FloorWithin(p, c, e, floor);
    ChoiceStands(p, c, e, floor, [e.branch, Wrap(|Emit(e.near)| + 2)], [OP_B, Wrap(|Emit(e.far)|)]);
    ChoiceMeans(e, m, p.varCount);
    Compiled(p, env, c, e.test, floor, m);
    var a := Eval(e.test, m, p.varCount);
    if a.Fault? {
      FaultAnyLength(p, env, c, |Emit(e.test)|, floor, a, |Emit(e)|);
    } else {
      ChosenRuns(p, env, c, e, floor, a);
    }
  }

  lemma BranchKinds(op: u32)
    requires op == OP_BF || op == OP_BT
    ensures OP_B <= op <= OP_BF
  {
  }

  lemma ChosenRuns<E>(p: Program<E>, env: E, c: Core, e: Expr, floor: nat, a: Answer)
    requires Before(p, c, e, floor) && e.Choice? && a.Value?
    requires Computes(p, env, c, |Emit(e.test)|, floor, a)
    ensures Legal(e.near) && Legal(e.far)
    ensures var chosen := if Taken(e.branch, a.word) then Eval(e.far, a.memory, p.varCount)
                          else Skipped(Eval(e.near, a.memory, p.varCount));
            Computes(p, env, c, |Emit(e)|, floor, Later(chosen, a.cost + 1))
    decreases e, 0
  {
    hide *;
    FloorWithin(p, c, e, floor);
    ChoiceStands(p, c, e, floor, [e.branch, Wrap(|Emit(e.near)| + 2)], [OP_B, Wrap(|Emit(e.far)|)]);
    ChoiceParts(p, c, e, floor);
    BranchKinds(e.branch);
    var len, n, f := |Emit(e.test)|, |Emit(e.near)|, |Emit(e.far)|;
    var b := Landed(p, env, c, len, floor, a);
    var d := JumpRuns(p, env, c, a.cost, len, floor, a.word, a.memory, b, e.branch, n + 2);
    if Taken(e.branch, a.word) {
      ArrivesBefore(p, env, c, a.cost + 1, len + 2 + n + 2, floor, a.word, a.memory, d, e.far);
      Compiled(p, env, d, e.far, floor, a.memory);
      ChainRuns(p, env, c, a.cost + 1, len + 2 + n + 2, floor, a.word, a.memory, d, f,
                Eval(e.far, a.memory, p.varCount));
    } else {
      ArrivesBefore(p, env, c, a.cost + 1, len + 2, floor, a.word, a.memory, d, e.near);
      Compiled(p, env, d, e.near, floor, a.memory);
      var r := Eval(e.near, a.memory, p.varCount);
      NearRuns(p, env, d, e.near, f, floor, r);
      ChainRuns(p, env, c, a.cost + 1, len + 2, floor, a.word, a.memory, d, n + 2 + f, Skipped(r));
    }
  }

  /** The code emitted for any expression does what the expression means. */
  lemma Compiled<E>(p: Program<E>, env: E, c: Core, e: Expr, floor: nat, m: seq<u32>)
    requires Before(p, c, e, floor) && m == c.vars[..floor]
    ensures Computes(p, env, c, |Emit(e)|, floor, Eval(e, m, p.varCount))
    decreases e, 2
  {
    match e
    case Word(w) => WordRuns(p, env, c, w, floor);
    case Touch(kind, name) => TouchRuns(p, env, c, kind, name, floor);
    case Pair(_, _, _) => PairRuns(p, env, c, e, floor, m);
    case Unary(_, _) => UnaryCompiled(p, env, c, e, floor, m);
    case Assign(_, _) => AssignCompiled(p, env, c, e, floor, m);
    case Put(_, _) => PutCompiled(p, env, c, e, floor, m);
    case Choice(_, _, _, _) => ChoiceCompiled(p, env, c, e, floor, m);
    case Framed(_, _) => FrameCompiled(p, env, c, e, floor, m);
    case Invoke(_, _) => CallCompiled(p, env, c, e, floor, m);
  }

  // ---- whole runs ----------------------------------------------------------------------

  /** The budgeted loop takes the same steps, a token each. */
  lemma {:induction false} LoopSteps<E>(p: Program<E>, env: E, c: Core, n: nat, budget: int)
    requires Ready(p.varCount, c) && budget > n
    ensures var x := Steps(p, env, c, n);
            var r := Loop(p, env, c, budget);
            if x.status == Running then
              r == Loop(p, x.env, x.core, budget - n).(executed := n + Loop(p, x.env, x.core, budget - n).executed)
            else r.env == x.env && r.core == x.core && r.status == x.status
    decreases n
  {
    hide Exec;
    if n > 0 && c.pc < |p.code| {
      var x := Exec(p, env, c);
      if x.status == Running {
        LoopSteps(p, x.env, x.core, n - 1, budget - 1);
      }
    }
  }

  lemma LoopReturns<E>(p: Program<E>, env: E, d: Core, budget: int)
    requires At(p, d, OP_RET) && d.sp == 0 && budget > 1
    ensures Loop(p, env, d, budget) == RunResult(env, d.(pc := d.pc + 1), budget - 1, Terminated, 1)
  {
    assert Exec(p, env, d) == Outcome(env, d.(pc := d.pc + 1), Terminated);
    hide Exec;
  }

  lemma ValueReturned<E>(p: Program<E>, env: E, c: Core, w: seq<u32>, a: Answer, budget: int)
    requires Computes(p, env, c, |w|, p.varCount, a) && a.Value? && budget > a.cost + 1
    requires c.sp == 0 && Stands(p.code, c.pc, w + [OP_RET])
    ensures Ready(p.varCount, c)
    ensures var r := Loop(p, env, c, budget);
            && r.status == Terminated && r.core.acc == a.word && r.core.vars[..p.varCount] == a.memory
            && r.env == env && r.executed == a.cost + 1 && r.budget == budget - (a.cost + 1)
  {
    StandsParts(p.code, c.pc, w, [OP_RET]);
    var d := Landed(p, env, c, |w|, p.varCount, a);
    Reached(p, env, c, a.cost, d);
    StandsWord(p.code, d.pc, [OP_RET], 0);
    hide Loop, Exec, Steps, Computes;
    LoopSteps(p, env, c, a.cost, budget);
    LoopReturns(p, env, d, budget - a.cost);
  }

  lemma FaultReturned<E>(p: Program<E>, env: E, c: Core, len: nat, a: Answer, budget: int)
    requires Computes(p, env, c, len, p.varCount, a) && a.Fault? && budget > a.cost && |a.memory| == p.varCount
    ensures Ready(p.varCount, c)
    ensures var r := Loop(p, env, c, budget);
            r.status == a.status && r.core.vars[..p.varCount] == a.memory && r.env == env
  {
    hide Loop, Exec, Steps;
    LoopSteps(p, env, c, a.cost, budget);
  }

  /**
    A script whose entry is the code of an expression and a return, started with an empty
    stack and tokens enough: the run ends with the thread terminated, the expression's
    value in the accumulator, its variables in the storage, and a token gone for every
    instruction; or with the expression's fault.
  */
  lemma ScriptsAnswer<E>(p: Program<E>, env: E, c: Core, e: Expr, budget: int)
    requires Before(p, c, e, p.varCount) && c.sp == 0 && Stands(p.code, c.pc, Emit(e) + [OP_RET])
    ensures var a := Eval(e, c.vars[..p.varCount], p.varCount);
            var r := Run(p, env, c, budget);
            && (a.Value? && budget > a.cost + 1 ==>
                  && r.status == Terminated && r.core.acc == a.word && r.core.vars[..p.varCount] == a.memory
                  && r.env == env && r.executed == a.cost + 1 && r.budget == budget - (a.cost + 1))
            && (a.Fault? && budget > a.cost ==>
                  r.status == a.status && r.core.vars[..p.varCount] == a.memory && r.env == env)
  {
    hide *;
    RunIsLoop(p, env, c, e, budget);
    var a := Eval(e, c.vars[..p.varCount], p.varCount);
    Compiled(p, env, c, e, p.varCount, c.vars[..p.varCount]);
    if a.Value? && budget > a.cost + 1 {
      ValueReturned(p, env, c, Emit(e), a, budget);
    } else if a.Fault? && budget > a.cost {
      FaultReturned(p, env, c, |Emit(e)|, a, budget);
    }
  }

  lemma RunIsLoop<E>(p: Program<E>, env: E, c: Core, e: Expr, budget: int)
    requires Before(p, c, e, p.varCount)
    ensures Run(p, env, c, budget) == Loop(p, env, c, budget) && p.varCount <= |c.vars| && Legal(e)
    ensures Ready(p.varCount, c)
  {
  }

  /** A function that answers 5, called and its answer negated, by an entry that returns. */
  lemma NegatedCall<E>(p: Program<E>, env: E, c: Core)
    requires p.code == [OP_CALL, TAG_CODE + 4, OP_NEG, OP_RET, OP_LOAD, 5, OP_RET]
    requires Storage(p.varCount, c) && c.pc == 0 && c.sp == 0
    ensures var r := Run(p, env, c, BUDGET);
            r.status == Terminated && r.core.acc == 0xFFFF_FFFB && r.executed == 5
  {
    var e := Unary(OP_NEG, Invoke(4, Word(5)));
    NegatedStands(p, c, e);
    NegatedMeans(e, c.vars[..p.varCount], p.varCount);
    assert BUDGET > 5;
    hide *;
    ScriptsAnswer(p, env, c, e, BUDGET);
  }

  lemma NegatedMeans(e: Expr, m: seq<u32>, varCount: nat)
    requires e == Unary(OP_NEG, Invoke(4, Word(5)))
    ensures Legal(e) && Eval(e, m, varCount) == Value(0xFFFF_FFFB, m, 4)
  {
    assert Eval(Invoke(4, Word(5)), m, varCount) == Value(5, m, 3);
  }

  lemma NegatedStands<E>(p: Program<E>, c: Core, e: Expr)
    requires p.code == [OP_CALL, TAG_CODE + 4, OP_NEG, OP_RET, OP_LOAD, 5, OP_RET]
    requires Storage(p.varCount, c) && c.pc == 0 && c.sp == 0 && e == Unary(OP_NEG, Invoke(4, Word(5)))
    ensures p.varCount <= |c.vars| && Before(p, c, e, p.varCount) && Stands(p.code, c.pc, Emit(e) + [OP_RET])
  {
    var call := Invoke(4, Word(5));
    assert Emit(Word(5)) == [OP_LOAD, 5];
    assert Emit(call) == [OP_CALL, TAG_CODE + 4];
    assert Linked(p.code, call);
    assert Room(call) == 1;
  }
}

/** Time slicing: stopping a run on its budget and resuming it changes nothing. */
module ScriptTheorems {
  import opened Words
  import opened Script

  /** No native reports the status that means the interpreter's own budget ran out. */
  ghost predicate HonestNative<E(!new)>(p: Program<E>) {
    p.native.Some? ==>
      forall env: E, c: Core, id: u32 :: p.native.value(env, c, id).status != BudgetOut
  }

  /** What a resumed run returns once the instructions of the first slice are counted in. */
  function After<E>(executed: nat, r: RunResult<E>): RunResult<E> {
    r.(executed := executed + r.executed)
  }

  /** Only a native could report the budget status, and an honest one does not. */
  lemma ExecHonest<E(!new)>(p: Program<E>, env: E, c: Core)
    requires Ready(p.varCount, c) && c.pc < |p.code| && HonestNative(p)
    ensures Exec(p, env, c).status != BudgetOut
  {
  }

  /** A run that stopped by itself is the same run under any larger budget, with the surplus left over. */
  lemma {:induction false} LargerBudget<E(!new)>(p: Program<E>, env: E, c: Core, budget: int, extra: nat)
    requires Ready(p.varCount, c) && HonestNative(p)
    ensures var r := Loop(p, env, c, budget);
            r.status != BudgetOut ==>
              Loop(p, env, c, budget + extra) == r.(budget := r.budget + extra)
    decreases Max(budget, 0)
  {
    if budget > 1 && c.pc < |p.code| {
      var x := Exec(p, env, c);
      if x.status == Running {
        LargerBudget(p, x.env, x.core, budget - 1, extra);
      }
    }
  }

  /** Two slices of `b1` and `b2` tokens are one run of `b1 + b2 - 1` tokens. */
  lemma {:induction false} TwoSlices<E(!new)>(p: Program<E>, env: E, c: Core, b1: int, b2: int)
    requires Ready(p.varCount, c) && HonestNative(p) && b1 >= 1 && b2 >= 1
    ensures var r := Loop(p, env, c, b1);
            var whole := Loop(p, env, c, b1 + b2 - 1);
            if r.status == BudgetOut
            then r.budget == 0 && r.executed == b1 - 1
                 && whole == After(r.executed, Loop(p, r.env, r.core, b2))
            else whole == r.(budget := r.budget + b2 - 1)
    decreases b1
  {
    hide Exec;
    if b1 > 1 && c.pc < |p.code| {
      var x := Exec(p, env, c);
      ExecHonest(p, env, c);
      if x.status == Running {
        TwoSlices(p, x.env, x.core, b1 - 1, b2);
      }
    }
  }

  /** A run handed out in slices: it is resumed while it stops on its budget and slices remain. */
  function Sliced<E>(p: Program<E>, env: E, c: Core, slices: seq<int>): RunResult<E>
    requires Ready(p.varCount, c) && slices != []
    decreases |slices|
  {
    var r := Loop(p, env, c, slices[0]);
    if r.status == BudgetOut && |slices| > 1
    then After(r.executed, Sliced(p, r.env, r.core, slices[1..]))
    else r
  }

  /** The one budget equivalent to a list of slices: every resumption costs one token. */
  function Joined(slices: seq<int>): int
    requires slices != []
  {
    if |slices| == 1 then slices[0] else slices[0] + Joined(slices[1..]) - 1
  }

  lemma JoinedPositive(slices: seq<int>)
    requires slices != [] && forall i :: 0 <= i < |slices| ==> slices[i] >= 1
    ensures Joined(slices) >= 1
  {
  }

  /**
    However a budget is cut up, the status, program counter, accumulator, stack
    pointer, variables, environment and instruction count are those of one run.
    The tokens left differ only by the slices that were never handed out.
  */
  lemma {:induction false} SlicingIsInvisible<E(!new)>(p: Program<E>, env: E, c: Core, slices: seq<int>)
    requires Ready(p.varCount, c) && HonestNative(p)
    requires slices != [] && forall i :: 0 <= i < |slices| ==> slices[i] >= 1
    ensures var s := Sliced(p, env, c, slices);
            var whole := Loop(p, env, c, Joined(slices));
            && s.(budget := 0) == whole.(budget := 0)
            && (s.status == BudgetOut ==> s.budget == whole.budget == 0)
            && s.budget <= whole.budget
    decreases |slices|
  {
    hide Exec;
    var r := Loop(p, env, c, slices[0]);
    if |slices| > 1 {
      JoinedPositive(slices[1..]);
      TwoSlices(p, env, c, slices[0], Joined(slices[1..]));
      if r.status == BudgetOut {
        SlicingIsInvisible(p, r.env, r.core, slices[1..]);
      }
    } else if r.status == BudgetOut {
      TwoSlices(p, env, c, slices[0], 1);
    }
  }

  /** What every native keeps, every run keeps. */
  lemma {:induction false} LoopKeeps<E(!new)>(p: Program<E>, inv: E -> bool, env: E, c: Core, budget: int)
    requires Ready(p.varCount, c) && inv(env)
    requires p.native.Some? ==>
               forall e: E, d: Core, id: u32 ::
                 inv(e) && Ready(p.varCount, d) ==> inv(p.native.value(e, d, id).env)
    ensures inv(Loop(p, env, c, budget).env)
    decreases Max(budget, 0)
  {
    if budget > 1 && c.pc < |p.code| {
      ExecKeeps(p, inv, env, c);
      hide Exec;
      var x := Exec(p, env, c);
      if x.status == Running {
        LoopKeeps(p, inv, x.env, x.core, budget - 1);
      }
    }
  }

  lemma ExecKeeps<E(!new)>(p: Program<E>, inv: E -> bool, env: E, c: Core)
    requires Ready(p.varCount, c) && c.pc < |p.code| && inv(env)
    requires p.native.Some? ==>
               forall e: E, d: Core, id: u32 ::
                 inv(e) && Ready(p.varCount, d) ==> inv(p.native.value(e, d, id).env)
    ensures inv(Exec(p, env, c).env)
  {
    hide StepLocal, StepCall;
  }

  // ---- arithmetic ----------------------------------------------------------------------

  /** Division of magnitudes. */
  lemma MagnitudeDivides(x: nat, y: nat, q: nat)
    requires y > 0 && q == x / y
    ensures 0 <= x - y * q < y && q <= x
  {
    var r := x % y;
    assert x == y * q + r && 0 <= r < y;
    Product(y - 1, q);
    assert y * q == (y - 1) * q + q;
  }

  lemma Product(a: nat, b: nat)
    ensures a * b >= 0
  {
  }

  lemma Signs(b: int, q: int)
    ensures b * -q == -(b * q) && -b * q == -(b * q) && -b * -q == b * q
  {
  }

  lemma TruncDivides(a: int, b: int)
    requires b != 0
    ensures Abs(a - b * TruncDiv(a, b)) < Abs(b) && Abs(TruncDiv(a, b)) <= Abs(a)
    ensures (a >= 0 ==> a - b * TruncDiv(a, b) >= 0) && (a <= 0 ==> a - b * TruncDiv(a, b) <= 0)
  {
    var x, y := Abs(a), Abs(b);
    assert y > 0;
    var q: int := x / y;
    MagnitudeDivides(x, y, q);
    Signs(b, q);
    assert if (a >= 0) == (b > 0) then TruncDiv(a, b) == q else TruncDiv(a, b) == -q;
    hide TruncDiv;
  }

  /**
    Division and remainder fit together as C defines them, in 32 bits: the quotient
    times the divisor plus the remainder is the dividend, and the remainder is smaller
    than the divisor and has the dividend's sign.
  */
  lemma QuotientAndRemainder(lhs: u32, rhs: u32)
    requires Divides(lhs, rhs)
    ensures var a, b := ToS32(lhs), ToS32(rhs);
            var q, r := ToS32(Binary(OP_DIV, lhs, rhs)), ToS32(Binary(OP_MOD, lhs, rhs));
            && a == q * b + r && Abs(r) < Abs(b)
            && (a >= 0 ==> r >= 0) && (a <= 0 ==> r <= 0)
  {
    var a, b := ToS32(lhs), ToS32(rhs);
    TruncDivides(a, b);
    hide TruncDiv;
    var q := SignedQuotient(lhs, rhs);
    WrapOfSigned(q);
    WrapOfSigned(a - b * q);
  }

  lemma WrapOfSigned(v: int)
    requires -TWO_31 <= v < TWO_31
    ensures ToS32(Wrap(v)) == v
  {
  }
}

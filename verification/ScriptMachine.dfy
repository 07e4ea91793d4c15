/**
  The interpreter as the driver runs it: one loop over mutable machine state,
  with the shared variable array updated in place.

  Every array index, every quotient and every program counter used below is
  proved in range for arbitrary bytecode; the only demands on the caller are the
  size of the array and a stack pointer inside the local region.
*/
module ScriptMachine {
  import opened Words
  import opened Script

  class Machine<E> {
    const program: Program<E>
    const vars: array<u32>
    var pc: int
    var acc: u32
    var sp: int
    var budget: int
    var env: E

    ghost predicate Valid()
      reads this
    {
      vars.Length == program.varCount + LOCALS
    }

    ghost function View(): Core
      reads this, vars
    {
      Core(pc, acc, sp, vars[..])
    }

    /** Attach the machine to code and storage; the thread state starts at zero. */
    constructor (program: Program<E>, vars: array<u32>, env: E)
      requires vars.Length == program.varCount + LOCALS
      ensures Valid() && this.program == program && this.vars == vars && this.env == env
      ensures View() == Core(0, 0, 0, vars[..]) && budget == BUDGET
    {
      this.program, this.vars, this.env := program, vars, env;
      pc, acc, sp, budget := 0, 0, 0, BUDGET;
    }

    method StepVariableInPlace(op: u32) returns (status: Status)
      requires Valid() && IsVariable(op)
      modifies this`acc, vars
      ensures Local(View(), status) == StepVariable(program.varCount, old(View()), op)
    {
      var idx := VarIndex(acc, program.varCount);
      if idx == None {
        return BadVar;
      }
      var i := idx.value;
      if op == OP_MEM {
        acc := vars[i];
      } else if op == OP_MEMPP {
        acc := vars[i];
        vars[i] := Wrap(acc as int + 1);
      } else if op == OP_MEMMM {
        acc := vars[i];
        vars[i] := Wrap(acc as int - 1);
      } else if op == OP_PPMEM {
        vars[i] := Wrap(vars[i] as int + 1);
        acc := vars[i];
      } else {
        vars[i] := Wrap(vars[i] as int - 1);
        acc := vars[i];
      }
      return Running;
    }

    method PushInPlace(v: u32) returns (status: Status)
      requires Valid() && 0 <= sp <= LOCALS
      modifies this`sp, vars
      ensures Local(View(), status) == Push(program.varCount, old(View()), v)
    {
      if sp >= LOCALS {
        return Overflow;
      }
      vars[program.varCount + sp] := v;
      sp := sp + 1;
      return Running;
    }

    method StepStoreInPlace(op: u32) returns (status: Status)
      requires Valid() && 0 <= sp <= LOCALS
      modifies this`sp, vars
      ensures Local(View(), status) == StepStore(program.varCount, old(View()), op)
    {
      if sp <= 0 {
        return Underflow;
      }
      sp := sp - 1;
      var top := vars[program.varCount + sp];
      var idx := VarIndex(if op == OP_STORS then acc else top, program.varCount);
      if idx == None {
        return BadVar;
      }
      vars[idx.value] := if op == OP_STORS then top else acc;
      return Running;
    }

    method StepBinaryInPlace(op: u32) returns (status: Status)
      requires Valid() && 0 <= sp <= LOCALS
      modifies this`acc, this`sp
      ensures Local(View(), status) == StepBinary(program.varCount, old(View()), op)
    {
      var divides := op == OP_DIV || op == OP_MOD;
      if divides && acc == 0 {
        return DivZero;
      }
      if op < OP_LSHFT || op > OP_OR {
        return Illegal;
      }
      if sp <= 0 {
        return Underflow;
      }
      sp := sp - 1;
      var lhs := vars[program.varCount + sp];
      if divides && lhs == 0x8000_0000 && acc == 0xFFFF_FFFF {
        return DivZero;
      }
      acc := Binary(op, lhs, acc);
      return Running;
    }

    method StepCallInPlace(target: u32) returns (status: Status)
      requires Valid() && 0 <= sp <= LOCALS && 0 <= pc
      modifies this`pc, this`sp, vars
      ensures Local(View(), status) == StepCall(program.varCount, |program.code|, old(View()), target)
    {
      var tag := Tag(target);
      if tag == 0 {
        return Running;
      }
      if tag == TAG_CODE {
        var dest := TagValue(target);
        if dest >= |program.code| {
          return Range;
        }
        status := PushInPlace(Wrap(pc));
        if status == Running {
          pc := dest;
        }
        return status;
      }
      return Range;
    }

    predicate IsControl(op: u32) {
      op == OP_B || op == OP_BT || op == OP_BF || op == OP_RET
    }

    method StepControlInPlace(at: nat, op: u32, operand: u32) returns (status: Status)
      requires Valid() && 0 <= sp <= LOCALS && 0 <= pc && IsControl(op)
      modifies this`pc, this`sp
      ensures Local(View(), status) == StepLocal(program.varCount, old(View()), at, op, operand)
    {
      status := Running;
      if op == OP_RET {
        if sp <= 0 {
          return Terminated;
        }
        sp := sp - 1;
        pc := ToS32(vars[program.varCount + sp]);
        if pc < 0 {
          status := Range;
        }
      } else if op == OP_B || (op == OP_BT && acc != 0) || (op == OP_BF && acc == 0) {
        pc := ToS32(Wrap(at + 2 + operand));
        if pc < 0 {
          status := Range;
        }
      }
    }

    predicate IsStack(op: u32) {
      op == OP_PUSH || op == OP_POP || op == OP_SWAP || op == OP_STACK || op == OP_BAIL
    }

    method StepStackInPlace(at: nat, op: u32, operand: u32) returns (status: Status)
      requires Valid() && 0 <= sp <= LOCALS && 0 <= pc && IsStack(op)
      modifies this`acc, this`sp, vars
      ensures Local(View(), status) == StepLocal(program.varCount, old(View()), at, op, operand)
    {
      status := Running;
      if op == OP_PUSH {
        status := PushInPlace(acc);
      } else if op == OP_POP {
        if sp <= 0 {
          return Underflow;
        }
        sp := sp - 1;
        acc := vars[program.varCount + sp];
      } else if op == OP_SWAP {
        if sp <= 0 {
          return Underflow;
        }
        var t := vars[program.varCount + sp - 1];
        vars[program.varCount + sp - 1] := acc;
        acc := t;
      } else {
        sp := ToS32(Wrap(sp + operand));
        if sp > LOCALS {
          status := Overflow;
        }
        if sp < 0 {
          status := Underflow;
        }
      }
    }

    method StepLocalInPlace(at: nat, op: u32, operand: u32) returns (status: Status)
      requires Valid() && 0 <= sp <= LOCALS && 0 <= pc && !IsCall(op)
      modifies this`pc, this`acc, this`sp, vars
      ensures Local(View(), status) == StepLocal(program.varCount, old(View()), at, op, operand)
    {
      status := Running;
      if IsStack(op) {
        status := StepStackInPlace(at, op, operand);
      } else if IsControl(op) {
        status := StepControlInPlace(at, op, operand);
      } else if IsVariable(op) {
        status := StepVariableInPlace(op);
      } else if op == OP_NOT {
        acc := Bool(acc == 0);
      } else if op == OP_BNOT {
        acc := 0xFFFF_FFFF - acc;
      } else if op == OP_NEG {
        acc := Wrap(0 - ToS32(acc));
      } else if op == OP_LOC {
        acc := BitOr(Wrap(sp + operand), TAG_LOCAL);
      } else if op == OP_LOAD {
        acc := operand;
      } else if op == OP_STORS || op == OP_STORA {
        status := StepStoreInPlace(op);
      } else {
        status := StepBinaryInPlace(op);
      }
    }

    method ExecInPlace() returns (status: Status)
      requires Valid() && 0 <= sp <= LOCALS && 0 <= pc < |program.code|
      modifies this`pc, this`acc, this`sp, this`env, vars
      ensures Outcome(env, View(), status) == Exec(program, old(env), old(View()))
    {
      hide StepLocal, StepCall, HasOperand, Tag;
      var at := pc;
      var op := program.code[at];
      var operand: u32 := 0;
      if HasOperand(op) && at + 1 < |program.code| {
        operand := program.code[at + 1];
      }
      pc := at + if HasOperand(op) then 2 else 1;
      if IsCall(op) {
        var target := if op == OP_CALLA then acc else operand;
        if Tag(target) == TAG_NATIVE {
          if program.native == None {
            return BadNative;
          }
          var n := program.native.value(env, Core(pc, acc, sp, vars[..]), target);
          env, acc, status := n.env, n.acc, n.status;
        } else {
          status := StepCallInPlace(target);
        }
      } else {
        status := StepLocalInPlace(at, op, operand);
      }
    }

    /**
      Run until the machine stops. The new state, the status and the tokens left
      are those of the specification's run, for any code whatever.
    */
    method Run() returns (status: Status)
      requires Valid() && 0 <= sp <= LOCALS
      modifies this`pc, this`acc, this`sp, this`env, this`budget, vars
      ensures var r := Script.Run(program, old(env), old(View()), old(budget));
              env == r.env && View() == r.core && budget == r.budget && status == r.status
      ensures Yields(status) ==> 0 <= sp <= LOCALS
    {
      if pc < 0 {
        return Range;
      }
      status := Running;
      ghost var spec := Loop(program, env, View(), budget);
      while status == Running
        invariant status == Running ==> 0 <= sp <= LOCALS && 0 <= pc
        invariant status == Running ==>
                    var r := Loop(program, env, View(), budget);
                    spec.(executed := 0) == r.(executed := 0)
        invariant status != Running ==>
                    env == spec.env && View() == spec.core && budget == spec.budget && status == spec.status
        decreases status == Running, budget
      {
        budget := budget - 1;
        if budget < 1 {
          status := BudgetOut;
          break;
        }
        if pc >= |program.code| {
          status := Range;
          break;
        }
        status := ExecInPlace();
      }
    }
  }
}

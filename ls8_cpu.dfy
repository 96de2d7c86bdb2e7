/**
 The emulator object. Its handlers, `alu`, `ram_read`, `ram_write` and `run`
 update the registers, the memory, pc, FL and the running flag in place; each
 method is proved to leave the object in the state the matching function of
 `Ls8Machine` computes, and to raise exactly when that function does.
 */
module Ls8Cpu {
  import opened PyList
  import M = Ls8Machine

  class CPU {
    var fl: int
    var pc: int
    var running: bool
    const reg: array<int>
    const ram: array<int>
    /** What PRN and the invalid-instruction report have printed. */
    ghost var out: seq<M.Event>

    ghost predicate Valid()
      reads this
    {
      reg.Length == 8 && ram.Length == 256 && reg != ram
    }

    /** The object's fields as a value. */
    ghost function Snapshot(): (s: M.State)
      reads this, reg, ram
      requires Valid()
    {
      M.State(reg[..], ram[..], pc, fl, running, out)
    }

    /** The object is in the state `o` describes and `exc` is what `o` raised. */
    ghost predicate Reflects(o: M.Outcome, exc: Option<Exception>)
      reads this, reg, ram
      requires Valid()
    {
      Snapshot() == o.state && exc == o.Thrown()
    }

    constructor ()
      ensures Valid() && fresh(reg) && fresh(ram)
      ensures Snapshot() == M.Init()
    {
      fl := 0;
      pc := 0;
      reg := new int[8](_ => 0);
      ram := new int[256](_ => 0);
      running := true;
      out := [];
    }

    method RamRead(address: int) returns (r: Result<int>)
      requires Valid()
      ensures r == M.RamRead(Snapshot(), address)
    {
      match PyIndex(address, ram.Length)
      case None => r := Err(IndexError);
      case Some(k) => r := Ok(ram[k]);
    }

    method RamWrite(value: int, address: int) returns (exc: Option<Exception>)
      requires Valid()
      modifies ram
      ensures Valid() && Reflects(M.RamWrite(old(Snapshot()), value, address), exc)
    {
      match PyIndex(address, ram.Length)
      case None => exc := Some(IndexError);
      case Some(k) => ram[k] := value; exc := None;
    }

    /** `alu(op, reg_a, reg_b)`: returns the new `reg[reg_a]`, or the exception. */
    method Alu(op: string, regA: int, regB: int) returns (r: Result<int>)
      requires Valid()
      modifies this, reg
      ensures Valid() && Snapshot() == M.Alu(old(Snapshot()), op, regA, regB).state
      ensures r == match M.Alu(old(Snapshot()), op, regA, regB)
                   case Raised(e, _) => Err(e)
                   case Done(t) => Get(t.reg, regA)
    {
      if op !in M.ArithmeticOps + {"CMP"} {
        return Err(UnsupportedAluOperation);
      }
      var ka, kb := PyIndex(regA, reg.Length), PyIndex(regB, reg.Length);
      if ka.None? || kb.None? {
        return Err(IndexError);
      }
      var x, y := reg[ka.value], reg[kb.value];
      if op == "CMP" {
        fl := M.Compare(x, y);
      } else {
        reg[ka.value] := M.AluValue(op, x, y);
      }
      r := Ok(reg[ka.value]);
    }

    method Ldi(operandA: int, operandB: int) returns (exc: Option<Exception>)
      requires Valid()
      modifies reg
      ensures Valid() && Reflects(M.Ldi(old(Snapshot()), operandA, operandB), exc)
    {
      match PyIndex(operandA, reg.Length)
      case None => exc := Some(IndexError);
      case Some(k) => reg[k] := operandB; exc := None;
    }

    method Prn(operandA: int, operandB: int) returns (exc: Option<Exception>)
      requires Valid()
      modifies this
      ensures Valid() && Reflects(M.Prn(old(Snapshot()), operandA, operandB), exc)
    {
      match PyIndex(operandA, reg.Length)
      case None => exc := Some(IndexError);
      case Some(k) => out := out + [M.Printed(reg[k])]; exc := None;
    }

    method Add(operandA: int, operandB: int) returns (exc: Option<Exception>)
      requires Valid()
      modifies this, reg
      ensures Valid() && Reflects(M.Add(old(Snapshot()), operandA, operandB), exc)
    {
      var r := Alu("ADD", operandA, operandB);
      exc := if r.Err? then Some(r.exc) else None;
    }

    method Mul(operandA: int, operandB: int) returns (exc: Option<Exception>)
      requires Valid()
      modifies this, reg
      ensures Valid() && Reflects(M.Mul(old(Snapshot()), operandA, operandB), exc)
    {
      var r := Alu("MUL", operandA, operandB);
      exc := if r.Err? then Some(r.exc) else None;
    }

    method Xor(operandA: int, operandB: int) returns (exc: Option<Exception>)
      requires Valid()
      modifies this, reg
      ensures Valid() && Reflects(M.Xor(old(Snapshot()), operandA, operandB), exc)
    {
      var r := Alu("XOR", operandA, operandB);
      exc := if r.Err? then Some(r.exc) else None;
    }

    method And(operandA: int, operandB: int) returns (exc: Option<Exception>)
      requires Valid()
      modifies this, reg
      ensures Valid() && Reflects(M.And(old(Snapshot()), operandA, operandB), exc)
    {
      var r := Alu("AND", operandA, operandB);
      exc := if r.Err? then Some(r.exc) else None;
    }

    method Or(operandA: int, operandB: int) returns (exc: Option<Exception>)
      requires Valid()
      modifies this, reg
      ensures Valid() && Reflects(M.Or(old(Snapshot()), operandA, operandB), exc)
    {
      var r := Alu("OR", operandA, operandB);
      exc := if r.Err? then Some(r.exc) else None;
    }

    method Cmp(operandA: int, operandB: int) returns (exc: Option<Exception>)
      requires Valid()
      modifies this, reg
      ensures Valid() && Reflects(M.Cmp(old(Snapshot()), operandA, operandB), exc)
    {
      var r := Alu("CMP", operandA, operandB);
      exc := if r.Err? then Some(r.exc) else None;
    }

    method Push(operandA: int, operandB: int) returns (exc: Option<Exception>)
      requires Valid()
      modifies reg, ram
      ensures Valid() && Reflects(M.Push(old(Snapshot()), operandA, operandB), exc)
    {
      reg[M.SP] := reg[M.SP] - 1;
      var address := reg[M.SP];
      match PyIndex(operandA, reg.Length)
      case None => exc := Some(IndexError);
      case Some(k) => exc := RamWrite(reg[k], address);
    }

    method Pop(operandA: int, operandB: int) returns (exc: Option<Exception>)
      requires Valid()
      modifies reg
      ensures Valid() && Reflects(M.Pop(old(Snapshot()), operandA, operandB), exc)
    {
      var address := reg[M.SP];
      var v := RamRead(address);
      if v.Err? {
        return Some(v.exc);
      }
      match PyIndex(operandA, reg.Length)
      case None => exc := Some(IndexError);
      case Some(k) =>
        reg[k] := v.value;
        reg[M.SP] := reg[M.SP] + 1;
        exc := None;
    }

    method Call(operandA: int, operandB: int) returns (exc: Option<Exception>)
      requires Valid()
      modifies this, reg, ram
      ensures Valid() && Reflects(M.Call(old(Snapshot()), operandA, operandB), exc)
    {
      reg[M.SP] := reg[M.SP] - 1;
      exc := RamWrite(pc + 2, reg[M.SP]);
      if exc.Some? {
        return;
      }
      match PyIndex(operandA, reg.Length)
      case None => exc := Some(IndexError);
      case Some(k) => pc := reg[k];
    }

    method Ret(operandA: int, operandB: int) returns (exc: Option<Exception>)
      requires Valid()
      modifies this, reg
      ensures Valid() && Reflects(M.Ret(old(Snapshot()), operandA, operandB), exc)
    {
      var address := reg[M.SP];
      var v := RamRead(address);
      if v.Err? {
        return Some(v.exc);
      }
      pc := v.value;
      reg[M.SP] := reg[M.SP] + 1;
      exc := None;
    }

    method Hlt(operandA: int, operandB: int) returns (exc: Option<Exception>)
      requires Valid()
      modifies this
      ensures Valid() && Reflects(M.Hlt(old(Snapshot()), operandA, operandB), exc)
    {
      running := false;
      exc := None;
    }

    method Jmp(operandA: int, operandB: int) returns (exc: Option<Exception>)
      requires Valid()
      modifies this
      ensures Valid() && Reflects(M.Jmp(old(Snapshot()), operandA, operandB), exc)
    {
      match PyIndex(operandA, reg.Length)
      case None => exc := Some(IndexError);
      case Some(k) => pc := reg[k]; exc := None;
    }

    method Jeq(operandA: int, operandB: int) returns (exc: Option<Exception>)
      requires Valid()
      modifies this
      ensures Valid() && Reflects(M.Jeq(old(Snapshot()), operandA, operandB), exc)
    {
      if M.EqualBit(fl) == 1 {
        exc := Jmp(operandA, operandB);
      } else {
        pc := pc + 2;
        exc := None;
      }
    }

    method Jne(operandA: int, operandB: int) returns (exc: Option<Exception>)
      requires Valid()
      modifies this
      ensures Valid() && Reflects(M.Jne(old(Snapshot()), operandA, operandB), exc)
    {
      if M.EqualBit(fl) == 0 {
        exc := Jmp(operandA, operandB);
      } else {
        pc := pc + 2;
        exc := None;
      }
    }

    /** Calls the handler the dispatch table binds to `ir`. */
    method Dispatch(ir: int, operandA: int, operandB: int) returns (exc: Option<Exception>)
      requires Valid() && ir in M.Instructions
      modifies this, reg, ram
      ensures Valid() && Reflects(M.Instructions[ir](old(Snapshot()), operandA, operandB), exc)
    {
      M.InstructionsKeys(ir);
      if ir == M.LDI {
        assert M.Instructions[ir] == M.Ldi;
        exc := Ldi(operandA, operandB);
      } else if ir == M.PRN {
        assert M.Instructions[ir] == M.Prn;
        exc := Prn(operandA, operandB);
      } else if ir == M.ADD {
        assert M.Instructions[ir] == M.Add;
        exc := Add(operandA, operandB);
      } else if ir == M.MUL {
        assert M.Instructions[ir] == M.Mul;
        exc := Mul(operandA, operandB);
      } else if ir == M.PUSH {
        assert M.Instructions[ir] == M.Push;
        exc := Push(operandA, operandB);
      } else if ir == M.POP {
        assert M.Instructions[ir] == M.Pop;
        exc := Pop(operandA, operandB);
      } else if ir == M.HLT {
        assert M.Instructions[ir] == M.Hlt;
        exc := Hlt(operandA, operandB);
      } else if ir == M.CALL {
        assert M.Instructions[ir] == M.Call;
        exc := Call(operandA, operandB);
      } else if ir == M.RET {
        assert M.Instructions[ir] == M.Ret;
        exc := Ret(operandA, operandB);
      } else if ir == M.CMP {
        assert M.Instructions[ir] == M.Cmp;
        exc := Cmp(operandA, operandB);
      } else if ir == M.JMP {
        assert M.Instructions[ir] == M.Jmp;
        exc := Jmp(operandA, operandB);
      } else if ir == M.JEQ {
        assert M.Instructions[ir] == M.Jeq;
        exc := Jeq(operandA, operandB);
      } else if ir == M.JNE {
        assert M.Instructions[ir] == M.Jne;
        exc := Jne(operandA, operandB);
      } else if ir == M.XOR {
        assert M.Instructions[ir] == M.Xor;
        exc := Xor(operandA, operandB);
      } else if ir == M.AND {
        assert M.Instructions[ir] == M.And;
        exc := And(operandA, operandB);
      } else {
        assert M.Instructions[ir] == M.Or;
        exc := Or(operandA, operandB);
      }
    }

    /** One iteration of the body of `run`. */
    method Step() returns (exc: Option<Exception>)
      requires Valid()
      modifies this, reg, ram
      ensures Valid() && Reflects(M.Step(old(Snapshot())), exc)
    {
      ghost var s := Snapshot();
      var ir := RamRead(pc);
      if ir.Err? {
        return Some(ir.exc);
      }
      var instructionLength := M.InstructionLength(ir.value);
      var operandA := RamRead(pc + 1);
      var operandB := RamRead(pc + 2);
      if operandA.Err? || operandB.Err? {
        return Some(IndexError);
      }
      ghost var handled := if ir.value in M.Instructions then M.Instructions[ir.value](s, operandA.value, operandB.value)
                           else M.Done(s.(out := s.out + [M.InvalidInstruction]));
      if ir.value in M.Instructions {
        exc := Dispatch(ir.value, operandA.value, operandB.value);
        if exc.Some? {
          return;
        }
      } else {
        out := out + [M.InvalidInstruction];
        exc := None;
      }
      assert Snapshot() == handled.state && handled.Done?;
      if !M.SetsPc(ir.value) {
        pc := pc + instructionLength;
      }
    }

    /** `run`, cut off after `fuel` iterations: returns the exception that
        ended the loop, if one did. */
    method Run(fuel: nat) returns (exc: Option<Exception>)
      requires Valid()
      modifies this, reg, ram
      ensures Valid() && Reflects(M.Run(old(Snapshot()), fuel), exc)
    {
      var n := fuel;
      exc := None;
      while running && n > 0
        invariant Valid() && exc == None
        invariant M.Run(old(Snapshot()), fuel) == M.Run(Snapshot(), n)
        decreases n
      {
        ghost var before := Snapshot();
        exc := Step();
        M.RunUnfolds(before, n);
        if exc.Some? {
          return;
        }
        n := n - 1;
      }
    }
  }
}

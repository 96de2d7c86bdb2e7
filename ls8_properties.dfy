/**
 What the emulator promises, proved about the functional semantics of
 `Ls8Machine` (and so, through the contracts of `Ls8Cpu.CPU`, about the object).
 */
module Ls8Properties {
  import opened PyList
  import opened Ls8Machine

  // ---------------------------------------------------------------- memory

  /** `ram_write(v, addr)` then `ram_read(addr)` gives `v`; every other cell
      and every other field is as before. */
  lemma RamWriteThenRead(s: State, value: int, address: int)
    requires -256 <= address < 256
    ensures RamWrite(s, value, address).Done?
    ensures RamRead(RamWrite(s, value, address).state, address) == Ok(value)
    ensures forall j :: PyIndex(j, 256) != PyIndex(address, 256) ==>
                          RamRead(RamWrite(s, value, address).state, j) == RamRead(s, j)
  {
    SetThenGet(s.ram, address, value);
  }

  // ---------------------------------------------------------------- ALU

  /** ADD, MUL, XOR, AND and OR write their byte-sized result into `reg[a]`
      and change nothing else; a register index out of range raises
      IndexError and changes nothing. */
  lemma ArithmeticAluWritesRegA(s: State, op: string, a: int, b: int)
    requires op in ArithmeticOps
    ensures var r := Alu(s, op, a, b);
            if -8 <= a < 8 && -8 <= b < 8 then
              var x, y := Get(s.reg, a).value, Get(s.reg, b).value;
              && r.Done?
              && Get(r.state.reg, a) == Ok(AluValue(op, x, y))
              && 0 <= AluValue(op, x, y) < 256
              && (forall j :: PyIndex(j, 8) != PyIndex(a, 8) ==> Get(r.state.reg, j) == Get(s.reg, j))
              && r.state == s.(reg := r.state.reg)
            else r == Raised(IndexError, s)
  {
    if -8 <= a < 8 && -8 <= b < 8 {
      SetThenGet(s.reg, a, AluValue(op, Get(s.reg, a).value, Get(s.reg, b).value));
    }
  }

  /** ADD and MUL are the mathematical sum and product, reduced modulo 256. */
  lemma AddMulAreModular(x: int, y: int)
    ensures AluValue("ADD", x, y) == (x + y) % 256
    ensures AluValue("MUL", x, y) == (x * y) % 256
    ensures 0 <= x < 256 && 0 <= y < 256 && x + y < 256 ==> AluValue("ADD", x, y) == x + y
  {
  }

  /** XOR with the same operand twice gives back the first operand's low byte. */
  lemma XorTwiceRestores(x: int, y: int)
    ensures Xor8(Xor8(x, y), y) == Byte(x) as int
  {
  }

  /** CMP sets FL to exactly 1, 4 or 2 for equal, less or greater, and
      changes no register or memory cell. */
  lemma CmpSetsFlags(s: State, a: int, b: int)
    requires -8 <= a < 8 && -8 <= b < 8
    ensures var r := Cmp(s, a, b);
            var x, y := Get(s.reg, a).value, Get(s.reg, b).value;
            && r.Done?
            && r.state == s.(fl := r.state.fl)
            && (r.state.fl == 1 <==> x == y)
            && (r.state.fl == 4 <==> x < y)
            && (r.state.fl == 2 <==> x > y)
  {
  }

  /** Any tag outside ADD, MUL, CMP, XOR, AND, OR raises "Unsupported ALU
      operation", whatever the register indices. */
  lemma AluRejectsUnknownTag(s: State, op: string, a: int, b: int)
    requires op !in {"ADD", "MUL", "CMP", "XOR", "AND", "OR"}
    ensures Alu(s, op, a, b) == Raised(UnsupportedAluOperation, s)
  {
  }

  // ---------------------------------------------------------------- stack

  /** PUSH of `reg[src]` then POP into `reg[dst]` (dst not the stack pointer)
      leaves in `reg[dst]` the value PUSH copied, SP as before the PUSH, and
      every other register, pc and FL as they were. */
  lemma PushThenPop(s: State, src: int, dst: int, b1: int, b2: int)
    requires -8 <= src < 8 && -8 <= dst < 8 && PyIndex(dst, 8) != Some(SP)
    requires -256 <= s.reg[SP] - 1 < 256
    ensures Push(s, src, b1).Done?
    ensures var pushed := Get(s.reg[SP := s.reg[SP] - 1], src).value;
            var r := Pop(Push(s, src, b1).state, dst, b2);
            && r.Done?
            && Get(r.state.reg, dst) == Ok(pushed)
            && r.state.reg[SP] == s.reg[SP]
            && (forall i :: 0 <= i < 8 && i != SP && Some(i) != PyIndex(dst, 8) ==> r.state.reg[i] == s.reg[i])
            && r.state.pc == s.pc && r.state.fl == s.fl
  {
    var t := Push(s, src, b1).state;
    var pushed := Get(s.reg[SP := s.reg[SP] - 1], src).value;
    RamWriteThenRead(MoveSp(s, -1), pushed, s.reg[SP] - 1);
    assert RamRead(t, t.reg[SP]) == Ok(pushed);
    SetThenGet(t.reg, dst, pushed);
  }

  /** The stack pointer starts at 0, so the first PUSH moves it to -1 and,
      by Python's negative indexing, writes the top cell of memory. */
  lemma FirstPushWritesTopCell(r: int, b: int)
    requires 0 <= r < 8
    ensures var t := Push(Init(), r, b);
            t.Done? && t.state.reg[SP] == -1 && t.state.ram[255] == (if r == SP then -1 else 0)
            && t.state.ram[..255] == Init().ram[..255]
  {
  }

  /** CALL at pc `p` stores `p + 2` at the decremented SP and jumps to the
      register's value (read after the decrement). */
  lemma CallPushesReturnAddress(s: State, a: int, b: int)
    requires -8 <= a < 8
    requires -256 <= s.reg[SP] - 1 < 256
    ensures var c := Call(s, a, b);
            && c.Done?
            && c.state.reg[SP] == s.reg[SP] - 1
            && RamRead(c.state, c.state.reg[SP]) == Ok(s.pc + 2)
            && Ok(c.state.pc) == Get(s.reg[SP := s.reg[SP] - 1], a)
            && c.state.fl == s.fl && c.state.running == s.running
  {
    RamWriteThenRead(MoveSp(s, -1), s.pc + 2, s.reg[SP] - 1);
  }

  /** A RET executed later, with SP and the cell it addresses as CALL left
      them, returns to `p + 2` and restores SP to its value before the CALL. */
  lemma RetUndoesCall(s: State, a: int, b: int, later: State, a2: int, b2: int)
    requires -8 <= a < 8
    requires -256 <= s.reg[SP] - 1 < 256
    requires later.reg[SP] == Call(s, a, b).state.reg[SP]
    requires RamRead(later, later.reg[SP]) == RamRead(Call(s, a, b).state, later.reg[SP])
    ensures var r := Ret(later, a2, b2);
            r.Done? && r.state.pc == s.pc + 2 && r.state.reg[SP] == s.reg[SP]
  {
    CallPushesReturnAddress(s, a, b);
  }

  // ---------------------------------------------------------------- branches

  /** JEQ is JMP when the equal bit of FL is set and otherwise steps over its
      own two bytes; JNE is the opposite. Neither touches FL, registers or
      memory. */
  lemma ConditionalJumps(s: State, a: int, b: int)
    ensures Jeq(s, a, b) == if s.fl % 2 == 1 then Jmp(s, a, b) else Done(s.(pc := s.pc + InstructionLength(JEQ)))
    ensures Jne(s, a, b) == if s.fl % 2 == 1 then Done(s.(pc := s.pc + InstructionLength(JNE))) else Jmp(s, a, b)
    ensures Jeq(s, a, b).state == s.(pc := Jeq(s, a, b).state.pc)
    ensures Jne(s, a, b).state == s.(pc := Jne(s, a, b).state.pc)
  {
  }

  // ---------------------------------------------------------------- the loop

  /** The operand count each opcode's own description gives it. */
  function OperandCount(ir: int): (n: nat)
    requires ir in Instructions
    ensures n <= 2
  {
    if ir in {HLT, RET} then 0
    else if ir in {PRN, PUSH, POP, CALL, JMP, JEQ, JNE} then 1
    else 2
  }

  /** The opcode layout: the top two bits give the operand count, and bit 4
      is set exactly on the instructions that set pc themselves. */
  lemma OpcodeLayout(ir: int)
    requires ir in Instructions
    ensures InstructionLength(ir) == OperandCount(ir) + 1
    ensures SetsPc(ir) <==> ir in {CALL, RET, JMP, JEQ, JNE}
  {
    InstructionsKeys(ir);
  }

  /** The fetched bytes of one iteration. */
  predicate Fetches(s: State, ir: int, a: int, b: int)
  {
    RamRead(s, s.pc) == Ok(ir) && RamRead(s, s.pc + 1) == Ok(a) && RamRead(s, s.pc + 2) == Ok(b)
  }

  /** The byte a booted memory holds at `i`: the program's, then zero. */
  function ProgramByte(program: seq<int>, i: int): int {
    if 0 <= i < |program| then program[i] else 0
  }

  /** A machine whose memory holds `program` followed by zeros, as `Boot`
      leaves it, fetches the program's bytes at pc. */
  lemma FetchesProgram(s: State, program: seq<int>)
    requires |program| <= 256 && s.ram[..|program|] == program
    requires forall i :: |program| <= i < 256 ==> s.ram[i] == 0
    requires 0 <= s.pc <= 253
    ensures Fetches(s, ProgramByte(program, s.pc), ProgramByte(program, s.pc + 1), ProgramByte(program, s.pc + 2))
  {
    forall i | s.pc <= i <= s.pc + 2
      ensures s.ram[i] == ProgramByte(program, i)
    {
      if i < |program| {
        assert s.ram[..|program|][i] == program[i];
      }
    }
  }

  /** An unknown opcode only reports: registers, memory, FL and the running
      flag are untouched, and pc advances by the instruction length exactly
      when bit 4 is clear. */
  lemma StepUnknownOpcode(s: State, ir: int, a: int, b: int)
    requires Fetches(s, ir, a, b) && ir !in Instructions
    ensures Step(s) == Done(s.(out := s.out + [InvalidInstruction],
                               pc := s.pc + if SetsPc(ir) then 0 else InstructionLength(ir)))
  {
  }

  /** A known opcode runs its handler; a handler that does not set pc itself
      leaves it alone, and the loop then moves pc past the instruction. */
  lemma StepKnownOpcode(s: State, ir: int, a: int, b: int)
    requires Fetches(s, ir, a, b) && ir in Instructions
    ensures var h := Instructions[ir](s, a, b);
            && (h.Raised? ==> Step(s) == h)
            && (h.Done? && SetsPc(ir) ==> Step(s) == h)
            && (h.Done? && !SetsPc(ir) ==>
                  h.state.pc == s.pc && Step(s) == Done(h.state.(pc := s.pc + OperandCount(ir) + 1)))
  {
    OpcodeLayout(ir);
  }

  /** HLT clears the running flag, moves pc past itself, and the loop ends. */
  lemma HltEndsRun(s: State, a: int, b: int, fuel: nat)
    requires s.running && Fetches(s, HLT, a, b)
    ensures Step(s) == Done(s.(running := false, pc := s.pc + 1))
    ensures Run(s, fuel + 1) == Done(s.(running := false, pc := s.pc + 1))
  {
    assert Run(s, fuel + 1) == Run(s.(running := false, pc := s.pc + 1), fuel);
  }

  /** As loop iterations: CALL at address `p` jumps without the loop adding
      to pc, and a later RET that finds SP and the return-address cell as CALL
      left them resumes at `p + 2` with SP restored. */
  lemma CallThenRetSteps(s: State, a: int, b: int, later: State, a2: int, b2: int)
    requires Fetches(s, CALL, a, b)
    requires -8 <= a < 8 && -256 <= s.reg[SP] - 1 < 256
    requires Fetches(later, RET, a2, b2)
    requires later.reg[SP] == s.reg[SP] - 1
    requires RamRead(later, later.reg[SP]) == Ok(s.pc + 2)
    ensures Step(s).Done? && Ok(Step(s).state.pc) == Get(s.reg[SP := s.reg[SP] - 1], a)
    ensures Step(later).Done? && Step(later).state.pc == s.pc + 2
    ensures Step(later).state.reg[SP] == s.reg[SP]
  {
    StepKnownOpcode(s, CALL, a, b);
    CallPushesReturnAddress(s, a, b);
    StepKnownOpcode(later, RET, a2, b2);
  }

  /** LDI as a loop iteration: the register gets the immediate and pc moves
      past the three bytes. */
  lemma StepLdi(s: State, r: int, v: int)
    requires Fetches(s, LDI, r, v) && 0 <= r < 8
    ensures Step(s) == Done(s.(reg := s.reg[r := v], pc := s.pc + 3))
  {
    assert Instructions[LDI] == Ldi;
  }

  /** MUL as a loop iteration: `reg[a]` gets the product modulo 256 and pc
      moves past the three bytes. */
  lemma StepMul(s: State, ra: int, rb: int)
    requires Fetches(s, MUL, ra, rb) && 0 <= ra < 8 && 0 <= rb < 8
    ensures Step(s) == Done(s.(reg := s.reg[ra := (s.reg[ra] * s.reg[rb]) % 256], pc := s.pc + 3))
  {
    assert Instructions[MUL] == Mul;
  }

  /** PRN as a loop iteration: the register's value is printed and pc moves
      past the two bytes. */
  lemma StepPrn(s: State, r: int, b: int)
    requires Fetches(s, PRN, r, b) && 0 <= r < 8
    ensures Step(s) == Done(s.(out := s.out + [Printed(s.reg[r])], pc := s.pc + 2))
  {
    assert Instructions[PRN] == Prn;
  }

  /** No handler takes back what was printed; only PRN adds to it. */
  lemma HandlerKeepsOutput(s: State, ir: int, a: int, b: int)
    requires ir in Instructions
    ensures var h := Instructions[ir](s, a, b);
            s.out <= h.state.out && (ir != PRN ==> h.state.out == s.out)
  {
    InstructionsKeys(ir);
    if ir == LDI {
      assert Instructions[ir] == Ldi;
    } else if ir == PRN {
      assert Instructions[ir] == Prn;
    } else if ir == ADD {
      assert Instructions[ir] == Add;
    } else if ir == MUL {
      assert Instructions[ir] == Mul;
    } else if ir == PUSH {
      assert Instructions[ir] == Push;
    } else if ir == POP {
      assert Instructions[ir] == Pop;
    } else if ir == HLT {
      assert Instructions[ir] == Hlt;
    } else if ir == CALL {
      assert Instructions[ir] == Call;
    } else if ir == RET {
      assert Instructions[ir] == Ret;
    } else if ir == CMP {
      assert Instructions[ir] == Cmp;
    } else if ir == JMP {
      assert Instructions[ir] == Jmp;
    } else if ir == JEQ {
      assert Instructions[ir] == Jeq;
    } else if ir == JNE {
      assert Instructions[ir] == Jne;
    } else if ir == XOR {
      assert Instructions[ir] == Xor;
    } else if ir == AND {
      assert Instructions[ir] == And;
    } else {
      assert Instructions[ir] == Or;
    }
  }

  /** One iteration never takes back what was printed: the output before is a
      prefix of the output after, raised or not. */
  lemma StepKeepsOutput(s: State)
    ensures s.out <= Step(s).state.out
  {
    match (RamRead(s, s.pc), RamRead(s, s.pc + 1), RamRead(s, s.pc + 2))
    case (Ok(ir), Ok(a), Ok(b)) =>
      if ir in Instructions {
        HandlerKeepsOutput(s, ir, a, b);
      }
    case _ =>
  }

  /** The values FL can hold: 0 at power-on, then CMP's `00000LGE` patterns. */
  predicate FlagPattern(fl: int) {
    fl in {0, 1, 2, 4}
  }

  /** Only CMP writes FL, and it writes one of its patterns; only HLT changes
      the running flag. */
  lemma HandlerKeepsFlags(s: State, ir: int, a: int, b: int)
    requires ir in Instructions
    ensures var h := Instructions[ir](s, a, b);
            && (ir != CMP ==> h.state.fl == s.fl)
            && (FlagPattern(s.fl) ==> FlagPattern(h.state.fl))
            && (ir != HLT ==> h.state.running == s.running)
  {
    InstructionsKeys(ir);
    if ir == LDI {
      assert Instructions[ir] == Ldi;
    } else if ir == PRN {
      assert Instructions[ir] == Prn;
    } else if ir == ADD {
      assert Instructions[ir] == Add;
    } else if ir == MUL {
      assert Instructions[ir] == Mul;
    } else if ir == PUSH {
      assert Instructions[ir] == Push;
    } else if ir == POP {
      assert Instructions[ir] == Pop;
    } else if ir == HLT {
      assert Instructions[ir] == Hlt;
    } else if ir == CALL {
      assert Instructions[ir] == Call;
    } else if ir == RET {
      assert Instructions[ir] == Ret;
    } else if ir == CMP {
      assert Instructions[ir] == Cmp;
    } else if ir == JMP {
      assert Instructions[ir] == Jmp;
    } else if ir == JEQ {
      assert Instructions[ir] == Jeq;
    } else if ir == JNE {
      assert Instructions[ir] == Jne;
    } else if ir == XOR {
      assert Instructions[ir] == Xor;
    } else if ir == AND {
      assert Instructions[ir] == And;
    } else {
      assert Instructions[ir] == Or;
    }
  }

  /** One iteration keeps FL among the flag patterns. */
  lemma StepKeepsFlags(s: State)
    ensures FlagPattern(s.fl) ==> FlagPattern(Step(s).state.fl)
  {
    match (RamRead(s, s.pc), RamRead(s, s.pc + 1), RamRead(s, s.pc + 2))
    case (Ok(ir), Ok(a), Ok(b)) =>
      if ir in Instructions {
        HandlerKeepsFlags(s, ir, a, b);
      }
    case _ =>
  }

  /** Only an iteration that fetched HLT changes the running flag. */
  lemma StepKeepsRunning(s: State)
    ensures Step(s).state.running != s.running ==> RamRead(s, s.pc) == Ok(HLT)
  {
    match (RamRead(s, s.pc), RamRead(s, s.pc + 1), RamRead(s, s.pc + 2))
    case (Ok(ir), Ok(a), Ok(b)) =>
      if ir in Instructions {
        HandlerKeepsFlags(s, ir, a, b);
      }
    case _ =>
  }

  /** FL holds one of the flag patterns after any number of iterations, and a
      stopped machine never starts again. */
  lemma {:induction false} RunKeepsFlags(s: State, fuel: nat)
    ensures FlagPattern(s.fl) ==> FlagPattern(Run(s, fuel).state.fl)
    ensures Run(s, fuel).state.running ==> s.running
    decreases fuel
  {
    if s.running && fuel > 0 {
      RunUnfolds(s, fuel);
      StepKeepsFlags(s);
      StepKeepsRunning(s);
      if Step(s).Done? {
        RunKeepsFlags(Step(s).state, fuel - 1);
      }
    }
  }

  /** From power-on, FL only ever holds 0 or a CMP pattern. */
  lemma BootedFlagsArePatterns(program: seq<int>, fuel: nat)
    requires |program| <= 256
    ensures FlagPattern(Run(Boot(program), fuel).state.fl)
  {
    RunKeepsFlags(Boot(program), fuel);
  }

  /** Output only grows over any number of iterations. */
  lemma {:induction false} RunKeepsOutput(s: State, fuel: nat)
    ensures s.out <= Run(s, fuel).state.out
    decreases fuel
  {
    if s.running && fuel > 0 {
      RunUnfolds(s, fuel);
      StepKeepsOutput(s);
      if Step(s).Done? {
        RunKeepsOutput(Step(s).state, fuel - 1);
      }
    }
  }

  /** Running `m` iterations and then `n` more is running `m + n`. */
  lemma {:induction false} RunAdditive(s: State, m: nat, n: nat)
    ensures Run(s, m + n) == match Run(s, m)
                             case Raised(e, t) => Raised(e, t)
                             case Done(t) => Run(t, n)
    decreases m
  {
    if m > 0 && s.running {
      RunUnfolds(s, m);
      RunUnfolds(s, m + n);
      if Step(s).Done? {
        RunAdditive(Step(s).state, m - 1, n);
      }
    }
  }

  /** An unknown opcode with bit 4 set never advances pc: however long `run`
      goes on, the machine keeps reporting the same invalid instruction and
      nothing but its output changes. */
  lemma {:induction false} UnknownOpcodeSpins(s: State, ir: int, a: int, b: int, fuel: nat)
    requires s.running && Fetches(s, ir, a, b)
    requires ir !in Instructions && SetsPc(ir)
    ensures var r := Run(s, fuel);
            && r.Done?
            && r.state == s.(out := s.out + seq(fuel, _ => InvalidInstruction))
    decreases fuel
  {
    if fuel > 0 {
      var t := s.(out := s.out + [InvalidInstruction]);
      StepUnknownOpcode(s, ir, a, b);
      assert Fetches(t, ir, a, b);
      UnknownOpcodeSpins(t, ir, a, b, fuel - 1);
      assert t.out + seq(fuel - 1, _ => InvalidInstruction) == s.out + seq(fuel, _ => InvalidInstruction);
    }
  }

  // ---------------------------------------------------------------- programs

  /** The first iteration on a byte that is no opcode (0x02, bit 4 clear):
      one report, and pc moves on by one. */
  lemma InvalidInstructionReported()
    ensures var s0 := Boot([0x02, HLT]);
            Run(s0, 2) == Run(s0.(out := s0.out + [InvalidInstruction], pc := s0.pc + 1), 1)
  {
    var s0 := Boot([0x02, HLT]);
    FetchesProgram(s0, [0x02, HLT]);
    StepUnknownOpcode(s0, 0x02, HLT, 0);
    RunUnfolds(s0, 2);
  }

  /** A byte that is no opcode, then HLT: one invalid-instruction report,
      then the machine halts. */
  lemma InvalidInstructionThenHalt()
    ensures var r := Run(Boot([0x02, HLT]), 2);
            r.Done? && !r.state.running && r.state.out == [InvalidInstruction]
  {
    var s0 := Boot([0x02, HLT]);
    InvalidInstructionReported();
    var s1 := s0.(out := s0.out + [InvalidInstruction], pc := s0.pc + 1);
    FetchesProgram(s1, [0x02, HLT]);
    HltEndsRun(s1, 0, 0, 0);
  }

  /** Eight times nine: load both factors, multiply, print, halt. */
  const MultiplyProgram: seq<int> := [LDI, 0, 8, LDI, 1, 9, MUL, 0, 1, PRN, 0, HLT]

  /** An iteration that completes hands the rest of the fuel to the next state. */
  lemma RunAfterStep(s: State, t: State, fuel: nat)
    requires s.running && Step(s) == Done(t)
    ensures Run(s, fuel + 1) == Run(t, fuel)
  {
    RunUnfolds(s, fuel + 1);
  }

  /** A running machine at `pc` whose memory holds the multiply program
      followed by zeros, as `Boot` leaves it. */
  predicate RunsMultiply(s: State, pc: int) {
    && s.running && s.pc == pc
    && s.ram[..|MultiplyProgram|] == MultiplyProgram
    && forall i :: |MultiplyProgram| <= i < 256 ==> s.ram[i] == 0
  }

  /** Iterations one and two: LDI R0,8 and LDI R1,9. */
  lemma MultiplyLoadsFactors(s: State, fuel: nat)
    requires RunsMultiply(s, 0)
    ensures Run(s, fuel + 2) == Run(s.(reg := s.reg[0 := 8][1 := 9], pc := 6), fuel)
  {
    FetchesProgram(s, MultiplyProgram);
    StepLdi(s, 0, 8);
    var s1 := s.(reg := s.reg[0 := 8], pc := 3);
    RunAfterStep(s, s1, fuel + 1);
    FetchesProgram(s1, MultiplyProgram);
    StepLdi(s1, 1, 9);
    RunAfterStep(s1, s1.(reg := s1.reg[1 := 9], pc := 6), fuel);
  }

  /** Iteration three: MUL R0,R1 keeps the product modulo 256 in R0. */
  lemma MultiplyMultiplies(s: State, fuel: nat)
    requires RunsMultiply(s, 6)
    ensures Run(s, fuel + 1) == Run(s.(reg := s.reg[0 := (s.reg[0] * s.reg[1]) % 256], pc := 9), fuel)
  {
    FetchesProgram(s, MultiplyProgram);
    StepMul(s, 0, 1);
    RunAfterStep(s, s.(reg := s.reg[0 := (s.reg[0] * s.reg[1]) % 256], pc := 9), fuel);
  }

  /** Iterations four and five: PRN R0, then HLT ends the loop. */
  lemma MultiplyPrintsAndHalts(s: State, fuel: nat)
    requires RunsMultiply(s, 9)
    ensures Run(s, fuel + 2) == Done(s.(out := s.out + [Printed(s.reg[0])], pc := 12, running := false))
  {
    FetchesProgram(s, MultiplyProgram);
    StepPrn(s, 0, HLT);
    var s1 := s.(out := s.out + [Printed(s.reg[0])], pc := 11);
    RunAfterStep(s, s1, fuel + 1);
    FetchesProgram(s1, MultiplyProgram);
    HltEndsRun(s1, 0, 0, fuel);
  }

  /** MUL R0,R1 with the loaded factors leaves 72 in R0. */
  lemma MultiplyTimesNine(s2: State)
    requires RunsMultiply(s2, 6) && s2.reg[0] == 8 && s2.reg[1] == 9
    ensures Run(s2, 3) == Run(s2.(reg := s2.reg[0 := 72], pc := 9), 2)
  {
    assert s2.(reg := s2.reg[0 := (s2.reg[0] * s2.reg[1]) % 256], pc := 9) == s2.(reg := s2.reg[0 := 72], pc := 9);
    MultiplyMultiplies(s2, 2);
  }

  /** The first three iterations: both factors loaded and multiplied. */
  lemma MultiplyComputes(s0: State)
    requires RunsMultiply(s0, 0)
    ensures Run(s0, 5) == Run(s0.(reg := s0.reg[0 := 8][1 := 9][0 := 72], pc := 9), 2)
  {
    var s2 := s0.(reg := s0.reg[0 := 8][1 := 9], pc := 6);
    MultiplyLoadsFactors(s0, 3);
    MultiplyTimesNine(s2);
  }

  /** From a machine that holds the program at address 0 and has printed
      nothing, five iterations print 72 once and halt, leaving pc on the byte
      after HLT. */
  lemma MultiplyPrints72(s0: State)
    requires RunsMultiply(s0, 0) && s0.out == []
    ensures var r := Run(s0, 5);
            r.Done? && !r.state.running && r.state.out == [Printed(72)] && r.state.pc == 12
  {
    var s3 := s0.(reg := s0.reg[0 := 8][1 := 9][0 := 72], pc := 9);
    MultiplyComputes(s0);
    MultiplyPrintsAndHalts(s3, 0);
  }

  /** The booted program prints 72 once and halts within five iterations. */
  lemma BootedMultiplyPrints72()
    ensures var r := Run(Boot(MultiplyProgram), 5);
            r.Done? && !r.state.running && r.state.out == [Printed(72)] && r.state.pc == 12
  {
    MultiplyPrints72(Boot(MultiplyProgram));
  }
}

/**
 The LS-8 machine as values: the state of one `CPU` object and the effect of
 each instruction handler, of the ALU and of one iteration of the fetch-decode-
 execute loop, as functions from the state before to an `Outcome`. An outcome
 that raised carries the state Python leaves behind at the point of the raise.
 */
module Ls8Machine {
  import opened PyList

  // Opcodes, as bytes.
  const LDI: int := 0x82
  const PRN: int := 0x47
  const HLT: int := 0x01
  const ADD: int := 0xA0
  const MUL: int := 0xA2
  const PUSH: int := 0x45
  const POP: int := 0x46
  const CALL: int := 0x50
  const RET: int := 0x11
  const CMP: int := 0xA7
  const JMP: int := 0x54
  const JEQ: int := 0x55
  const JNE: int := 0x56
  const XOR: int := 0xAB
  const AND: int := 0xA8
  const OR: int := 0xAA

  /** Register 7 holds the stack pointer. */
  const SP: nat := 7

  /** Eight registers and 256 memory cells; both hold Python integers. */
  type Registers = r: seq<int> | |r| == 8 witness seq(8, _ => 0)
  type Memory = m: seq<int> | |m| == 256 witness seq(256, _ => 0)

  /** What the machine has written to standard output. */
  datatype Event = Printed(value: int) | InvalidInstruction

  /** The fields of a `CPU` object; `out` records its output. */
  datatype State = State(reg: Registers, ram: Memory, pc: int, fl: int, running: bool, out: seq<Event>)

  datatype Outcome = Done(state: State) | Raised(exc: Exception, state: State) {
    /** The exception raised, if any. */
    function Thrown(): Option<Exception> {
      if Raised? then Some(exc) else None
    }
  }

  /** The state a fresh `CPU` object starts in: everything zero, the stack
      pointer included, and running. */
  function Init(): (s: State)
    ensures s.running && s.pc == 0 && s.fl == 0 && s.out == []
    ensures forall i :: 0 <= i < 8 ==> s.reg[i] == 0
    ensures forall i :: 0 <= i < 256 ==> s.ram[i] == 0
  {
    State(seq(8, _ => 0), seq(256, _ => 0), 0, 0, true, [])
  }

  /** A fresh machine whose memory holds `program` from address 0 on. */
  function Boot(program: seq<int>): (s: State)
    requires |program| <= 256
    ensures s.running && s.pc == 0 && s.fl == 0 && s.out == [] && s.reg == Init().reg
    ensures s.ram[..|program|] == program
    ensures forall i :: |program| <= i < 256 ==> s.ram[i] == 0
  {
    Init().(ram := program + seq(256 - |program|, _ => 0))
  }

  // ---------------------------------------------------------------- memory

  function RamRead(s: State, address: int): (r: Result<int>)
    ensures r.Ok? <==> -256 <= address < 256
  {
    Get(s.ram, address)
  }

  function RamWrite(s: State, value: int, address: int): (r: Outcome)
    ensures r.Done? <==> -256 <= address < 256
    ensures r.state == s.(ram := r.state.ram)
    ensures r.Raised? ==> r.state == s
  {
    match Set(s.ram, address, value)
    case Err(e) => Raised(e, s)
    case Ok(ram) => Done(s.(ram := ram))
  }

  // ---------------------------------------------------------------- ALU

  /** Python's `x & 0xFF`. */
  function Low8(x: int): (r: int)
    ensures 0 <= r < 256
    ensures (r - x) % 256 == 0
  {
    x % 256
  }

  /** The low byte of `x` as a bit-vector. */
  function Byte(x: int): bv8 {
    Low8(x) as bv8
  }

  // Python's `(x ^ y) & 0xFF`, `(x & y) & 0xFF` and `(x | y) & 0xFF`: the low
  // byte of a bitwise operation depends only on the low bytes of its operands.

  function Xor8(x: int, y: int): (r: int)
    ensures 0 <= r < 256
    ensures r as bv8 == Byte(x) ^ Byte(y)
    ensures r == 0 <==> Byte(x) == Byte(y)
    ensures Byte(y) == 0 ==> r == Byte(x) as int
  {
    (Byte(x) ^ Byte(y)) as int
  }

  function And8(x: int, y: int): (r: int)
    ensures 0 <= r < 256
    ensures r <= Byte(x) as int && r <= Byte(y) as int
    ensures Byte(y) == 0xFF ==> r == Byte(x) as int
    ensures Byte(y) == 0 ==> r == 0
  {
    (Byte(x) & Byte(y)) as int
  }

  function Or8(x: int, y: int): (r: int)
    ensures 0 <= r < 256
    ensures Byte(x) as int <= r && Byte(y) as int <= r
    ensures Byte(y) == 0 ==> r == Byte(x) as int
    ensures Byte(y) == 0xFF ==> r == 0xFF
  {
    (Byte(x) | Byte(y)) as int
  }

  const ArithmeticOps: set<string> := {"ADD", "MUL", "XOR", "AND", "OR"}

  /** The value the ALU writes back into `reg_a` for an arithmetic or logic tag. */
  function AluValue(op: string, x: int, y: int): (r: int)
    requires op in ArithmeticOps
    ensures 0 <= r < 256
  {
    if op == "ADD" then Low8(x + y)
    else if op == "MUL" then Low8(x * y)
    else if op == "XOR" then Xor8(x, y)
    else if op == "AND" then And8(x, y)
    else Or8(x, y)
  }

  /** The `00000LGE` pattern CMP stores in FL. */
  function Compare(x: int, y: int): (fl: int)
    ensures fl in {1, 2, 4}
    ensures fl == 1 <==> x == y
    ensures fl == 4 <==> x < y
    ensures fl == 2 <==> x > y
  {
    if x == y then 1  // E
    else if x < y then 4  // L
    else 2  // G
  }

  /** `alu(op, reg_a, reg_b)`: the tag is checked before any register is read. */
  function Alu(s: State, op: string, regA: int, regB: int): (r: Outcome)
    ensures r.Raised? ==> r.state == s
    ensures op !in ArithmeticOps + {"CMP"} ==> r.Raised? && r.exc == UnsupportedAluOperation
  {
    if op !in ArithmeticOps + {"CMP"} then Raised(UnsupportedAluOperation, s)
    else
      match (Get(s.reg, regA), Get(s.reg, regB))
      case (Ok(x), Ok(y)) =>
        if op == "CMP" then Done(s.(fl := Compare(x, y)))
        else Done(s.(reg := Set(s.reg, regA, AluValue(op, x, y)).value))
      case _ => Raised(IndexError, s)
  }

  // ---------------------------------------------------------------- handlers
  // Every handler takes both operand bytes, whether it uses them or not.

  function Ldi(s: State, a: int, b: int): (r: Outcome)
    ensures r.Done? <==> -8 <= a < 8
    ensures r.Done? ==> Get(r.state.reg, a) == Ok(b) && r.state == s.(reg := r.state.reg)
    ensures forall j :: PyIndex(j, 8) != PyIndex(a, 8) ==> Get(r.state.reg, j) == Get(s.reg, j)
    ensures r.Raised? ==> r.state == s
  {
    match Set(s.reg, a, b)
    case Err(e) => Raised(e, s)
    case Ok(reg) => Done(s.(reg := reg))
  }

  function Prn(s: State, a: int, b: int): (r: Outcome)
    ensures r.Done? <==> -8 <= a < 8
    ensures r.Done? ==> r.state == s.(out := s.out + [Printed(Get(s.reg, a).value)])
    ensures r.Raised? ==> r.state == s
  {
    match Get(s.reg, a)
    case Err(e) => Raised(e, s)
    case Ok(v) => Done(s.(out := s.out + [Printed(v)]))
  }

  function Add(s: State, a: int, b: int): (r: Outcome)
    ensures r.state == s.(reg := r.state.reg)
    ensures r.Done? <==> -8 <= a < 8 && -8 <= b < 8
    ensures r.Done? ==> Get(r.state.reg, a) == Ok((Get(s.reg, a).value + Get(s.reg, b).value) % 256)
  {
    Alu(s, "ADD", a, b)
  }

  function Mul(s: State, a: int, b: int): (r: Outcome)
    ensures r.state == s.(reg := r.state.reg)
    ensures r.Done? <==> -8 <= a < 8 && -8 <= b < 8
    ensures r.Done? ==> Get(r.state.reg, a) == Ok((Get(s.reg, a).value * Get(s.reg, b).value) % 256)
  {
    Alu(s, "MUL", a, b)
  }

  function Xor(s: State, a: int, b: int): (r: Outcome)
    ensures r.state == s.(reg := r.state.reg)
    ensures r.Done? <==> -8 <= a < 8 && -8 <= b < 8
    ensures r.Done? ==> Get(r.state.reg, a) == Ok(Xor8(Get(s.reg, a).value, Get(s.reg, b).value))
  {
    Alu(s, "XOR", a, b)
  }

  function And(s: State, a: int, b: int): (r: Outcome)
    ensures r.state == s.(reg := r.state.reg)
    ensures r.Done? <==> -8 <= a < 8 && -8 <= b < 8
    ensures r.Done? ==> Get(r.state.reg, a) == Ok(And8(Get(s.reg, a).value, Get(s.reg, b).value))
  {
    Alu(s, "AND", a, b)
  }

  function Or(s: State, a: int, b: int): (r: Outcome)
    ensures r.state == s.(reg := r.state.reg)
    ensures r.Done? <==> -8 <= a < 8 && -8 <= b < 8
    ensures r.Done? ==> Get(r.state.reg, a) == Ok(Or8(Get(s.reg, a).value, Get(s.reg, b).value))
  {
    Alu(s, "OR", a, b)
  }

  function Cmp(s: State, a: int, b: int): (r: Outcome)
    ensures r.Done? <==> -8 <= a < 8 && -8 <= b < 8
    ensures r.Done? ==> r.state == s.(fl := Compare(Get(s.reg, a).value, Get(s.reg, b).value))
    ensures r.Raised? ==> r.state == s
  {
    Alu(s, "CMP", a, b)
  }

  /** The state with the stack pointer moved by `delta`, unmasked. */
  function MoveSp(s: State, delta: int): (t: State)
    ensures t.reg[SP] == s.reg[SP] + delta
    ensures forall i :: 0 <= i < 8 && i != SP ==> t.reg[i] == s.reg[i]
    ensures t == s.(reg := t.reg)
  {
    s.(reg := s.reg[SP := s.reg[SP] + delta])
  }

  /** PUSH: decrement SP, then copy the register (read after the decrement)
      to the cell SP addresses. */
  function Push(s: State, a: int, b: int): (r: Outcome)
    ensures r.state.reg == s.reg[SP := s.reg[SP] - 1]
    ensures r.state == s.(reg := r.state.reg, ram := r.state.ram)
    ensures r.Done? <==> -8 <= a < 8 && -256 <= s.reg[SP] - 1 < 256
    ensures r.Done? ==> RamRead(r.state, s.reg[SP] - 1) == Get(r.state.reg, a)
    ensures r.Raised? ==> r.state.ram == s.ram
    ensures forall j :: PyIndex(j, 256) != PyIndex(s.reg[SP] - 1, 256) ==> RamRead(r.state, j) == RamRead(s, j)
  {
    var t := MoveSp(s, -1);
    match Get(t.reg, a)
    case Err(e) => Raised(e, t)
    case Ok(v) => RamWrite(t, v, t.reg[SP])
  }

  /** POP: copy the cell SP addresses into the register, then increment SP. */
  function Pop(s: State, a: int, b: int): (r: Outcome)
    ensures r.Done? <==> -8 <= a < 8 && -256 <= s.reg[SP] < 256
    ensures r.Raised? ==> r.state == s
    ensures r.state == s.(reg := r.state.reg)
    ensures r.Done? && PyIndex(a, 8) != Some(SP) ==>
              Ok(r.state.reg[PyIndex(a, 8).value]) == RamRead(s, s.reg[SP]) && r.state.reg[SP] == s.reg[SP] + 1
    ensures r.Done? && PyIndex(a, 8) == Some(SP) ==> Ok(r.state.reg[SP] - 1) == RamRead(s, s.reg[SP])
    ensures r.Done? ==> forall i :: 0 <= i < 8 && i != SP && Some(i) != PyIndex(a, 8) ==> r.state.reg[i] == s.reg[i]
  {
    match RamRead(s, s.reg[SP])
    case Err(e) => Raised(e, s)
    case Ok(v) =>
      match Set(s.reg, a, v)
      case Err(e) => Raised(e, s)
      case Ok(reg) => Done(MoveSp(s.(reg := reg), 1))
  }

  /** CALL: decrement SP, store `pc + 2` at SP, then jump to the register's
      value (read after the decrement). */
  function Call(s: State, a: int, b: int): (r: Outcome)
    ensures r.state.reg == s.reg[SP := s.reg[SP] - 1]
    ensures r.state == s.(reg := r.state.reg, ram := r.state.ram, pc := r.state.pc)
    ensures r.Done? <==> -8 <= a < 8 && -256 <= s.reg[SP] - 1 < 256
    ensures -256 <= s.reg[SP] - 1 < 256 ==> RamRead(r.state, s.reg[SP] - 1) == Ok(s.pc + 2)
    ensures r.Done? ==> Ok(r.state.pc) == Get(r.state.reg, a)
    ensures r.Raised? ==> r.state.pc == s.pc
    ensures forall j :: PyIndex(j, 256) != PyIndex(s.reg[SP] - 1, 256) ==> RamRead(r.state, j) == RamRead(s, j)
  {
    var t := MoveSp(s, -1);
    match RamWrite(t, s.pc + 2, t.reg[SP])
    case Raised(e, u) => Raised(e, u)
    case Done(u) =>
      match Get(u.reg, a)
      case Err(e) => Raised(e, u)
      case Ok(target) => Done(u.(pc := target))
  }

  /** RET: load pc from the cell SP addresses, then increment SP. */
  function Ret(s: State, a: int, b: int): (r: Outcome)
    ensures r.Done? <==> -256 <= s.reg[SP] < 256
    ensures r.Done? ==> Ok(r.state.pc) == RamRead(s, s.reg[SP]) && r.state.reg[SP] == s.reg[SP] + 1
    ensures r.state == s.(reg := r.state.reg, pc := r.state.pc)
    ensures r.Raised? ==> r.state == s
    ensures forall i :: 0 <= i < 8 && i != SP ==> r.state.reg[i] == s.reg[i]
  {
    match RamRead(s, s.reg[SP])
    case Err(e) => Raised(e, s)
    case Ok(v) => Done(MoveSp(s.(pc := v), 1))
  }

  function Hlt(s: State, a: int, b: int): (r: Outcome)
    ensures r == Done(s.(running := false))
  {
    Done(s.(running := false))
  }

  function Jmp(s: State, a: int, b: int): (r: Outcome)
    ensures r.Done? <==> -8 <= a < 8
    ensures r.Done? ==> Ok(r.state.pc) == Get(s.reg, a) && r.state == s.(pc := r.state.pc)
    ensures r.Raised? ==> r.state == s
  {
    match Get(s.reg, a)
    case Err(e) => Raised(e, s)
    case Ok(target) => Done(s.(pc := target))
  }

  /** Python's `FL & 0b1`. */
  function EqualBit(fl: int): (e: int)
    ensures e in {0, 1}
    ensures (fl - e) % 2 == 0
  {
    fl % 2
  }

  /** JEQ: on the not-taken path the handler itself steps over its two bytes. */
  function Jeq(s: State, a: int, b: int): (r: Outcome)
    ensures r.state == s.(pc := r.state.pc)
  {
    if EqualBit(s.fl) == 1 then Jmp(s, a, b)
    else Done(s.(pc := s.pc + 2))
  }

  function Jne(s: State, a: int, b: int): (r: Outcome)
    ensures r.state == s.(pc := r.state.pc)
  {
    if EqualBit(s.fl) == 0 then Jmp(s, a, b)
    else Done(s.(pc := s.pc + 2))
  }

  /** The dispatch table `instructions`: opcode to handler. */
  const Instructions: map<int, (State, int, int) -> Outcome> :=
    map[LDI := Ldi, PRN := Prn, ADD := Add, MUL := Mul, PUSH := Push, POP := Pop,
        HLT := Hlt, CALL := Call, RET := Ret, CMP := Cmp, JMP := Jmp, JEQ := Jeq,
        JNE := Jne, XOR := Xor, AND := And, OR := Or]

  /** The opcodes the dispatch table knows are exactly the sixteen above. */
  lemma InstructionsKeys(ir: int)
    ensures ir in Instructions <==> ir in {LDI, PRN, ADD, MUL, PUSH, POP, HLT, CALL, RET, CMP, JMP, JEQ, JNE, XOR, AND, OR}
  {
  }

  // ---------------------------------------------------------------- the loop

  /** `(IR >> 6) + 1`; Python's shift floors, as Dafny's division by a positive
      divisor does. */
  function InstructionLength(ir: int): (n: int)
    ensures 0 <= ir < 256 ==> 1 <= n <= 4
  {
    ir / 64 + 1
  }

  /** Bit 4 of `IR` (`IR & 0b00010000`): the handler sets pc itself. */
  predicate SetsPc(ir: int) {
    (ir / 16) % 2 == 1
  }

  /** On a byte, `SetsPc` is the bit test `IR & 0b00010000 != 0`. */
  lemma SetsPcIsBitTest(ir: int)
    requires 0 <= ir < 256
    ensures SetsPc(ir) <==> (ir as bv8) & 0x10 != 0
  {
  }

  /** One iteration of the body of `run`: fetch IR and both operand bytes,
      dispatch (an unknown opcode only reports), then advance pc by the
      instruction length unless bit 4 of IR is set. Both operand bytes are
      read whatever the instruction, so a pc outside [-256, 253] raises before
      anything changes. */
  function Step(s: State): (r: Outcome)
    ensures !(-256 <= s.pc <= 253) ==> r == Raised(IndexError, s)
  {
    match (RamRead(s, s.pc), RamRead(s, s.pc + 1), RamRead(s, s.pc + 2))
    case (Ok(ir), Ok(a), Ok(b)) =>
      var handled :=
        if ir in Instructions then Instructions[ir](s, a, b)
        else Done(s.(out := s.out + [InvalidInstruction]));
      if handled.Raised? || SetsPc(ir) then handled
      else Done(handled.state.(pc := handled.state.pc + InstructionLength(ir)))
    case _ => Raised(IndexError, s)
  }

  /** `run`, cut off after `fuel` iterations: the loop stops when the machine
      is no longer running, or when an iteration raises. */
  function Run(s: State, fuel: nat): (r: Outcome)
    ensures !s.running || fuel == 0 ==> r == Done(s)
    ensures !(-256 <= s.pc <= 253) ==> r == if s.running && fuel > 0 then Raised(IndexError, s) else Done(s)
    decreases fuel
  {
    if !s.running || fuel == 0 then Done(s)
    else
      match Step(s)
      case Raised(e, t) => Raised(e, t)
      case Done(t) => Run(t, fuel - 1)
  }

  /** One iteration of a running machine, then the rest of the fuel. */
  lemma RunUnfolds(s: State, fuel: nat)
    requires s.running && fuel > 0
    ensures Run(s, fuel) == match Step(s)
                            case Raised(e, t) => Raised(e, t)
                            case Done(t) => Run(t, fuel - 1)
  {
  }
}

# LS-8 emulator, modelled in Dafny

This project models the LS-8 emulator: the `CPU` class of `ls8/cpu.py`. The LS-8 is an
8-bit register machine. It has eight registers (register 7 is the stack pointer),
256 cells of memory, a program counter, a flags register FL and a running flag. Its
`run` loop fetches the opcode at pc and the two bytes after it. It dispatches the opcode
through a table of handlers and then advances pc by `(IR >> 6) + 1` unless bit 4 of the
opcode says the handler set pc itself.

The project has four modules:

- `PyList` (`python_list.dfy`): Python's list indexing. An index `i` into a list of
  length `n` is valid for `-n <= i < n`, and a negative index counts from the end. Any
  other index raises `IndexError`. Exceptions are values of type `Exception`.
- `Ls8Machine` (`ls8_machine.dfy`): the machine as values. `State` holds the fields of
  a `CPU` object. Each handler, `alu`, `ram_read`, `ram_write`, one loop iteration
  (`Step`) and a fuel-bounded `run` (`Run`) is a function of the state before. It gives
  an `Outcome`: either `Done(state)` or `Raised(exception, state)`. In `Raised`, the state
  is the partially updated one that Python leaves when it raises. For example, PUSH has
  already decremented SP when its memory write raises. Registers and memory are
  sequences whose types fix their lengths at 8 and 256. The dispatch table
  `Instructions` is a map from opcode to handler function, like the Python dict.
- `Ls8Cpu` (`ls8_cpu.dfy`): the class `CPU`. Its fields are `reg` and `ram` (arrays of
  8 and 256 ints), `pc`, `fl` and `running`. Each method updates them in place as the
  Python code does. Each method is proved to leave the object in the state that the
  matching `Ls8Machine` function gives. It raises exactly when that function does.
  `Run` is a `while running` loop whose invariant ties it to `Ls8Machine.Run`.
- `Ls8Properties` (`ls8_properties.dfy`): the promised properties as lemmas. They cover
  the ALU, the stack, CALL/RET, the branches, the loop's dispatch and pc rule, the output
  trace, and a small whole program.

Policies that follow the code:

- Registers and memory cells hold unbounded integers. Only the ALU masks with
  `& 0xFF`. The stack pointer arithmetic of PUSH, POP, CALL and RET is not masked. The
  return address CALL stores (`pc + 2`) and the immediate of LDI are not masked either.
- The stack pointer starts at 0, not 0xF4. The first PUSH therefore makes it -1. By
  Python's negative indexing it then writes memory cell 255 (`FirstPushWritesTopCell`).
  The LS-8 architecture starts R7 at 0xF4 on power-on, but `ls8/cpu.py:31` sets 0, and the model follows the code.
- Out-of-range addresses and register numbers are not rejected up front. The model
  indexes as Python does: negative indices wrap once, and anything else raises
  `IndexError`, which ends `run`. This includes the unconditional reads of `pc + 1` and
  `pc + 2`. The properties therefore state their range conditions as preconditions,
  such as `-256 <= SP - 1 < 256` before a PUSH.
- `x & 0xFF` is `x % 256`, since Dafny's `%` with a positive divisor agrees with Python's.
  `IR >> 6` is `IR / 64`, and bit 4 of IR is `(IR / 16) % 2`.
- `(x ^ y) & 0xFF`, `(x & y) & 0xFF` and `(x | y) & 0xFF` are computed on the low bytes of
  `x` and `y` as `bv8` values. The low byte of a bitwise operation on Python's integers
  depends only on the low bytes of its operands.
- Output is modelled as a ghost trace `out` of events. PRN appends `Printed(value)`. An
  unknown opcode appends `InvalidInstruction`.

## Model

| member | source | states |
|---|---|---|
| `PyList.PyIndex` | ls8/cpu.py:261 | An index is accepted exactly when it lies in [-n, n). The position it selects is below n and is the index itself or the index plus n. |
| `PyList.Get` | ls8/cpu.py:261 | `xs[i]` succeeds exactly for -len <= i < len. It gives `xs[i]` for i >= 0 and `xs[len + i]` for i < 0. Otherwise it raises IndexError. |
| `PyList.Set` | ls8/cpu.py:266 | `xs[i] = v` succeeds for the same indices and keeps the length. Otherwise it raises IndexError. |
| `PyList.SetThenGet` | ls8/cpu.py:258-266 | Reading back a written cell gives the written value. Every cell at another position reads as before. |
| `Ls8Machine.Init` | ls8/cpu.py:26-33 | A fresh machine is running with pc 0, FL 0 and no output. Every register, the stack pointer included, and every memory cell is 0. |
| `Ls8Machine.Boot` | ls8/cpu.py:206-217 | A fresh machine whose memory holds the program image from address 0, then zeros. |
| `Ls8Machine.RamRead` | ls8/cpu.py:258-261 | `ram_read` succeeds exactly for addresses in [-256, 256). |
| `Ls8Machine.RamWrite` | ls8/cpu.py:263-266 | `ram_write` succeeds exactly for addresses in [-256, 256) and changes nothing but memory. An out-of-range write raises and changes nothing. |
| `Ls8Machine.Low8` | ls8/cpu.py:228 | `x & 0xFF` is a byte congruent to x modulo 256. |
| `Ls8Machine.Xor8` | ls8/cpu.py:242-244 | XOR followed by `& 0xFF` gives the byte whose bits are the XOR of the operands' low bytes. It is 0 exactly when the low bytes agree, and XOR with a zero byte gives the other operand's low byte. |
| `Ls8Machine.And8` | ls8/cpu.py:246-248 | AND followed by `& 0xFF` gives a byte no larger than either low byte. AND with 0xFF gives the other low byte, and AND with 0 gives 0. |
| `Ls8Machine.Or8` | ls8/cpu.py:250-252 | OR followed by `& 0xFF` gives a byte no smaller than either low byte. OR with 0 gives the other low byte, and OR with 0xFF gives 0xFF. |
| `Ls8Machine.AluValue` | ls8/cpu.py:226-252 | The value written back for ADD, MUL, XOR, AND and OR always lies in [0, 255]. |
| `Ls8Machine.Compare` | ls8/cpu.py:234-240 | FL is one of 1, 2, 4, and is 1, 4 or 2 exactly when the values are equal, less or greater. |
| `Ls8Machine.Alu` | ls8/cpu.py:223-256 | The tag is checked first: an unknown tag raises UnsupportedAluOperation. Any raise leaves the state unchanged. |
| `Ls8Machine.Ldi` | ls8/cpu.py:54-59 | Succeeds exactly for register numbers in [-8, 8). The register then reads as the immediate. Every other register reads as before, no other field changes, and a raise changes nothing. |
| `Ls8Machine.Prn` | ls8/cpu.py:61-66 | Succeeds exactly for valid register numbers and appends the register's value to the output. Nothing else changes. |
| `Ls8Machine.Add` | ls8/cpu.py:69-74 | Succeeds exactly when both register numbers are valid. `reg[a]` then reads `(reg[a] + reg[b]) % 256`. Nothing but the registers changes. |
| `Ls8Machine.Mul` | ls8/cpu.py:76-81 | Succeeds exactly when both register numbers are valid. `reg[a]` then reads `(reg[a] * reg[b]) % 256`. Nothing but the registers changes. |
| `Ls8Machine.Xor` | ls8/cpu.py:83-90 | Succeeds exactly when both register numbers are valid. `reg[a]` then reads the low byte of `reg[a] ^ reg[b]`. Nothing but the registers changes. |
| `Ls8Machine.And` | ls8/cpu.py:93-98 | Succeeds exactly when both register numbers are valid. `reg[a]` then reads the low byte of `reg[a] & reg[b]`. Nothing but the registers changes. |
| `Ls8Machine.Or` | ls8/cpu.py:101-106 | Succeeds exactly when both register numbers are valid. `reg[a]` then reads the low byte of `reg[a] \| reg[b]`. Nothing but the registers changes. |
| `Ls8Machine.Cmp` | ls8/cpu.py:166-171 | Succeeds exactly when both register numbers are valid. Only FL then changes, to the compare pattern of `reg[a]` and `reg[b]`. A raise changes nothing. |
| `Ls8Machine.MoveSp` | ls8/cpu.py:116 | Moves the stack pointer by the given amount, unmasked. Every other register and field is unchanged. |
| `Ls8Machine.Push` | ls8/cpu.py:108-119 | SP is decremented whether or not the write then raises. PUSH succeeds exactly when the register number is valid and SP-1 addresses memory. The cell at SP-1 then holds the register, read after the decrement. Every other cell reads as before, and a raise leaves memory alone. Only registers and memory change. |
| `Ls8Machine.Pop` | ls8/cpu.py:121-132 | Succeeds exactly when SP addresses memory and the register number is valid. The register gets the cell at SP, and then SP goes up by one. When the register is SP itself, SP ends as the loaded value plus one. The other registers keep their values. A raise changes nothing. Only registers change. |
| `Ls8Machine.Call` | ls8/cpu.py:134-145 | SP is decremented whether or not a later part raises. CALL succeeds exactly when SP-1 addresses memory and the register number is valid. The cell at SP-1 holds pc + 2 whenever SP-1 addresses memory, even if the register read then raises. On success pc is the register, read after the decrement, and on a raise pc is unchanged. Every other cell reads as before. Only registers, memory and pc change. |
| `Ls8Machine.Ret` | ls8/cpu.py:147-157 | Succeeds exactly when SP addresses memory. pc becomes the cell at SP and SP goes up by one. The other registers keep their values, and a raise changes nothing. Only registers and pc change. |
| `Ls8Machine.Hlt` | ls8/cpu.py:159-164 | Always succeeds, clears the running flag and changes nothing else. |
| `Ls8Machine.Jmp` | ls8/cpu.py:173-180 | Succeeds exactly for valid register numbers. pc becomes the register's value, and nothing else changes. |
| `Ls8Machine.EqualBit` | ls8/cpu.py:188 | `FL & 1` is 0 or 1, and it has the same parity as FL. |
| `Ls8Machine.Jeq` | ls8/cpu.py:185-191 | Changes nothing but pc. Its branches are stated in `ConditionalJumps`. |
| `Ls8Machine.Jne` | ls8/cpu.py:193-198 | Changes nothing but pc. Its branches are stated in `ConditionalJumps`. |
| `Ls8Machine.InstructionsKeys` | ls8/cpu.py:35-52 | The dispatch table `Instructions`, a map from opcode to handler, has exactly the sixteen opcodes as keys. |
| `Ls8Machine.InstructionLength` | ls8/cpu.py:298 | For a byte opcode, the length is between 1 and 4. |
| `Ls8Machine.SetsPcIsBitTest` | ls8/cpu.py:306 | On every byte, the test `SetsPc` used by the loop is the bit test `IR & 0b00010000 != 0`. |
| `Ls8Machine.Step` | ls8/cpu.py:294-300 | The operand bytes are read whatever the opcode, so a pc outside [-256, 253] raises IndexError before anything changes. |
| `Ls8Machine.Run` | ls8/cpu.py:291-307 | A halted machine, or one with no fuel left, is returned unchanged. A running machine whose pc is out of range raises IndexError at once. |
| `Ls8Cpu.CPU.constructor` | ls8/cpu.py:26-33 | The new object is in the initial state with fresh register and memory arrays. |
| `Ls8Cpu.CPU.RamRead` | ls8/cpu.py:258-261 | Returns what `Ls8Machine.RamRead` gives for the object's memory. |
| `Ls8Cpu.CPU.RamWrite` | ls8/cpu.py:263-266 | Updates memory in place as `Ls8Machine.RamWrite` says, and raises when it does. |
| `Ls8Cpu.CPU.Alu` | ls8/cpu.py:223-256 | Updates the object as `Ls8Machine.Alu` says. Returns the new `reg[reg_a]`, or the exception. |
| `Ls8Cpu.CPU.Ldi` | ls8/cpu.py:54-59 | In place, as `Ls8Machine.Ldi`. |
| `Ls8Cpu.CPU.Prn` | ls8/cpu.py:61-66 | In place, as `Ls8Machine.Prn`. |
| `Ls8Cpu.CPU.Add` | ls8/cpu.py:69-74 | In place, as `Ls8Machine.Add`. |
| `Ls8Cpu.CPU.Mul` | ls8/cpu.py:76-81 | In place, as `Ls8Machine.Mul`. |
| `Ls8Cpu.CPU.Xor` | ls8/cpu.py:83-90 | In place, as `Ls8Machine.Xor`. |
| `Ls8Cpu.CPU.And` | ls8/cpu.py:93-98 | In place, as `Ls8Machine.And`. |
| `Ls8Cpu.CPU.Or` | ls8/cpu.py:101-106 | In place, as `Ls8Machine.Or`. |
| `Ls8Cpu.CPU.Cmp` | ls8/cpu.py:166-171 | In place, as `Ls8Machine.Cmp`. |
| `Ls8Cpu.CPU.Push` | ls8/cpu.py:108-119 | In place, as `Ls8Machine.Push`, including the partial update when the write raises. |
| `Ls8Cpu.CPU.Pop` | ls8/cpu.py:121-132 | In place, as `Ls8Machine.Pop`. |
| `Ls8Cpu.CPU.Call` | ls8/cpu.py:134-145 | In place, as `Ls8Machine.Call`, including the partial updates when it raises. |
| `Ls8Cpu.CPU.Ret` | ls8/cpu.py:147-157 | In place, as `Ls8Machine.Ret`. |
| `Ls8Cpu.CPU.Hlt` | ls8/cpu.py:159-164 | In place, as `Ls8Machine.Hlt`. |
| `Ls8Cpu.CPU.Jmp` | ls8/cpu.py:173-180 | In place, as `Ls8Machine.Jmp`. |
| `Ls8Cpu.CPU.Jeq` | ls8/cpu.py:185-191 | In place, as `Ls8Machine.Jeq`. |
| `Ls8Cpu.CPU.Jne` | ls8/cpu.py:193-198 | In place, as `Ls8Machine.Jne`. |
| `Ls8Cpu.CPU.Dispatch` | ls8/cpu.py:302-303 | Calls the handler the table binds to the opcode, and leaves the object as `Ls8Machine.Instructions[ir]` says. |
| `Ls8Cpu.CPU.Step` | ls8/cpu.py:294-307 | One loop iteration in place, as `Ls8Machine.Step`. |
| `Ls8Cpu.CPU.Run` | ls8/cpu.py:291-307 | The `while running` loop, cut off after `fuel` iterations. It ends in the state `Ls8Machine.Run` gives and raises when that does. |
| `Ls8Properties.RamWriteThenRead` | ls8/cpu.py:258-266 | For every address in range, `ram_write(v, addr)` then `ram_read(addr)` gives v. Every other cell reads as before. |
| `Ls8Properties.ArithmeticAluWritesRegA` | ls8/cpu.py:226-256 | ADD, MUL, XOR, AND and OR with valid register numbers write a byte into `reg[a]`. `reg[b]` (when it is another cell), every other register, memory, FL and pc are unchanged. An invalid register number raises IndexError and changes nothing. |
| `Ls8Properties.AddMulAreModular` | ls8/cpu.py:226-232 | ADD and MUL give the sum and product modulo 256. |
| `Ls8Properties.CmpSetsFlags` | ls8/cpu.py:234-240 | CMP sets FL to 1, 4 or 2 exactly when equal, less or greater. Registers, memory and pc are unchanged. |
| `Ls8Properties.AluRejectsUnknownTag` | ls8/cpu.py:253-254 | Any other tag raises UnsupportedAluOperation and changes nothing. |
| `Ls8Properties.PushThenPop` | ls8/cpu.py:108-132 | PUSH of `reg[src]` then POP into `reg[dst]` (dst not SP) leaves the pushed value in `reg[dst]` and SP as before. Every other register, pc and FL are unchanged. |
| `Ls8Properties.FirstPushWritesTopCell` | ls8/cpu.py:31 | The first PUSH on a fresh machine sets SP to -1 and writes cell 255. Every other cell is unchanged. |
| `Ls8Properties.CallPushesReturnAddress` | ls8/cpu.py:134-145 | CALL stores `pc + 2` at the decremented SP and sets pc to the register's value. |
| `Ls8Properties.RetUndoesCall` | ls8/cpu.py:147-157 | A later RET that finds SP and its cell as CALL left them returns to `pc + 2` and restores SP. |
| `Ls8Properties.CallThenRetSteps` | ls8/cpu.py:134-157 | The same for whole loop iterations: CALL's jump is not followed by a pc advance, and RET resumes at `p + 2`. |
| `Ls8Properties.ConditionalJumps` | ls8/cpu.py:173-198 | JEQ is JMP when `FL & 1 == 1`, and otherwise adds 2 to pc. JNE is the opposite. Neither changes anything but pc. |
| `Ls8Properties.OperandCount` | ls8/cpu.py:54-198 | Each opcode's documented operand count is at most 2. |
| `Ls8Properties.OpcodeLayout` | ls8/cpu.py:6-21 | For every opcode, `(IR >> 6) + 1` is its operand count plus one. Bit 4 is set exactly for CALL, RET, JMP, JEQ and JNE. |
| `Ls8Properties.StepUnknownOpcode` | ls8/cpu.py:302-307 | An unknown opcode leaves registers, memory, FL and the running flag unchanged and reports once. pc advances by `(IR >> 6) + 1` exactly when bit 4 is clear. |
| `Ls8Properties.StepKnownOpcode` | ls8/cpu.py:294-307 | A known opcode runs its handler. For opcodes with bit 4 clear, the handler leaves pc alone and the iteration moves pc past the instruction. |
| `Ls8Properties.HltEndsRun` | ls8/cpu.py:159-164 | HLT clears the running flag, moves pc past itself, and `run` stops there. |
| `Ls8Properties.FetchesProgram` | ls8/cpu.py:294-300 | A machine whose memory holds a program followed by zeros fetches the program's bytes at pc, and zero past its end. |
| `Ls8Properties.StepLdi` | ls8/cpu.py:54-59 | An LDI iteration sets the register to the immediate and moves pc on by 3. Nothing else changes. |
| `Ls8Properties.StepMul` | ls8/cpu.py:76-81 | A MUL iteration sets `reg[a]` to the product modulo 256 and moves pc on by 3. Nothing else changes. |
| `Ls8Properties.StepPrn` | ls8/cpu.py:61-66 | A PRN iteration prints the register and moves pc on by 2. Nothing else changes. |
| `Ls8Properties.HandlerKeepsOutput` | ls8/cpu.py:35-52 | No handler removes printed output, and every handler except PRN leaves it unchanged. |
| `Ls8Properties.StepKeepsOutput` | ls8/cpu.py:294-307 | The output before an iteration is a prefix of the output after it, raised or not. |
| `Ls8Properties.RunKeepsOutput` | ls8/cpu.py:291-307 | The output before `run` is a prefix of the output after it, for any fuel. |
| `Ls8Properties.HandlerKeepsFlags` | ls8/cpu.py:35-52 | Every handler except CMP leaves FL alone, and CMP keeps FL within 0, 1, 2 and 4. Every handler except HLT leaves the running flag alone. |
| `Ls8Properties.StepKeepsFlags` | ls8/cpu.py:294-307 | One iteration keeps FL within 0, 1, 2 and 4, raised or not. |
| `Ls8Properties.StepKeepsRunning` | ls8/cpu.py:294-307 | An iteration that changes the running flag fetched HLT. |
| `Ls8Properties.RunKeepsFlags` | ls8/cpu.py:291-307 | FL stays within 0, 1, 2 and 4 for any fuel, and a stopped machine never runs again. |
| `Ls8Properties.BootedFlagsArePatterns` | ls8/cpu.py:28 | From power-on (FL = 0), FL only ever holds 0 or a CMP pattern. |
| `Ls8Properties.RunAdditive` | ls8/cpu.py:294-307 | Running m iterations and then n more is the same as running m + n. |
| `Ls8Properties.UnknownOpcodeSpins` | ls8/cpu.py:302-307 | An unknown opcode with bit 4 set never moves pc. For every fuel, `run` keeps reporting it and changes nothing else. |
| `Ls8Properties.InvalidInstructionReported` | ls8/cpu.py:302-307 | On the program `0x02, HLT`, the first iteration reports one invalid instruction and moves pc to 1. |
| `Ls8Properties.InvalidInstructionThenHalt` | ls8/cpu.py:291-307 | An unknown byte followed by HLT reports one invalid instruction and halts within two iterations. |
| `Ls8Properties.XorTwiceRestores` | ls8/cpu.py:242-244 | XOR-ing twice with the same operand gives back the first operand's low byte. |
| `Ls8Properties.MultiplyLoadsFactors` | ls8/cpu.py:54-59 | On the multiply program, the first two iterations (LDI R0,8 and LDI R1,9) load the factors and move pc to 6. |
| `Ls8Properties.MultiplyMultiplies` | ls8/cpu.py:76-81 | The third iteration (MUL R0,R1) puts the product modulo 256 in R0 and moves pc to 9. |
| `Ls8Properties.MultiplyTimesNine` | ls8/cpu.py:76-81 | With 8 and 9 loaded, that iteration leaves 72 in R0. |
| `Ls8Properties.MultiplyPrintsAndHalts` | ls8/cpu.py:291-307 | Iterations four and five print R0 and halt, with pc on the byte after HLT. |
| `Ls8Properties.MultiplyComputes` | ls8/cpu.py:291-307 | Five iterations from the start equal two iterations from the state after the multiply. |
| `Ls8Properties.MultiplyPrints72` | ls8/cpu.py:291-307 | A machine holding the multiply program, with nothing printed yet, prints 72 once and halts within five iterations. |
| `Ls8Properties.BootedMultiplyPrints72` | ls8/cpu.py:291-307 | The same for the booted program `LDI R0,8; LDI R1,9; MUL R0,R1; PRN R0; HLT`. |

## Left out

- `load` (ls8/cpu.py:204-217) reads a file. The program image is instead given as the initial memory (`Boot`).
- `trace` (ls8/cpu.py:268-286) only prints. The text PRN prints is reduced to the value it reports.
- `run` need not terminate, so `Run` takes a fuel bound. A program that runs longer than its fuel ends `Done` with the running flag still set.
- `CPU.Run` returns an exception as a value where Python's `run` propagates it. A raised exception ends the loop in both.
- The ALU tag is a string as in the source. Python exceptions other than `IndexError` and the ALU's own cannot arise, because every value involved is an integer.

# 6502 emulator core in Dafny

A model of the two layers of a small MOS 6502 emulator, with proofs:

- **the memory bus** (`Computer/Memory.py`, class `Mem`): 65,536 cells
  addressed through `& 0xFFFF`, zero-filled by `init`, plus `WriteWord`,
  which stores a 16-bit word low byte first with no address wrap and charges
  two cycles;
- **the CPU** (`Computer/Cpu.py`, class `CPU`): the registers PC, SP, A, X, Y,
  the status byte with its per-bit flag accessors, `reset`, the fetch
  primitives that advance PC and charge cycles, and the cycle-budgeted `exec`
  loop. The loop implements LDA immediate, zero page, zero page X, absolute
  and absolute X, and JSR. It skips any other byte.

Files:

- `memory.dfy` (module `Memory`): pure functions on a memory image (`Load`,
  `Store`, `StoreWord`, `Zeroed`) and the class `Mem`. The class keeps the
  cells in an `array<int>` and updates them in place.
- `cpu.dfy` (module `Cpu`) has two halves.
  - The first half is a pure description of the instruction set the source
    implements. `Decode` maps an opcode byte to an `Instruction`, with tables
    of sizes and cycle costs. `EffectiveAddress` gives the address an LDA
    reads. `Step` is one instruction on a `Machine` value, and `Run` is a
    whole cycle budget.
  - The second half is the class `CPU`, written statement by statement after
    the source. `CPU.Exec` threads the cycle counter through the fetch
    primitives exactly as `cycles_lst` is threaded. It is proved to leave the
    CPU and memory in the state `Run` computes and to return the cycles `Run`
    uses.
- `cpu_properties.dfy` (module `CpuProperties`): lemmas about `Step` and
  `Run`. They cover flags, cycle costs, wrap-around, byte order, and what a
  whole run preserves.
- `cpu_tests.dfy` (module `CpuTests`): the unit-test scenarios of `main.py`
  that use implemented opcodes, each run through the classes. Each test
  promises the registers, flags and cycle counts the test expects.

Modelling choices:

- Python's `a & 0xFFFF` is Dafny's `a % 65536` (`Memory.Wrap`), for negative
  integers as well. `d >> 8` is `d / 256`.
- PC is never masked by the source, so it is an unbounded `nat`. Memory reads
  mask it.
- SP is an unbounded `int`. JSR uses it directly as a memory address, with no
  `0x0100` page base (`Computer/Cpu.py:163-164`). After `reset` the return
  address therefore lands at `0x00FE`/`0x00FF`.
  - On a real 6502, SP is an 8-bit offset into page one (address
    `0x0100 + SP`), and registers stay within their width. The code neither
    adds the page base nor masks SP or PC. The model follows the code, and
    `CpuTests.TestJsr` states where the code puts the return address.
- The status byte is a `bv8`. The C/Z/I/D/B/V/N properties
  (`Computer/Cpu.py:41-75`) are the bit constants `CARRY` … `NEGATIVE`, read
  with `FlagOf` (`get_flag`) and written with `CPU.SetFlag` (`set_flag`).
- `PLATFORM_BIG_ENDIAN` is a constant field fixed by the constructor's
  parameter `bigEndian`. Both byte orders are modelled. On a big-endian host,
  JSR jumps to the byte-swapped operand word (`CpuProperties.JsrTargetByteOrder`).

## Model

| member | source | states |
|---|---|---|
| Memory.Wrap | Computer/Memory.py:11-15 | `address & 0xFFFF` is a valid cell index congruent to the address modulo 65536, for every integer |
| Memory.Load | Computer/Memory.py:11-12 | a read at any integer address is in range and yields a byte |
| Memory.Store | Computer/Memory.py:14-15 | a write keeps a well-formed image, is read back at its address, and changes no cell but `address & 0xFFFF` |
| Memory.LoadAfterStore | Computer/Memory.py:11-15 | read after write: every address congruent to the written one modulo 65536 reads the new value; every other address reads its old value |
| Memory.Zeroed | Computer/Memory.py:8-9 | the image has `MAX_MEM` byte cells and every address reads 0 |
| Memory.StoreWord | Computer/Memory.py:20-22 | `WriteWord`'s cells: low byte at `address` and high byte at `address + 1` recompose the word; no other cell changes |
| Memory.Mem.constructor | Computer/Memory.py:6-9 | a fresh array of 65,536 zero cells |
| Memory.Mem.Get | Computer/Memory.py:11-12 | `mem[address]` is `Load` of the cells at `address & 0xFFFF` |
| Memory.Mem.Set | Computer/Memory.py:14-15 | `mem[address] = value` updates the array to `Store` of the old cells |
| Memory.Mem.Init | Computer/Memory.py:17-18 | `init` replaces the cells with a fresh zeroed image |
| Memory.Mem.WriteWord | Computer/Memory.py:20-23 | the cells become `StoreWord` of the old ones and the counter drops by exactly 2 |
| Cpu.FlagOf | Computer/Cpu.py:30-32 | `get_flag` is always 0 or 1, and 1 exactly when the bit is set |
| Cpu.WithFlag | Computer/Cpu.py:34-39 | after `set_flag(bit, v)` the flag reads `v`, and every other bit of the status byte is unchanged |
| Cpu.LoadFlags | Computer/Cpu.py:121-123 | after `LDASetStatus`, Z is set iff the value is 0 and N iff it is at least 0x80; bits 0, 2-6 are kept |
| Cpu.ResetStatus | Computer/Cpu.py:86 | `reset` clears flags 0-4, 6 and 7 and keeps bit 5 |
| Cpu.MakeWord | Computer/Cpu.py:107 | the word assembled from two bytes (high shifted left by 8, or-ed with low) is 16-bit, with `low` as its low byte and `high` as its high byte |
| Cpu.SwapBytesInWord | Computer/Cpu.py:90-91 | the result is a 16-bit word with the two low bytes of the argument exchanged |
| Cpu.Decode | Computer/Cpu.py:130-168 | decoding loses no information: the opcode of the decoded instruction is the byte |
| Cpu.PageCrossed | Computer/Cpu.py:156 | the test `(base & 0xFF00) != (address & 0xFF00)`: bits 8-15 of the two addresses differ (`CpuProperties.PageCrossedIff` characterises it for base + X) |
| Cpu.OperandWord | Computer/Cpu.py:146-148 | the operand of abs and abs,X is a 16-bit word whose low byte is the byte after the opcode and whose high byte is the next one |
| Cpu.JsrTarget | Computer/Cpu.py:162 | JSR's target, fetched by `fetchWord`, is a 16-bit word, and on a little-endian host it is the operand word |
| Cpu.BaseCycles | Computer/Cpu.py:131-168 | every instruction costs 1 to 6 cycles before the page penalty, and only an unhandled byte costs 1 |
| Cpu.Cycles | Computer/Cpu.py:151-157 | the cost is the table's, plus one cycle exactly for abs,X when it crosses a page |
| Cpu.StepDefined | Computer/Cpu.py:163-164 | a JSR's `WriteWord` at SP - 2 and SP - 1 stays inside the 65,536 cells, and the return address fits 16 bits, so both stored bytes are bytes |
| Cpu.Defined | Computer/Cpu.py:125-170 | every instruction the budget reaches satisfies `StepDefined` |
| Cpu.EffectiveAddress | Computer/Cpu.py:135-158 | LDA zp and zp,X read page zero; zp,X reads `(operand + X) & 0xFF` |
| Cpu.Step | Computer/Cpu.py:129-168 | one instruction keeps the state well-formed, charges between 1 and 6 cycles, and never changes X, Y or the byte order |
| Cpu.Run | Computer/Cpu.py:125-173 | a budget of 0 or less runs nothing; a positive budget ends with the counter in -5..0, since an instruction begun always completes |
| Cpu.CPU.constructor | Computer/Cpu.py:11-28 | registers from the arguments, status byte 0b00100000, byte order fixed |
| Cpu.CPU.SetFlag | Computer/Cpu.py:34-39 | the status byte becomes `WithFlag` of its old value |
| Cpu.CPU.Reset | Computer/Cpu.py:83-88 | PC = 0xFFFC, SP = 0x0100, A = X = Y = 0, flags cleared with bit 5 kept, memory zero-filled |
| Cpu.CPU.FetchByte | Computer/Cpu.py:93-98 | returns the byte at PC, advances PC by 1 and charges 1 cycle |
| Cpu.CPU.FetchWord | Computer/Cpu.py:100-113 | returns the word at PC, PC + 1 (low byte first), byte-swapped only on a big-endian host; advances PC by 2 and charges 2 |
| Cpu.CPU.ReadByte | Computer/Cpu.py:115-119 | returns the byte at the masked address and charges 1 cycle, changing nothing |
| Cpu.CPU.LoadStatus | Computer/Cpu.py:121-123 | the status byte becomes `LoadFlags` of its old value and A |
| Cpu.CPU.LdaIm | Computer/Cpu.py:131-134 | the LDA # handler leaves the CPU and memory exactly as `Step` says |
| Cpu.CPU.LdaZp | Computer/Cpu.py:135-138 | the LDA zp handler leaves the CPU and memory exactly as `Step` says |
| Cpu.CPU.LdaZpx | Computer/Cpu.py:139-144 | the LDA zp,X handler, including its extra cycle, matches `Step` |
| Cpu.CPU.LdaAbs | Computer/Cpu.py:145-150 | the LDA abs handler matches `Step` |
| Cpu.CPU.LdaAbsx | Computer/Cpu.py:151-160 | the LDA abs,X handler, including the page-crossing cycle, matches `Step` |
| Cpu.CPU.JumpSubroutine | Computer/Cpu.py:161-166 | the JSR handler (word fetch, `SP -= 2`, `WriteWord`, jump, extra cycle) matches `Step` |
| Cpu.CPU.Dispatch | Computer/Cpu.py:130-168 | the opcode dispatch of one loop iteration matches `Step` for every byte |
| Cpu.CPU.Exec | Computer/Cpu.py:125-173 | `exec` ends in the state `Run` computes and returns the cycles it used: 0 for a budget of 0 or less, otherwise between the budget and the budget + 5 |
| CpuProperties.DecodeOpcode | Computer/Cpu.py:16-27 | each of the six opcode constants decodes to its own instruction, and every other byte decodes to an unhandled instruction carrying it |
| CpuProperties.SwapInvolution | Computer/Cpu.py:90-91 | `swapBytesInWord` undoes itself on every 16-bit value |
| CpuProperties.MakeWordIsBitwise | Computer/Cpu.py:148 | the bitwise assembly of the source (LSB or-ed with MSB shifted left by 8) equals the arithmetic word `MakeWord` |
| CpuProperties.PageCrossedIff | Computer/Cpu.py:156 | absolute,X crosses a page iff the low byte of the base plus X exceeds 0xFF |
| CpuProperties.CycleTable | Computer/Cpu.py:131-168 | cycles per instruction: LDA # 2, zp 3, zp,X 4, abs 4, abs,X 4 or 5 on a page crossing, JSR 6, any other byte 1 |
| CpuProperties.LoadStep | Computer/Cpu.py:121-160 | after every LDA, A holds the byte read, Z and N follow it, the other flags, SP, X, Y and memory are unchanged, and PC moves past the instruction |
| CpuProperties.MaskedBitsAgree | Computer/Cpu.py:30-32 | two status bytes equal under a mask have equal flags for every bit of the mask |
| CpuProperties.ZeroPageXWraps | Computer/Cpu.py:139-143 | operand 0x80 with X = 0xFF reads address 0x007F |
| CpuProperties.UnhandledStep | Computer/Cpu.py:167-168 | an unhandled byte advances PC by 1, charges 1 cycle and changes nothing else |
| CpuProperties.JsrStep | Computer/Cpu.py:161-166 | JSR sets PC to the target and SP to SP - 2, stores PC - 1 low byte first at the new SP, and changes no other cell, register or flag; 6 cycles |
| CpuProperties.JsrTargetByteOrder | Computer/Cpu.py:110-111 | on a little-endian host the target's low byte is the first operand byte; on a big-endian host it is the high byte |
| CpuProperties.StepKeepsOtherFlags | Computer/Cpu.py:129-168 | no instruction changes C, I, D, B, V or bit 5 |
| CpuProperties.RunKeepsOtherFlags | Computer/Cpu.py:125-173 | a whole run keeps C, I, D, B, V and bit 5 |
| CpuProperties.RunKeepsIndexRegisters | Computer/Cpu.py:125-173 | a whole run keeps X, Y and the byte order |
| CpuProperties.RunWithoutJsrKeepsMemory | Computer/Cpu.py:125-173 | a run that executes no JSR writes no memory and does not move SP |
| CpuProperties.SingleInstructionRun | Computer/Cpu.py:127-170 | a budget that the first instruction exhausts runs exactly that instruction |
| CpuTests.SetUp | main.py:11-14 | a zeroed memory and a CPU after `reset`: PC 0xFFFC, SP 0x0100, registers 0, status 0x20 |
| CpuTests.TestLdaImmediate | main.py:37-45 | A = 0x84, 2 cycles, Z clear, N set, C/I/D/B/V clear |
| CpuTests.TestLdaImmediateZero | main.py:47-56 | A = 0, 2 cycles, Z set, N clear, C/I/D/B/V clear |
| CpuTests.LdaImmediateRun | main.py:37-56 | LDA # after reset yields the operand, 2 cycles and the matching Z and N |
| CpuTests.TestLdaImmediateShortBudget | main.py:352-356 | a budget of 1 still completes LDA # and reports 2 cycles |
| CpuTests.TestLdaZeroPage | main.py:58-67 | A = 0x37, 3 cycles, Z and N clear |
| CpuTests.LdaZeroPageRun | main.py:58-67 | the LDA zp scenario's run |
| CpuTests.TestLdaZeroPageX | main.py:69-79 | A = 0x37, 4 cycles, Z and N clear |
| CpuTests.TestLdaZeroPageXWrap | main.py:81-91 | operand 0x80 with X = 0xFF reads 0x007F: A = 0x37, 4 cycles |
| CpuTests.LdaZeroPageXRun | main.py:69-91 | the LDA zp,X scenarios' run, for an operand and X whose sum wraps to the stored cell |
| CpuTests.TestLdaAbsolute | main.py:93-103 | A = 0x84, 4 cycles, Z clear, N set |
| CpuTests.LdaAbsoluteRun | main.py:93-103 | the LDA abs scenario's run |
| CpuTests.TestLdaAbsoluteX | main.py:105-114 | A = 0x84 in 4 cycles (no page crossing) |
| CpuTests.LdaAbsoluteXRun | main.py:105-114 | the LDA abs,X scenario's run |
| CpuTests.TestLdaAbsoluteXWrap | main.py:116-125 | 0xFFF5 + 0x0F reads cell 0x0004: A = 0x84 in 5 cycles |
| CpuTests.LdaAbsoluteXWrapRun | main.py:116-125 | the wrapping LDA abs,X scenario's run, with the page-crossing cycle |
| CpuTests.TestZeroBudget | main.py:348-350 | a budget of 0 uses 0 cycles and leaves PC alone |
| CpuTests.TestUnhandled | main.py:370-374 | two unhandled bytes use 2 cycles and change only PC: SP, A, X, Y, the status byte and the memory image are as set up |
| CpuTests.UnhandledRun | main.py:370-374 | the run over two unhandled bytes |
| CpuTests.TestJsr | Computer/Cpu.py:161-166 | JSR 0x1234 after reset: PC 0x1234, SP 0x00FE, return address 0xFFFE stored at 0x00FE/0x00FF, 6 cycles |
| CpuTests.JsrRun | Computer/Cpu.py:161-166 | the JSR scenario's run |

## Left out

- Cpu.CPU.Exec: requires that every JSR the budget reaches has `2 <= SP <= 0x10000` and a return address below 0x10000 (`Cpu.Defined`). Outside that range `WriteWord` negative-indexes the Python list, raises IndexError, or stores a non-byte.
- Memory.Mem.WriteWord: requires `0 <= address <= 0xFFFE` and a 16-bit `data`. This is the same boundary; Python's negative indexing and IndexError are not emulated.
- Memory.Mem.Set: requires the value to be a byte. The source stores any integer unmasked. No caller in the core stores anything else.
- Cpu.CPU.constructor: requires A, X and Y to be bytes, and PC is a `nat`. The source accepts any integers, including a negative PC, which its masked reads would treat as a wrapped address.
- The `print` of an unhandled opcode (`Computer/Cpu.py:168`) is console output and is not modelled. The byte is skipped at a cost of one cycle.
- Host byte-order detection through `sys.byteorder` (`Computer/Cpu.py:1, 28`) is not modelled: the byte order is a constructor parameter.
- The docstring of `INS_JSR` says 4 cycles. The code charges 6 (1 + 2 + 2 + 1), and the model follows the code.
- The tests at `main.py:127-346` and `main.py:358-368` use opcode constants that `CPU` never defines (absolute,Y, indirect modes, LDX, LDY, NOP). They are not modelled.
- `Computer/__init__.py` holds package imports and metadata only and is not part of this model.

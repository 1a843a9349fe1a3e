/** The CPU of the emulator (Computer/Cpu.py): registers, the status byte,
    the fetch primitives and the cycle-budgeted fetch-decode-execute loop.

    The first half of the module is a pure description of the instruction set
    the source implements: how an opcode byte decodes, what each instruction
    costs, which address it reads and what one instruction does to a `Machine`
    (`Step`) and what a whole budget does (`Run`). The class `CPU` then
    follows the source statement by statement, and `CPU.Exec` is proved to
    compute exactly `Run`. */
module Cpu {
  import opened Memory

  // Opcode bytes of the six implemented instructions.
  const LDA_IM: int := 0xA9
  const LDA_ZP: int := 0xA5
  const LDA_ZPX: int := 0xB5
  const LDA_ABS: int := 0xAD
  const LDA_ABSX: int := 0xBD
  const JSR: int := 0x20

  // Bit positions of the status flags; bit 5 has no flag.
  const CARRY: nat := 0
  const ZERO: nat := 1
  const INTERRUPT: nat := 2
  const DECIMAL: nat := 3
  const BREAK: nat := 4
  const OVERFLOW: nat := 6
  const NEGATIVE: nat := 7

  /** Status byte set by the constructor: only bit 5. */
  const INITIAL_STATUS: bv8 := 0x20

  /** Reset values of PC and SP. */
  const RESET_PC: nat := 0xFFFC
  const RESET_SP: int := 0x0100

  /** `get_flag`: bit `bit` of the status byte, as 0 or 1. */
  function FlagOf(p: bv8, bit: nat): (f: int)
    requires bit < 8
    ensures f == 0 || f == 1
    ensures f == 1 <==> p & (1 << bit) != 0
  {
    ((p >> bit) & 1) as int
  }

  /** `set_flag`: the status byte with one bit set or cleared; every other
      bit is as it was. */
  function WithFlag(p: bv8, bit: nat, value: bool): (r: bv8)
    requires bit < 8
    ensures FlagOf(r, bit) == if value then 1 else 0
    ensures r & !(1 << bit) == p & !(1 << bit)
  {
    if value then p | (1 << bit) else p & !(1 << bit)
  }

  /** `LDASetStatus`: Z and N recomputed from a loaded byte, in that order. */
  function LoadFlags(p: bv8, value: int): (r: bv8)
    requires IsByte(value)
    ensures FlagOf(r, ZERO) == if value == 0 then 1 else 0
    ensures FlagOf(r, NEGATIVE) == if value >= 0x80 then 1 else 0
    ensures r & 0x7D == p & 0x7D  // every bit but Z (1) and N (7) kept
  {
    WithFlag(WithFlag(p, ZERO, value == 0), NEGATIVE, (value as bv8) & 0x80 != 0)
  }

  /** The status byte after `reset`: every flag cleared, bit 5 kept. */
  function ResetStatus(p: bv8): (r: bv8)
    ensures forall b :: 0 <= b < 8 ==> FlagOf(r, b) == if b == 5 then FlagOf(p, 5) else 0
  {
    p & 0x20
  }

  /** `low | (high << 8)` for two bytes. */
  function MakeWord(low: int, high: int): (w: int)
    requires IsByte(low) && IsByte(high)
    ensures 0 <= w < 0x1_0000
    ensures w % 256 == low && w / 256 == high
  {
    low + high * 256
  }

  /** `swapBytesInWord`: `((d & 0xFF) << 8) | ((d >> 8) & 0xFF)`. For every
      integer `d` the mask is `% 256` and the shift is division by 256 rounded
      down, which is what Dafny's `/` does for a positive divisor. */
  function SwapBytesInWord(d: int): (r: int)
    ensures 0 <= r < 0x1_0000
    ensures r % 256 == (d / 256) % 256 && r / 256 == d % 256
  {
    (d % 256) * 256 + (d / 256) % 256
  }

  /** `(base & 0xFF00) != (address & 0xFF00)` for non-negative operands. */
  predicate PageCrossed(base: nat, address: nat)
  {
    (base / 256) % 256 != (address / 256) % 256
  }

  /** What an opcode byte selects. */
  datatype Instruction =
    | LdaImmediate
    | LdaZeroPage
    | LdaZeroPageX
    | LdaAbsolute
    | LdaAbsoluteX
    | Jsr
    | Unhandled(op: int)
  {
    predicate IsLoad() { !Jsr? && !Unhandled? }
  }

  function Opcode(ins: Instruction): int
  {
    match ins
    case LdaImmediate => LDA_IM
    case LdaZeroPage => LDA_ZP
    case LdaZeroPageX => LDA_ZPX
    case LdaAbsolute => LDA_ABS
    case LdaAbsoluteX => LDA_ABSX
    case Jsr => JSR
    case Unhandled(op) => op
  }

  /** The dispatch of `exec`: a byte that is none of the six opcodes is unhandled. */
  function Decode(op: int): (ins: Instruction)
    ensures Opcode(ins) == op
  {
    if op == LDA_IM then LdaImmediate
    else if op == LDA_ZP then LdaZeroPage
    else if op == LDA_ZPX then LdaZeroPageX
    else if op == LDA_ABS then LdaAbsolute
    else if op == LDA_ABSX then LdaAbsoluteX
    else if op == JSR then Jsr
    else Unhandled(op)
  }

  /** Bytes an instruction occupies, opcode included. */
  function Size(ins: Instruction): nat
  {
    match ins
    case LdaImmediate => 2
    case LdaZeroPage => 2
    case LdaZeroPageX => 2
    case LdaAbsolute => 3
    case LdaAbsoluteX => 3
    case Jsr => 3
    case Unhandled(_) => 1
  }

  /** Cycle table: LDA #: 2, LDA zp: 3, LDA zp,X: 4, LDA abs: 4,
      LDA abs,X: 4 before the page-crossing penalty, JSR: 6, and 1 for the
      fetch of an unhandled byte. */
  function BaseCycles(ins: Instruction): (c: nat)
    ensures 1 <= c <= 6
    ensures c == 1 <==> ins.Unhandled?
  {
    match ins
    case LdaImmediate => 2
    case LdaZeroPage => 3
    case LdaZeroPageX => 4
    case LdaAbsolute => 4
    case LdaAbsoluteX => 4
    case Jsr => 6
    case Unhandled(_) => 1
  }

  /** The processor state `exec` works on: the registers, the status byte, the
      host byte order of the instance and the memory it is given. PC is never
      masked by the source, so it is an unbounded `nat`. */
  datatype Machine = Machine(pc: nat, sp: int, a: int, x: int, y: int, p: bv8,
                             bigEndian: bool, mem: seq<int>)
  {
    ghost predicate Valid()
    {
      WellFormed(mem) && IsByte(a) && IsByte(x) && IsByte(y)
    }
  }

  function CurrentInstruction(m: Machine): Instruction
    requires m.Valid()
  {
    Decode(Load(m.mem, m.pc))
  }

  /** The byte after the opcode. */
  function OperandByte(m: Machine): int
    requires m.Valid()
  {
    Load(m.mem, m.pc + 1)
  }

  /** The two bytes after the opcode, read low byte first. */
  function OperandWord(m: Machine): (w: int)
    requires m.Valid()
    ensures 0 <= w < 0x1_0000
    ensures w % 256 == OperandByte(m) && w / 256 == Load(m.mem, m.pc + 2)
  {
    MakeWord(Load(m.mem, m.pc + 1), Load(m.mem, m.pc + 2))
  }

  /** The address an LDA reads its value from. */
  function EffectiveAddress(ins: Instruction, m: Machine): (addr: nat)
    requires ins.IsLoad() && m.Valid()
    ensures ins.LdaZeroPage? || ins.LdaZeroPageX? ==> addr < 256
    ensures ins.LdaZeroPageX? ==> addr % 256 == (OperandByte(m) + m.x) % 256
  {
    match ins
    case LdaImmediate => m.pc + 1
    case LdaZeroPage => OperandByte(m)
    case LdaZeroPageX => (OperandByte(m) + m.x) % 256
    case LdaAbsolute => OperandWord(m)
    case LdaAbsoluteX => OperandWord(m) + m.x
  }

  /** Cycles one instruction costs. */
  function Cycles(ins: Instruction, m: Machine): (c: nat)
    requires m.Valid()
    ensures BaseCycles(ins) <= c <= BaseCycles(ins) + 1
    ensures c == BaseCycles(ins) + 1 <==>
            ins.LdaAbsoluteX? && PageCrossed(OperandWord(m), OperandWord(m) + m.x)
  {
    BaseCycles(ins) +
      if ins.LdaAbsoluteX? && PageCrossed(OperandWord(m), OperandWord(m) + m.x) then 1 else 0
  }

  /** Where JSR jumps: the operand word, byte-swapped on a big-endian host. */
  function JsrTarget(m: Machine): (t: nat)
    requires m.Valid()
    ensures t < 0x1_0000
    ensures !m.bigEndian ==> t == OperandWord(m)
  {
    if m.bigEndian then SwapBytesInWord(OperandWord(m)) else OperandWord(m)
  }

  /** The next instruction stays inside what the source can do without
      leaving byte-sized cells: a JSR needs its two stack cells `SP - 2` and
      `SP - 1` inside the memory, and a return address that fits 16 bits. */
  ghost predicate StepDefined(m: Machine)
    requires m.Valid()
  {
    CurrentInstruction(m).Jsr? ==> 2 <= m.sp <= MAX_MEM && m.pc + 2 < 0x1_0000
  }

  /** One instruction, and the cycle counter after it. */
  function Step(m: Machine, cycles: int): (r: (Machine, int))
    requires m.Valid() && StepDefined(m)
    ensures r.0.Valid()
    ensures cycles - 6 <= r.1 <= cycles - 1
    ensures r.0.x == m.x && r.0.y == m.y && r.0.bigEndian == m.bigEndian
  {
    var ins := CurrentInstruction(m);
    var next := m.pc + Size(ins);
    if ins.Jsr? then
      (m.(pc := JsrTarget(m), sp := m.sp - 2, mem := StoreWord(m.mem, m.sp - 2, next - 1)),
       cycles - Cycles(ins, m))
    else if ins.Unhandled? then
      (m.(pc := next), cycles - Cycles(ins, m))
    else
      var value := Load(m.mem, EffectiveAddress(ins, m));
      (m.(pc := next, a := value, p := LoadFlags(m.p, value)), cycles - Cycles(ins, m))
  }

  /** Every instruction a budget of `cycles` runs is defined. */
  ghost predicate Defined(m: Machine, cycles: int)
    requires m.Valid()
    decreases cycles
  {
    cycles <= 0 || (StepDefined(m) && Defined(Step(m, cycles).0, Step(m, cycles).1))
  }

  /** Instructions run while the counter is positive; an instruction started
      always completes, so the counter can end below zero, but never by more
      than the dearest instruction's cost less one. */
  function Run(m: Machine, cycles: int): (r: (Machine, int))
    requires m.Valid() && Defined(m, cycles)
    ensures r.0.Valid()
    ensures cycles <= 0 ==> r == (m, cycles)
    ensures cycles > 0 ==> -5 <= r.1 <= 0
    decreases cycles
  {
    if cycles <= 0 then (m, cycles)
    else
      var (m', c') := Step(m, cycles);
      Run(m', c')
  }

  class CPU {
    var PC: nat
    var SP: int
    var A: int
    var X: int
    var Y: int
    var P: bv8
    /** `PLATFORM_BIG_ENDIAN`, fixed when the instance is made. */
    const bigEndian: bool

    ghost predicate Valid()
      reads this
    {
      IsByte(A) && IsByte(X) && IsByte(Y)
    }

    /** The machine this CPU and `mem` make together. */
    ghost function State(mem: Mem): (m: Machine)
      reads this, mem, mem.Data
      requires Valid() && mem.Valid()
      ensures m.Valid()
    {
      Machine(PC, SP, A, X, Y, P, bigEndian, mem.Data[..])
    }

    constructor (bigEndian: bool, pc: nat := 0, sp: int := 0, a: int := 0, x: int := 0, y: int := 0)
      requires IsByte(a) && IsByte(x) && IsByte(y)
      ensures Valid()
      ensures PC == pc && SP == sp && A == a && X == x && Y == y
      ensures P == INITIAL_STATUS && this.bigEndian == bigEndian
    {
      PC, SP := pc, sp;
      A, X, Y := a, x, y;
      P := INITIAL_STATUS;
      this.bigEndian := bigEndian;
    }

    method SetFlag(bit: nat, value: bool)
      requires bit < 8
      modifies this`P
      ensures P == WithFlag(old(P), bit, value)
    {
      if value {
        P := P | (1 << bit);
      } else {
        P := P & !(1 << bit);
      }
    }

    method Reset(mem: Mem)
      modifies this, mem
      ensures Valid() && mem.Valid() && fresh(mem.Data)
      ensures PC == RESET_PC && SP == RESET_SP && A == 0 && X == 0 && Y == 0
      ensures P == ResetStatus(old(P))
      ensures mem.Data[..] == Zeroed()
    {
      PC := RESET_PC;
      SP := RESET_SP;
      SetFlag(CARRY, false);
      SetFlag(ZERO, false);
      SetFlag(INTERRUPT, false);
      SetFlag(DECIMAL, false);
      SetFlag(BREAK, false);
      SetFlag(OVERFLOW, false);
      SetFlag(NEGATIVE, false);
      A, X, Y := 0, 0, 0;
      mem.Init();
    }

    method FetchByte(mem: Mem, cycles: int) returns (data: int, cyclesOut: int)
      requires mem.Valid()
      modifies this`PC
      ensures data == Load(mem.Data[..], old(PC))
      ensures PC == old(PC) + 1 && cyclesOut == cycles - 1
    {
      data := mem.Get(PC);
      PC := PC + 1;
      cyclesOut := cycles - 1;
    }

    method FetchWord(mem: Mem, cycles: int) returns (data: int, cyclesOut: int)
      requires mem.Valid()
      modifies this`PC
      ensures var w := MakeWord(Load(mem.Data[..], old(PC)), Load(mem.Data[..], old(PC) + 1));
              data == if bigEndian then SwapBytesInWord(w) else w
      ensures PC == old(PC) + 2 && cyclesOut == cycles - 2
    {
      var low := mem.Get(PC);
      PC := PC + 1;
      var high := mem.Get(PC);
      PC := PC + 1;
      data := MakeWord(low, high);
      cyclesOut := cycles - 2;
      if bigEndian {
        data := SwapBytesInWord(data);
      }
    }

    method ReadByte(mem: Mem, address: int, cycles: int) returns (data: int, cyclesOut: int)
      requires mem.Valid()
      ensures data == Load(mem.Data[..], address) && cyclesOut == cycles - 1
    {
      data := mem.Get(address);
      cyclesOut := cycles - 1;
    }

    /** `LDASetStatus` */
    method LoadStatus()
      requires Valid()
      modifies this`P
      ensures P == LoadFlags(old(P), A)
    {
      SetFlag(ZERO, A == 0);
      SetFlag(NEGATIVE, (A as bv8) & 0x80 != 0);
    }

    /** What each opcode handler below may assume: the opcode byte of
        `before` has been fetched (PC advanced by one, one cycle charged). */
    ghost predicate OpcodeFetched(mem: Mem, c: int, before: Machine, cycles: int, ins: Instruction)
      reads this, mem, mem.Data
    {
      Valid() && mem.Valid() && before.Valid() && StepDefined(before) &&
      CurrentInstruction(before) == ins &&
      State(mem) == before.(pc := before.pc + 1) && c == cycles - 1
    }

    /** LDA #: the operand byte is the value. */
    method LdaIm(mem: Mem, c: int, ghost before: Machine, ghost cycles: int) returns (cOut: int)
      requires OpcodeFetched(mem, c, before, cycles, LdaImmediate)
      modifies this
      ensures Valid() && mem.Valid()
      ensures (State(mem), cOut) == Step(before, cycles)
    {
      var value;
      value, cOut := FetchByte(mem, c);
      A := value;
      LoadStatus();
    }

    /** LDA zp: the operand byte is the address. */
    method LdaZp(mem: Mem, c: int, ghost before: Machine, ghost cycles: int) returns (cOut: int)
      requires OpcodeFetched(mem, c, before, cycles, LdaZeroPage)
      modifies this
      ensures Valid() && mem.Valid()
      ensures (State(mem), cOut) == Step(before, cycles)
    {
      var zeroPage;
      zeroPage, cOut := FetchByte(mem, c);
      A, cOut := ReadByte(mem, zeroPage, cOut);
      LoadStatus();
    }

    /** LDA zp,X: the address is the operand plus X, kept in page zero; the
        addition costs a cycle. */
    method LdaZpx(mem: Mem, c: int, ghost before: Machine, ghost cycles: int) returns (cOut: int)
      requires OpcodeFetched(mem, c, before, cycles, LdaZeroPageX)
      modifies this
      ensures Valid() && mem.Valid()
      ensures (State(mem), cOut) == Step(before, cycles)
    {
      var zeroPage;
      zeroPage, cOut := FetchByte(mem, c);
      zeroPage := (zeroPage + X) % 256;
      cOut := cOut - 1;
      A, cOut := ReadByte(mem, zeroPage, cOut);
      LoadStatus();
    }

    /** LDA abs: the address is the operand word. */
    method LdaAbs(mem: Mem, c: int, ghost before: Machine, ghost cycles: int) returns (cOut: int)
      requires OpcodeFetched(mem, c, before, cycles, LdaAbsolute)
      modifies this
      ensures Valid() && mem.Valid()
      ensures (State(mem), cOut) == Step(before, cycles)
    {
      var low, high;
      low, cOut := FetchByte(mem, c);
      high, cOut := FetchByte(mem, cOut);
      var address := MakeWord(low, high);
      A, cOut := ReadByte(mem, address, cOut);
      LoadStatus();
      assert address == OperandWord(before);
    }

    /** LDA abs,X: the address is the operand word plus X, unmasked (the read
        wraps it); a page crossing costs a cycle. */
    method LdaAbsx(mem: Mem, c: int, ghost before: Machine, ghost cycles: int) returns (cOut: int)
      requires OpcodeFetched(mem, c, before, cycles, LdaAbsoluteX)
      modifies this
      ensures Valid() && mem.Valid()
      ensures (State(mem), cOut) == Step(before, cycles)
    {
      var low, high;
      low, cOut := FetchByte(mem, c);
      high, cOut := FetchByte(mem, cOut);
      var base := MakeWord(low, high);
      var address := base + X;
      if PageCrossed(base, address) {
        cOut := cOut - 1;
      }
      var value;
      value, cOut := ReadByte(mem, address, cOut);
      A := value;
      LoadStatus();
      assert base == OperandWord(before);
      assert address == EffectiveAddress(LdaAbsoluteX, before);
    }

    /** JSR: jump to the operand word after pushing the address of the
        instruction's last byte at `SP - 2` (no page-one base). */
    method JumpSubroutine(mem: Mem, c: int, ghost before: Machine, ghost cycles: int) returns (cOut: int)
      requires OpcodeFetched(mem, c, before, cycles, Jsr)
      modifies this, mem.Data
      ensures Valid() && mem.Valid()
      ensures (State(mem), cOut) == Step(before, cycles)
    {
      var target;
      target, cOut := FetchWord(mem, c);
      SP := SP - 2;
      cOut := mem.WriteWord(cOut, SP, PC - 1);
      PC := target;
      cOut := cOut - 1;
    }

    /** The `if` chain of `exec` on a fetched opcode byte: one handler per
        recognised opcode; any other byte is skipped. */
    method Dispatch(mem: Mem, opcode: int, c: int, ghost before: Machine, ghost cycles: int)
      returns (cOut: int)
      requires OpcodeFetched(mem, c, before, cycles, Decode(opcode))
      modifies this, mem.Data
      ensures Valid() && mem.Valid()
      ensures (State(mem), cOut) == Step(before, cycles)
    {
      if opcode == LDA_IM {
        cOut := LdaIm(mem, c, before, cycles);
      } else if opcode == LDA_ZP {
        cOut := LdaZp(mem, c, before, cycles);
      } else if opcode == LDA_ZPX {
        cOut := LdaZpx(mem, c, before, cycles);
      } else if opcode == LDA_ABS {
        cOut := LdaAbs(mem, c, before, cycles);
      } else if opcode == LDA_ABSX {
        cOut := LdaAbsx(mem, c, before, cycles);
      } else if opcode == JSR {
        cOut := JumpSubroutine(mem, c, before, cycles);
      } else {
        // Unhandled opcode: the source only reports it on the console.
        cOut := c;
      }
    }

    /** Runs instructions while the budget is positive and returns the cycles
        used. `cycles_lst` of the source is the local `c`, threaded through
        the fetch primitives. */
    method Exec(mem: Mem, budget: int) returns (used: int)
      requires Valid() && mem.Valid()
      requires Defined(State(mem), budget)
      modifies this, mem.Data
      ensures Valid() && mem.Valid()
      ensures State(mem) == Run(old(State(mem)), budget).0
      ensures used == budget - Run(old(State(mem)), budget).1
      ensures budget <= 0 ==> used == 0
      ensures budget > 0 ==> budget <= used <= budget + 5
    {
      ghost var start := State(mem);
      var cycles := budget;
      while cycles > 0
        invariant Valid() && mem.Valid()
        invariant Defined(State(mem), cycles)
        invariant Run(State(mem), cycles) == Run(start, budget)
        decreases cycles
      {
        ghost var before := State(mem);
        var opcode, c := FetchByte(mem, cycles);
        c := Dispatch(mem, opcode, c, before, cycles);
        cycles := c;
      }
      used := budget - cycles;
    }
  }
}

/** Properties of the instruction set model of module Cpu: what one
    instruction does, what a whole cycle budget does, and the arithmetic the
    addressing modes rest on. */
module CpuProperties {
  import opened Memory
  import opened Cpu

  /** Decoding inverts `Opcode`: each of the six opcodes decodes to its own
      instruction, and every other byte to `Unhandled` carrying it. */
  lemma DecodeOpcode(ins: Instruction)
    requires ins.Unhandled? ==> ins.op !in {LDA_IM, LDA_ZP, LDA_ZPX, LDA_ABS, LDA_ABSX, JSR}
    ensures Decode(Opcode(ins)) == ins
  {
  }

  /** `swapBytesInWord` undoes itself on 16-bit values. */
  lemma SwapInvolution(d: int)
    requires 0 <= d < 0x1_0000
    ensures SwapBytesInWord(SwapBytesInWord(d)) == d
  {
    var s := SwapBytesInWord(d);
    assert s % 256 == d / 256 && s / 256 == d % 256;
    var t := SwapBytesInWord(s);
    assert t % 256 == d % 256 && t / 256 == d / 256;
  }

  /** The word assembly `low | (high << 8)` of the source, done with 16-bit
      bitwise operators, is the arithmetic `MakeWord`. */
  lemma MakeWordIsBitwise(low: bv8, high: bv8)
    ensures MakeWord(low as int, high as int) == ((low as bv16) | ((high as bv16) << 8)) as int
  {
  }

  /** Indexing by X crosses a page exactly when the low byte of the base plus
      X does not fit in a byte. */
  lemma PageCrossedIff(base: int, x: int)
    requires 0 <= base < 0x1_0000 && IsByte(x)
    ensures PageCrossed(base, base + x) <==> base % 256 + x >= 256
  {
    var h, l := base / 256, base % 256;
    assert base == h * 256 + l;
    if l + x >= 256 {
      assert base + x == (h + 1) * 256 + (l + x - 256);
      assert (base + x) / 256 == h + 1;
    } else {
      assert base + x == h * 256 + (l + x);
      assert (base + x) / 256 == h;
    }
  }

  /** The cycles each instruction costs, as a table. */
  lemma CycleTable(m: Machine, cycles: int)
    requires m.Valid() && StepDefined(m)
    ensures var used := cycles - Step(m, cycles).1;
            match CurrentInstruction(m)
            case LdaImmediate => used == 2
            case LdaZeroPage => used == 3
            case LdaZeroPageX => used == 4
            case LdaAbsolute => used == 4
            case LdaAbsoluteX =>
              used == if PageCrossed(OperandWord(m), OperandWord(m) + m.x) then 5 else 4
            case Jsr => used == 6
            case Unhandled(_) => used == 1
  {
  }

  /** Every LDA: A receives the byte at the effective address, Z and N follow
      it, every other status bit, SP, X, Y and the memory are unchanged, and
      PC moves past the instruction. */
  lemma LoadStep(m: Machine, cycles: int)
    requires m.Valid() && StepDefined(m) && CurrentInstruction(m).IsLoad()
    ensures var (r, _) := Step(m, cycles);
            var ins := CurrentInstruction(m);
            && r.a == Load(m.mem, EffectiveAddress(ins, m))
            && (FlagOf(r.p, ZERO) == 1 <==> r.a == 0)
            && (FlagOf(r.p, NEGATIVE) == 1 <==> r.a >= 0x80)
            && (forall b :: 0 <= b < 8 && b != ZERO && b != NEGATIVE ==> FlagOf(r.p, b) == FlagOf(m.p, b))
            && r.pc == m.pc + Size(ins)
            && r.sp == m.sp && r.x == m.x && r.y == m.y && r.mem == m.mem
  {
    var (r, _) := Step(m, cycles);
    forall b | 0 <= b < 8 && b != ZERO && b != NEGATIVE
      ensures FlagOf(r.p, b) == FlagOf(m.p, b)
    {
      MaskedBitsAgree(r.p, m.p, 0x7D, b);
    }
  }

  /** Two status bytes that agree under a mask agree on every flag the mask keeps. */
  lemma MaskedBitsAgree(p: bv8, q: bv8, mask: bv8, b: nat)
    requires b < 8 && mask & (1 << b) != 0 && p & mask == q & mask
    ensures FlagOf(p, b) == FlagOf(q, b)
  {
  }

  /** LDA zp,X stays in page zero: operand 0x80 with X = 0xFF reads 0x007F. */
  lemma ZeroPageXWraps(m: Machine)
    requires m.Valid() && CurrentInstruction(m).LdaZeroPageX?
    requires OperandByte(m) == 0x80 && m.x == 0xFF
    ensures EffectiveAddress(LdaZeroPageX, m) == 0x7F
  {
  }

  /** An unhandled byte is skipped: PC moves by one, one cycle is charged and
      nothing else changes. */
  lemma UnhandledStep(m: Machine, cycles: int)
    requires m.Valid() && CurrentInstruction(m).Unhandled?
    ensures Step(m, cycles) == (m.(pc := m.pc + 1), cycles - 1)
  {
  }

  /** JSR: PC becomes the target, SP drops by two, the return address (that
      of JSR's last byte) is stored low byte first at the new SP, and no other
      cell, register or flag changes. */
  lemma JsrStep(m: Machine, cycles: int)
    requires m.Valid() && StepDefined(m) && CurrentInstruction(m).Jsr?
    ensures var (r, c) := Step(m, cycles);
            && r.pc == (if m.bigEndian then SwapBytesInWord(OperandWord(m)) else OperandWord(m))
            && r.sp == m.sp - 2
            && r.mem[r.sp] + 256 * r.mem[r.sp + 1] == m.pc + 2
            && (forall i :: 0 <= i < MAX_MEM && i != r.sp && i != r.sp + 1 ==> r.mem[i] == m.mem[i])
            && r.a == m.a && r.x == m.x && r.y == m.y && r.p == m.p
            && c == cycles - 6
  {
  }

  /** On a little-endian host JSR jumps to the operand word; on a big-endian
      one to the operand word with its bytes swapped. */
  lemma JsrTargetByteOrder(m: Machine)
    requires m.Valid() && CurrentInstruction(m).Jsr?
    ensures !m.bigEndian ==> JsrTarget(m) % 256 == OperandByte(m)
    ensures m.bigEndian ==> JsrTarget(m) / 256 == OperandByte(m)
  {
  }

  /** No instruction of the set touches C, I, D, B, V or bit 5, so a whole run
      keeps them. */
  lemma {:induction false} RunKeepsOtherFlags(m: Machine, cycles: int)
    requires m.Valid() && Defined(m, cycles)
    ensures Run(m, cycles).0.p & 0x7D == m.p & 0x7D
    decreases cycles
  {
    if cycles > 0 {
      var (m', c') := Step(m, cycles);
      StepKeepsOtherFlags(m, cycles);
      RunKeepsOtherFlags(m', c');
    }
  }

  /** One instruction keeps C, I, D, B, V and bit 5. */
  lemma StepKeepsOtherFlags(m: Machine, cycles: int)
    requires m.Valid() && StepDefined(m)
    ensures Step(m, cycles).0.p & 0x7D == m.p & 0x7D
  {
  }

  /** X, Y and the byte order never change during a run. */
  lemma {:induction false} RunKeepsIndexRegisters(m: Machine, cycles: int)
    requires m.Valid() && Defined(m, cycles)
    ensures var r := Run(m, cycles).0;
            r.x == m.x && r.y == m.y && r.bigEndian == m.bigEndian
    decreases cycles
  {
    if cycles > 0 {
      var (m', c') := Step(m, cycles);
      RunKeepsIndexRegisters(m', c');
    }
  }

  /** A run that contains no JSR never writes memory and never moves SP. */
  ghost predicate NoJsr(m: Machine, cycles: int)
    requires m.Valid() && Defined(m, cycles)
    decreases cycles
  {
    cycles <= 0 ||
    (!CurrentInstruction(m).Jsr? && NoJsr(Step(m, cycles).0, Step(m, cycles).1))
  }

  lemma {:induction false} RunWithoutJsrKeepsMemory(m: Machine, cycles: int)
    requires m.Valid() && Defined(m, cycles) && NoJsr(m, cycles)
    ensures Run(m, cycles).0.mem == m.mem && Run(m, cycles).0.sp == m.sp
    decreases cycles
  {
    if cycles > 0 {
      var (m', c') := Step(m, cycles);
      RunWithoutJsrKeepsMemory(m', c');
    }
  }

  /** A budget the first instruction uses up runs exactly that instruction. */
  lemma SingleInstructionRun(m: Machine, cycles: int)
    requires m.Valid() && StepDefined(m) && cycles > 0 && Step(m, cycles).1 <= 0
    ensures Defined(m, cycles) && Run(m, cycles) == Step(m, cycles)
  {
  }
}

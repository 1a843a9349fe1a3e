/** The scenarios of the source's unit tests (main.py), run against the
    classes: a fresh memory and CPU, `reset`, a program written with indexed
    writes, then `exec`. Each method returns what its test inspects and
    promises the values the test expects; the lemma beside it works the run
    out on the `Machine` the method has built. */
module CpuTests {
  import opened Memory
  import opened Cpu
  import opened CpuProperties

  /** The C, I, D, B and V flags, packed as in the status byte. */
  function UntouchedFlags(p: bv8): bv8
  {
    p & 0x5D
  }

  /** The machine `setUp` leaves, with A, X and the memory image given. */
  function AfterSetUp(a: int, x: int, image: seq<int>): Machine
  {
    Machine(RESET_PC, RESET_SP, a, x, 0, INITIAL_STATUS, false, image)
  }

  /** setUp: a zeroed memory and a little-endian CPU after reset. */
  method SetUp() returns (mem: Mem, cpu: CPU)
    ensures fresh(mem) && fresh(mem.Data) && fresh(cpu)
    ensures mem.Valid() && cpu.Valid()
    ensures cpu.State(mem) == AfterSetUp(0, 0, Zeroed())
  {
    mem := new Mem();
    cpu := new CPU(false);
    cpu.Reset(mem);
    assert ResetStatus(INITIAL_STATUS) == INITIAL_STATUS;
  }

  method TestLdaImmediate() returns (a: int, used: int, z: int, n: int, others: bv8)
    ensures a == 0x84 && used == 2 && z == 0 && n == 1 && others == 0
  {
    var mem, cpu := SetUp();
    mem.Set(0xFFFC, LDA_IM);
    mem.Set(0xFFFD, 0x84);
    assert mem.Data[..] == Zeroed()[0xFFFC := LDA_IM][0xFFFD := 0x84];
    LdaImmediateRun(cpu.State(mem), 0, 0x84, 2);
    used := cpu.Exec(mem, 2);
    a, z, n, others := cpu.A, FlagOf(cpu.P, ZERO), FlagOf(cpu.P, NEGATIVE), UntouchedFlags(cpu.P);
  }

  method TestLdaImmediateZero() returns (a: int, used: int, z: int, n: int, others: bv8)
    ensures a == 0 && used == 2 && z == 1 && n == 0 && others == 0
  {
    var mem, cpu := SetUp();
    cpu.A := 0x44;
    mem.Set(0xFFFC, LDA_IM);
    mem.Set(0xFFFD, 0x00);
    assert mem.Data[..] == Zeroed()[0xFFFC := LDA_IM][0xFFFD := 0x00];
    LdaImmediateRun(cpu.State(mem), 0x44, 0x00, 2);
    used := cpu.Exec(mem, 2);
    a, z, n, others := cpu.A, FlagOf(cpu.P, ZERO), FlagOf(cpu.P, NEGATIVE), UntouchedFlags(cpu.P);
  }

  /** An instruction begun completes: LDA # with a budget of 1 uses 2. */
  method TestLdaImmediateShortBudget() returns (used: int)
    ensures used == 2
  {
    var mem, cpu := SetUp();
    mem.Set(0xFFFC, LDA_IM);
    mem.Set(0xFFFD, 0x84);
    assert mem.Data[..] == Zeroed()[0xFFFC := LDA_IM][0xFFFD := 0x84];
    LdaImmediateRun(cpu.State(mem), 0, 0x84, 1);
    used := cpu.Exec(mem, 1);
  }

  /** LDA # after reset with A = `a0`, run with a budget of 1 or 2. */
  lemma LdaImmediateRun(m: Machine, a0: int, value: int, budget: int)
    requires IsByte(a0) && IsByte(value) && 1 <= budget <= 2
    requires m == AfterSetUp(a0, 0, Zeroed()[0xFFFC := LDA_IM][0xFFFD := value])
    ensures m.Valid() && Defined(m, budget)
    ensures var (r, c) := Run(m, budget);
            && budget - c == 2 && r.a == value
            && FlagOf(r.p, ZERO) == (if value == 0 then 1 else 0)
            && FlagOf(r.p, NEGATIVE) == (if value >= 0x80 then 1 else 0)
            && UntouchedFlags(r.p) == 0
  {
    assert CurrentInstruction(m) == LdaImmediate;
    assert Load(m.mem, EffectiveAddress(LdaImmediate, m)) == value;
    SingleInstructionRun(m, budget);
  }

  method TestLdaZeroPage() returns (a: int, used: int, z: int, n: int, others: bv8)
    ensures a == 0x37 && used == 3 && z == 0 && n == 0 && others == 0
  {
    var mem, cpu := SetUp();
    mem.Set(0xFFFC, LDA_ZP);
    mem.Set(0xFFFD, 0x42);
    mem.Set(0x0042, 0x37);
    assert mem.Data[..] == Zeroed()[0xFFFC := LDA_ZP][0xFFFD := 0x42][0x0042 := 0x37];
    LdaZeroPageRun(cpu.State(mem));
    used := cpu.Exec(mem, 3);
    a, z, n, others := cpu.A, FlagOf(cpu.P, ZERO), FlagOf(cpu.P, NEGATIVE), UntouchedFlags(cpu.P);
  }

  lemma LdaZeroPageRun(m: Machine)
    requires m == AfterSetUp(0, 0, Zeroed()[0xFFFC := LDA_ZP][0xFFFD := 0x42][0x0042 := 0x37])
    ensures m.Valid() && Defined(m, 3)
    ensures var (r, c) := Run(m, 3);
            c == 0 && r.a == 0x37 && FlagOf(r.p, ZERO) == 0 && FlagOf(r.p, NEGATIVE) == 0
            && UntouchedFlags(r.p) == 0
  {
    assert CurrentInstruction(m) == LdaZeroPage;
    assert EffectiveAddress(LdaZeroPage, m) == 0x42;
    SingleInstructionRun(m, 3);
  }

  method TestLdaZeroPageX() returns (a: int, used: int, z: int, n: int, others: bv8)
    ensures a == 0x37 && used == 4 && z == 0 && n == 0 && others == 0
  {
    var mem, cpu := SetUp();
    cpu.X := 5;
    mem.Set(0xFFFC, LDA_ZPX);
    mem.Set(0xFFFD, 0x42);
    mem.Set(0x0047, 0x37);
    assert mem.Data[..] == Zeroed()[0xFFFC := LDA_ZPX][0xFFFD := 0x42][0x0047 := 0x37];
    LdaZeroPageXRun(cpu.State(mem), 5, 0x42, 0x0047);
    used := cpu.Exec(mem, 4);
    a, z, n, others := cpu.A, FlagOf(cpu.P, ZERO), FlagOf(cpu.P, NEGATIVE), UntouchedFlags(cpu.P);
  }

  /** Zero page indexing wraps: 0x80 + 0xFF reads 0x007F, not 0x017F. */
  method TestLdaZeroPageXWrap() returns (a: int, used: int, z: int, n: int, others: bv8)
    ensures a == 0x37 && used == 4 && z == 0 && n == 0 && others == 0
  {
    var mem, cpu := SetUp();
    cpu.X := 0xFF;
    mem.Set(0xFFFC, LDA_ZPX);
    mem.Set(0xFFFD, 0x80);
    mem.Set(0x007F, 0x37);
    assert mem.Data[..] == Zeroed()[0xFFFC := LDA_ZPX][0xFFFD := 0x80][0x007F := 0x37];
    LdaZeroPageXRun(cpu.State(mem), 0xFF, 0x80, 0x007F);
    used := cpu.Exec(mem, 4);
    a, z, n, others := cpu.A, FlagOf(cpu.P, ZERO), FlagOf(cpu.P, NEGATIVE), UntouchedFlags(cpu.P);
  }

  /** LDA zp,X with 0x37 stored at the wrapped address `target`. */
  lemma LdaZeroPageXRun(m: Machine, x: int, operand: int, target: int)
    requires IsByte(x) && IsByte(operand) && target == (operand + x) % 256 && target != 0xFFFC && target != 0xFFFD
    requires m == AfterSetUp(0, x, Zeroed()[0xFFFC := LDA_ZPX][0xFFFD := operand][target := 0x37])
    ensures m.Valid() && Defined(m, 4)
    ensures var (r, c) := Run(m, 4);
            c == 0 && r.a == 0x37 && FlagOf(r.p, ZERO) == 0 && FlagOf(r.p, NEGATIVE) == 0
            && UntouchedFlags(r.p) == 0
  {
    assert CurrentInstruction(m) == LdaZeroPageX;
    assert OperandByte(m) == operand;
    assert EffectiveAddress(LdaZeroPageX, m) == target;
    SingleInstructionRun(m, 4);
  }

  method TestLdaAbsolute() returns (a: int, used: int, z: int, n: int, others: bv8)
    ensures a == 0x84 && used == 4 && z == 0 && n == 1 && others == 0
  {
    var mem, cpu := SetUp();
    mem.Set(0xFFFC, LDA_ABS);
    mem.Set(0xFFFD, 0x80);
    mem.Set(0xFFFE, 0x44);
    mem.Set(0x4480, 0x84);
    assert mem.Data[..] == Zeroed()[0xFFFC := LDA_ABS][0xFFFD := 0x80][0xFFFE := 0x44][0x4480 := 0x84];
    LdaAbsoluteRun(cpu.State(mem));
    used := cpu.Exec(mem, 4);
    a, z, n, others := cpu.A, FlagOf(cpu.P, ZERO), FlagOf(cpu.P, NEGATIVE), UntouchedFlags(cpu.P);
  }

  lemma LdaAbsoluteRun(m: Machine)
    requires m == AfterSetUp(0, 0, Zeroed()[0xFFFC := LDA_ABS][0xFFFD := 0x80][0xFFFE := 0x44][0x4480 := 0x84])
    ensures m.Valid() && Defined(m, 4)
    ensures var (r, c) := Run(m, 4);
            c == 0 && r.a == 0x84 && FlagOf(r.p, ZERO) == 0 && FlagOf(r.p, NEGATIVE) == 1
            && UntouchedFlags(r.p) == 0
  {
    assert CurrentInstruction(m) == LdaAbsolute;
    assert OperandWord(m) == 0x4480;
    SingleInstructionRun(m, 4);
  }

  /** 0x0145 + 0x45 stays in page one: 4 cycles (the test accepts 4 or 5). */
  method TestLdaAbsoluteX() returns (a: int, used: int, others: bv8)
    ensures a == 0x84 && used == 4 && others == 0
  {
    var mem, cpu := SetUp();
    cpu.X := 0x45;
    mem.Set(0xFFFC, LDA_ABSX);
    mem.Set(0xFFFD, 0x45);
    mem.Set(0xFFFE, 0x01);
    mem.Set(0x0145 + 0x45, 0x84);
    assert mem.Data[..] == Zeroed()[0xFFFC := LDA_ABSX][0xFFFD := 0x45][0xFFFE := 0x01][0x018A := 0x84];
    LdaAbsoluteXRun(cpu.State(mem));
    used := cpu.Exec(mem, 4);
    a, others := cpu.A, UntouchedFlags(cpu.P);
  }

  lemma LdaAbsoluteXRun(m: Machine)
    requires m == AfterSetUp(0, 0x45, Zeroed()[0xFFFC := LDA_ABSX][0xFFFD := 0x45][0xFFFE := 0x01][0x018A := 0x84])
    ensures m.Valid() && Defined(m, 4)
    ensures var (r, c) := Run(m, 4);
            c == 0 && r.a == 0x84 && UntouchedFlags(r.p) == 0
  {
    assert CurrentInstruction(m) == LdaAbsoluteX;
    assert OperandWord(m) == 0x0145;
    assert !PageCrossed(0x0145, 0x018A);
    SingleInstructionRun(m, 4);
  }

  /** 0xFFF5 + 0x0F crosses a page and wraps to cell 0x0004: 5 cycles. */
  method TestLdaAbsoluteXWrap() returns (a: int, used: int, others: bv8)
    ensures a == 0x84 && used == 5 && others == 0
  {
    var mem, cpu := SetUp();
    cpu.X := 0x0F;
    mem.Set(0xFFFC, LDA_ABSX);
    mem.Set(0xFFFD, 0xF5);
    mem.Set(0xFFFE, 0xFF);
    mem.Set(0xFFF5 + 0x0F, 0x84);
    assert mem.Data[..] == Zeroed()[0xFFFC := LDA_ABSX][0xFFFD := 0xF5][0xFFFE := 0xFF][0x0004 := 0x84];
    LdaAbsoluteXWrapRun(cpu.State(mem));
    used := cpu.Exec(mem, 5);
    a, others := cpu.A, UntouchedFlags(cpu.P);
  }

  lemma LdaAbsoluteXWrapRun(m: Machine)
    requires m == AfterSetUp(0, 0x0F, Zeroed()[0xFFFC := LDA_ABSX][0xFFFD := 0xF5][0xFFFE := 0xFF][0x0004 := 0x84])
    ensures m.Valid() && Defined(m, 5)
    ensures var (r, c) := Run(m, 5);
            c == 0 && r.a == 0x84 && UntouchedFlags(r.p) == 0
  {
    assert CurrentInstruction(m) == LdaAbsoluteX;
    assert OperandWord(m) == 0xFFF5;
    assert PageCrossed(0xFFF5, 0x1_0004);
    assert Load(m.mem, 0x1_0004) == 0x84;
    SingleInstructionRun(m, 5);
  }

  /** A budget of zero runs nothing. */
  method TestZeroBudget() returns (used: int, pc: int)
    ensures used == 0 && pc == RESET_PC
  {
    var mem, cpu := SetUp();
    used := cpu.Exec(mem, 0);
    pc := cpu.PC;
  }

  /** Two unhandled bytes (0x02, 0x00) cost one cycle each and change only PC. */
  method TestUnhandled() returns (used: int, pc: int, sp: int, a: int, x: int, y: int, p: bv8, image: seq<int>)
    ensures used == 2 && pc == RESET_PC + 2
    ensures sp == RESET_SP && a == 0 && x == 0 && y == 0 && p == INITIAL_STATUS
    ensures image == Zeroed()[0xFFFC := 0x02][0xFFFD := 0x00]
  {
    var mem, cpu := SetUp();
    mem.Set(0xFFFC, 0x02);
    mem.Set(0xFFFD, 0x00);
    assert mem.Data[..] == Zeroed()[0xFFFC := 0x02][0xFFFD := 0x00];
    UnhandledRun(cpu.State(mem));
    used := cpu.Exec(mem, 2);
    pc, sp, a, x, y, p := cpu.PC, cpu.SP, cpu.A, cpu.X, cpu.Y, cpu.P;
    image := mem.Data[..];
  }

  lemma UnhandledRun(m: Machine)
    requires m == AfterSetUp(0, 0, Zeroed()[0xFFFC := 0x02][0xFFFD := 0x00])
    ensures m.Valid() && Defined(m, 2)
    ensures Run(m, 2) == (m.(pc := RESET_PC + 2), 0)
  {
    assert CurrentInstruction(m) == Unhandled(0x02);
    var m1 := m.(pc := RESET_PC + 1);
    assert Step(m, 2) == (m1, 1);
    assert CurrentInstruction(m1) == Unhandled(0x00);
    SingleInstructionRun(m1, 1);
  }

  /** JSR 0x1234 right after reset: the return address 0xFFFE is stored at
      0x00FE (low) and 0x00FF (high), since SP is used without a page base. */
  method TestJsr() returns (used: int, pc: int, sp: int, low: int, high: int)
    ensures used == 6 && pc == 0x1234 && sp == 0x00FE
    ensures low == 0xFE && high == 0xFF
  {
    var mem, cpu := SetUp();
    mem.Set(0xFFFC, JSR);
    mem.Set(0xFFFD, 0x34);
    mem.Set(0xFFFE, 0x12);
    assert mem.Data[..] == Zeroed()[0xFFFC := JSR][0xFFFD := 0x34][0xFFFE := 0x12];
    JsrRun(cpu.State(mem));
    used := cpu.Exec(mem, 6);
    pc, sp := cpu.PC, cpu.SP;
    low, high := mem.Get(0x00FE), mem.Get(0x00FF);
  }

  lemma JsrRun(m: Machine)
    requires m == AfterSetUp(0, 0, Zeroed()[0xFFFC := JSR][0xFFFD := 0x34][0xFFFE := 0x12])
    ensures m.Valid() && Defined(m, 6)
    ensures var (r, c) := Run(m, 6);
            c == 0 && r.pc == 0x1234 && r.sp == 0x00FE
            && Load(r.mem, 0x00FE) == 0xFE && Load(r.mem, 0x00FF) == 0xFF
  {
    assert CurrentInstruction(m) == Jsr;
    assert OperandWord(m) == 0x1234;
    SingleInstructionRun(m, 6);
  }
}

/**
 The cycle-cost table and the straight-line prefix of the dispatcher,
 opcodes 0x00 to 0x2c. One call fetches the opcode at `pc`, counts the
 instruction, advances `pc` past the opcode byte, runs the case and adds
 the case's cycle count to the clock. Each case adds its own literal count;
 the dispatcher's contract relates it to the table. Opcodes above 0x2c are
 not part of this model and come back as `OutsidePrefix`.
 */
module Dispatch {
  import opened Bits
  import opened Machine
  import opened Arithmetic
  import opened Rotate
  import opened Transfer

  /** A cycle count of the table. */
  type CycleCount = n: nat | 4 <= n <= 18 witness 4

  /** `instruction_cycles`, laid out as in the source: row `op / 16`,
      column `op % 16`. */
  const CYCLES: seq<seq<CycleCount>> := [
    [4, 10, 7, 5, 5, 5, 7, 4, 4, 10, 7, 5, 5, 5, 7, 4],
    [4, 10, 7, 5, 5, 5, 7, 4, 4, 10, 7, 5, 5, 5, 7, 4],
    [4, 10, 16, 5, 5, 5, 7, 4, 4, 10, 16, 5, 5, 5, 7, 4],
    [4, 10, 13, 5, 10, 10, 10, 4, 4, 10, 13, 5, 5, 5, 7, 4],
    [5, 5, 5, 5, 5, 5, 7, 5, 5, 5, 5, 5, 5, 5, 7, 5],
    [5, 5, 5, 5, 5, 5, 7, 5, 5, 5, 5, 5, 5, 5, 7, 5],
    [5, 5, 5, 5, 5, 5, 7, 5, 5, 5, 5, 5, 5, 5, 7, 5],
    [7, 7, 7, 7, 7, 7, 7, 7, 5, 5, 5, 5, 5, 5, 7, 5],
    [4, 4, 4, 4, 4, 4, 7, 4, 4, 4, 4, 4, 4, 4, 7, 4],
    [4, 4, 4, 4, 4, 4, 7, 4, 4, 4, 4, 4, 4, 4, 7, 4],
    [4, 4, 4, 4, 4, 4, 7, 4, 4, 4, 4, 4, 4, 4, 7, 4],
    [4, 4, 4, 4, 4, 4, 7, 4, 4, 4, 4, 4, 4, 4, 7, 4],
    [5, 10, 10, 10, 11, 11, 7, 11, 5, 10, 10, 10, 11, 11, 7, 11],
    [5, 10, 10, 10, 11, 11, 7, 11, 5, 10, 10, 10, 11, 11, 7, 11],
    [5, 10, 10, 18, 11, 11, 7, 11, 5, 5, 10, 5, 11, 11, 7, 11],
    [5, 10, 10, 4, 11, 11, 7, 11, 5, 5, 10, 4, 11, 11, 7, 11]]

  /** The table's cost of an opcode; every instruction takes 4 to 18 cycles. */
  function Cycles(op: Byte): (n: nat)
    ensures 4 <= n <= 18
  {
    CYCLES[op / 16][op % 16]
  }

  /** Row 0 of the table, entry by entry. */
  lemma CyclesRow0()
    ensures Cycles(0x00) == 4 && Cycles(0x01) == 10 && Cycles(0x02) == 7 && Cycles(0x03) == 5
    ensures Cycles(0x04) == 5 && Cycles(0x05) == 5 && Cycles(0x06) == 7 && Cycles(0x07) == 4
    ensures Cycles(0x08) == 4 && Cycles(0x09) == 10 && Cycles(0x0a) == 7 && Cycles(0x0b) == 5
    ensures Cycles(0x0c) == 5 && Cycles(0x0d) == 5 && Cycles(0x0e) == 7 && Cycles(0x0f) == 4
  {
  }

  /** Row 1 of the table, entry by entry. */
  lemma CyclesRow1()
    ensures Cycles(0x10) == 4 && Cycles(0x11) == 10 && Cycles(0x12) == 7 && Cycles(0x13) == 5
    ensures Cycles(0x14) == 5 && Cycles(0x15) == 5 && Cycles(0x16) == 7 && Cycles(0x17) == 4
    ensures Cycles(0x18) == 4 && Cycles(0x19) == 10 && Cycles(0x1a) == 7 && Cycles(0x1b) == 5
    ensures Cycles(0x1c) == 5 && Cycles(0x1d) == 5 && Cycles(0x1e) == 7 && Cycles(0x1f) == 4
  {
  }

  /** Row 2 of the table, entry by entry. */
  lemma CyclesRow2()
    ensures Cycles(0x20) == 4 && Cycles(0x21) == 10 && Cycles(0x22) == 16 && Cycles(0x23) == 5
    ensures Cycles(0x24) == 5 && Cycles(0x25) == 5 && Cycles(0x26) == 7 && Cycles(0x27) == 4
    ensures Cycles(0x28) == 4 && Cycles(0x29) == 10 && Cycles(0x2a) == 16 && Cycles(0x2b) == 5
    ensures Cycles(0x2c) == 5
  {
  }

  /** How far a case moves `pc` beyond the opcode byte, as the code has it.
      Departures from the manual: MVI D (0x16) skips two bytes instead of one;
      MVI C (0x0e), LXI D (0x11), LXI H (0x21), SHLD (0x22) and LHLD (0x2a)
      skip none, so the next fetch lands on their operand bytes. */
  function OperandSkip(op: Byte): (n: nat)
    ensures n == 2 <==> op in {0x01, 0x16}
    ensures n == 1 <==> op in {0x06, 0x1e, 0x26}
    ensures n == 0 <==> op !in {0x01, 0x06, 0x16, 0x1e, 0x26}
  {
    if op == 0x01 || op == 0x16 then 2
    else if op == 0x06 || op == 0x1e || op == 0x26 then 1
    else 0
  }

  /** An instruction of the prefix, as the dispatcher's cases name it: the
      register and pair operands are the ones the cases pass to the handlers. */
  datatype Instr =
    | Nop
    | LxiOp(rp: Pair) | StaxOp(rp: Pair) | InxOp(rp: Pair)
    | DadOp(rp: Pair) | LdaxOp(rp: Pair) | DcxOp(rp: Pair)
    | InrOp(reg: Reg) | DcrOp(reg: Reg) | MviOp(reg: Reg)
    | RlcOp | RrcOp | RalOp | RarOp | ShldOp | LhldOp | DaaOp

  /** The instruction each case of the prefix runs. The unused slots at the
      multiples of 8 are NOP, and only LXI and MVI move `pc` past operand
      bytes. */
  function Decode(op: Byte): (i: Instr)
    requires op <= 0x2c
    ensures i == Nop <==> op % 8 == 0
    ensures OperandSkip(op) != 0 ==> i.LxiOp? || i.MviOp?
  {
    match op
    case 0x00 => Nop
    case 0x01 => LxiOp(BC)
    case 0x02 => StaxOp(BC)
    case 0x03 => InxOp(BC)
    case 0x04 => InrOp(B)
    case 0x05 => DcrOp(B)
    case 0x06 => MviOp(B)
    case 0x07 => RlcOp
    case 0x08 => Nop
    case 0x09 => DadOp(BC)
    case 0x0a => LdaxOp(BC)
    case 0x0b => DcxOp(BC)
    case 0x0c => InrOp(C)
    case 0x0d => DcrOp(C)
    case 0x0e => MviOp(C)
    case 0x0f => RrcOp
    case 0x10 => Nop
    case 0x11 => LxiOp(DE)
    case 0x12 => StaxOp(DE)
    case 0x13 => InxOp(DE)
    case 0x14 => InrOp(D)
    case 0x15 => DcrOp(D)
    case 0x16 => MviOp(D)
    case 0x17 => RalOp
    case 0x18 => Nop
    case 0x19 => DadOp(DE)
    case 0x1a => LdaxOp(DE)
    case 0x1b => DcxOp(DE)
    case 0x1c => InrOp(E)
    case 0x1d => DcrOp(E)
    case 0x1e => MviOp(E)
    case 0x1f => RarOp
    case 0x20 => Nop
    case 0x21 => LxiOp(HL)
    case 0x22 => ShldOp
    case 0x23 => InxOp(HL)
    case 0x24 => InrOp(H)
    case 0x25 => DcrOp(H)
    case 0x26 => MviOp(H)
    case 0x27 => DaaOp
    case 0x28 => Nop
    case 0x29 => DadOp(HL)
    case 0x2a => LhldOp
    case 0x2b => DcxOp(HL)
    case _ => InrOp(L)
  }

  /** The 8080's three-bit register field: B, C, D, E, H and L are 0 to 5
      and A is 7 (6 names the memory operand, which `Reg` leaves out). */
  function RegisterCode(reg: Reg): nat
  {
    match reg
    case B => 0
    case C => 1
    case D => 2
    case E => 3
    case H => 4
    case L => 5
    case A => 7
  }

  /** The 8080's two-bit register-pair field: BC, DE and HL are 0, 1 and 2. */
  function PairCode(rp: Pair): nat
  {
    match rp
    case BC => 0
    case DE => 1
    case HL => 2
  }

  /** The Intel 8080's encoding of an instruction: the register field sits in
      bits 3 to 5, the pair field in bits 4 and 5. */
  function Opcode(i: Instr): nat
  {
    match i
    case Nop => 0x00
    case LxiOp(rp) => 0x01 + 0x10 * PairCode(rp)
    case StaxOp(rp) => 0x02 + 0x10 * PairCode(rp)
    case InxOp(rp) => 0x03 + 0x10 * PairCode(rp)
    case DadOp(rp) => 0x09 + 0x10 * PairCode(rp)
    case LdaxOp(rp) => 0x0a + 0x10 * PairCode(rp)
    case DcxOp(rp) => 0x0b + 0x10 * PairCode(rp)
    case InrOp(reg) => 0x04 + 8 * RegisterCode(reg)
    case DcrOp(reg) => 0x05 + 8 * RegisterCode(reg)
    case MviOp(reg) => 0x06 + 8 * RegisterCode(reg)
    case RlcOp => 0x07
    case RrcOp => 0x0f
    case RalOp => 0x17
    case RarOp => 0x1f
    case ShldOp => 0x22
    case LhldOp => 0x2a
    case DaaOp => 0x27
  }

  /** The instructions whose encoding falls in the prefix. STAX and LDAX exist
      for BC and DE only: the HL slots are SHLD and LHLD. */
  predicate InPrefix(i: Instr) {
    && Opcode(i) <= 0x2c
    && !(i.StaxOp? && i.rp == HL)
    && !(i.LdaxOp? && i.rp == HL)
  }

  /** The cases with a register-pair operand run the instruction the 8080
      encodes at their opcode. */
  lemma DecodePairOpcode(i: Instr)
    requires InPrefix(i)
    requires i.LxiOp? || i.StaxOp? || i.InxOp? || i.DadOp? || i.LdaxOp? || i.DcxOp?
    ensures Decode(Opcode(i)) == i
  {
    match i
    case LxiOp(rp) => match rp { case BC => case DE => case HL => }
    case StaxOp(rp) => match rp { case BC => case DE => }
    case InxOp(rp) => match rp { case BC => case DE => case HL => }
    case DadOp(rp) => match rp { case BC => case DE => case HL => }
    case LdaxOp(rp) => match rp { case BC => case DE => }
    case DcxOp(rp) => match rp { case BC => case DE => case HL => }
  }

  /** The cases with a register operand run the instruction the 8080 encodes
      at their opcode. */
  lemma DecodeRegisterOpcode(i: Instr)
    requires InPrefix(i) && (i.InrOp? || i.DcrOp? || i.MviOp?)
    ensures Decode(Opcode(i)) == i
  {
    match i
    case InrOp(reg) =>
      match reg {
        case B => case C => case D => case E => case H => case L =>
      }
    case DcrOp(reg) =>
      match reg {
        case B => case C => case D => case E => case H =>
      }
    case MviOp(reg) =>
      match reg {
        case B => case C => case D => case E => case H =>
      }
  }

  /** Every case of the prefix runs the instruction the 8080 encodes at its
      opcode: decoding an instruction's encoding gives it back. */
  lemma DecodeOpcode(i: Instr)
    requires InPrefix(i)
    ensures Decode(Opcode(i)) == i
  {
    if i.LxiOp? || i.StaxOp? || i.InxOp? || i.DadOp? || i.LdaxOp? || i.DcxOp? {
      DecodePairOpcode(i);
    } else if i.InrOp? || i.DcrOp? || i.MviOp? {
      DecodeRegisterOpcode(i);
    }
  }

  /** `OpcodeDecode` for the opcodes below 0x10. */
  lemma OpcodeDecodeRow0(op: Byte)
    requires op < 0x10
    ensures InPrefix(Decode(op))
    ensures Decode(op) == Nop <==> op % 8 == 0
    ensures op % 8 != 0 || op == 0 <==> Opcode(Decode(op)) == op
  {
  }

  /** `OpcodeDecode` for the opcodes 0x10 to 0x1f. */
  lemma OpcodeDecodeRow1(op: Byte)
    requires 0x10 <= op < 0x20
    ensures InPrefix(Decode(op))
    ensures Decode(op) == Nop <==> op % 8 == 0
    ensures op % 8 != 0 || op == 0 <==> Opcode(Decode(op)) == op
  {
  }

  /** `OpcodeDecode` for the opcodes 0x20 to 0x2c. */
  lemma OpcodeDecodeRow2(op: Byte)
    requires 0x20 <= op <= 0x2c
    ensures InPrefix(Decode(op))
    ensures Decode(op) == Nop <==> op % 8 == 0
    ensures op % 8 != 0 || op == 0 <==> Opcode(Decode(op)) == op
  {
  }

  /** Conversely, every opcode of the prefix is the encoding of the
      instruction its case runs, except the unused slots 0x08, 0x10, 0x18,
      0x20 and 0x28, which the dispatcher treats as NOP. */
  lemma OpcodeDecode(op: Byte)
    requires op <= 0x2c
    ensures InPrefix(Decode(op))
    ensures Decode(op) == Nop <==> op % 8 == 0
    ensures op % 8 != 0 || op == 0 <==> Opcode(Decode(op)) == op
  {
    if op < 0x10 {
      OpcodeDecodeRow0(op);
    } else if op < 0x20 {
      OpcodeDecodeRow1(op);
    } else {
      OpcodeDecodeRow2(op);
    }
  }

  /** The memory accesses the instruction makes are inside the array, with
      `opcode` designating the fetched byte. */
  predicate OperandsInMemory(st: State, i: Instr) {
    match i
    case LxiOp(_) => InMemory(st.opcode + 2)
    case ShldOp => InMemory(st.opcode + 2) && InMemory(OperandWord(st) + 1)
    case LhldOp => InMemory(st.opcode + 2) && InMemory(OperandWord(st) + 1)
    case StaxOp(rp) => InMemory(PairValue(st, rp))
    case LdaxOp(rp) => InMemory(PairValue(st, rp))
    case MviOp(_) => InMemory(st.opcode + 1)
    case _ => true
  }

  /** The handler an instruction runs, before the case's `pc` and clock
      updates: NOP leaves the record alone, MVI and STAX are written inline in
      the dispatcher. Only memory, the registers and the flags can change. */
  function Execute(st: State, i: Instr): (r: State)
    requires OperandsInMemory(st, i)
    ensures r == st.(memory := r.memory, a := r.a, b := r.b, c := r.c, d := r.d,
                     e := r.e, h := r.h, l := r.l, flags := r.flags)
  {
    match i
    case Nop => st
    case LxiOp(rp) => Lxi(st, rp)
    case StaxOp(rp) => Stax(st, rp)
    case InxOp(rp) => Inx(st, rp)
    case DadOp(rp) => Dad(st, rp)
    case LdaxOp(rp) => Ldax(st, rp)
    case DcxOp(rp) => Dcx(st, rp)
    case InrOp(reg) => Inr(st, reg)
    case DcrOp(reg) => Dcr(st, reg)
    case MviOp(reg) => Mvi(st, reg)
    case RlcOp => Rlc(st)
    case RrcOp => Rrc(st)
    case RalOp => Ral(st)
    case RarOp => Rar(st)
    case ShldOp => Shld(st)
    case LhldOp => Lhld(st)
    case DaaOp => Daa(st)
  }

  /** The literal each case adds to `clock_count`; every case adds exactly
      the table's cost of its opcode. */
  function CaseCycles(op: Byte): (n: nat)
    requires op <= 0x2c
    ensures n == Cycles(op)
  {
    CyclesRow0();
    CyclesRow1();
    CyclesRow2();
    match op
    case 0x00 => 4
    case 0x01 => 10
    case 0x02 => 7
    case 0x03 => 5
    case 0x04 => 5
    case 0x05 => 5
    case 0x06 => 7
    case 0x07 => 4
    case 0x08 => 4
    case 0x09 => 10
    case 0x0a => 7
    case 0x0b => 5
    case 0x0c => 5
    case 0x0d => 5
    case 0x0e => 7
    case 0x0f => 4
    case 0x10 => 4
    case 0x11 => 10
    case 0x12 => 7
    case 0x13 => 5
    case 0x14 => 5
    case 0x15 => 5
    case 0x16 => 7
    case 0x17 => 4
    case 0x18 => 4
    case 0x19 => 10
    case 0x1a => 7
    case 0x1b => 5
    case 0x1c => 5
    case 0x1d => 5
    case 0x1e => 7
    case 0x1f => 4
    case 0x20 => 4
    case 0x21 => 10
    case 0x22 => 16
    case 0x23 => 5
    case 0x24 => 5
    case 0x25 => 5
    case 0x26 => 7
    case 0x27 => 4
    case 0x28 => 4
    case 0x29 => 10
    case 0x2a => 16
    case 0x2b => 5
    case _ => 5
  }

  /** The outcome of one `emulate` call. */
  datatype Step = Executed(next: State) | OutsidePrefix(op: Byte)

  /** The record after the fetch: the instruction is counted, `opcode`
      designates the byte at `pc`, and `pc` moves past it. */
  function Fetch(st: State): (r: State)
    requires InMemory(st.pc)
    ensures r.instructionCount == AddU64(st.instructionCount, 1)
    ensures r.opcode == st.pc && r.pc == st.pc + 1
    ensures r == st.(instructionCount := r.instructionCount, opcode := r.opcode, pc := r.pc)
  {
    st.(instructionCount := AddU64(st.instructionCount, 1), opcode := st.pc, pc := st.pc + 1)
  }

  /** One `emulate` call. An opcode of the prefix runs its handler, then
      `pc += skip` and `clock_count += cycles`: the instruction count grows by
      one, the clock by the table's cost of the opcode, and `pc` by one plus
      the case's operand skip, modulo 2^16; the stack pointer, the ports and
      the status bytes are untouched. */
  function Emulate(st: State): (s: Step)
    requires InMemory(st.pc)
    requires st.memory[st.pc] <= 0x2c ==> OperandsInMemory(Fetch(st), Decode(st.memory[st.pc]))
    ensures s.Executed? <==> st.memory[st.pc] <= 0x2c
    ensures s.OutsidePrefix? ==> s.op == st.memory[st.pc]
    ensures s.Executed? ==>
              var op := st.memory[st.pc];
              && s.next.instructionCount == AddU64(st.instructionCount, 1)
              && s.next.clockCount == AddU64(st.clockCount, Cycles(op))
              && s.next.pc == (st.pc + 1 + OperandSkip(op)) % 0x1_0000
              && s.next.opcode == st.pc && s.next.sp == st.sp
              && s.next.inPort == st.inPort && s.next.outPort == st.outPort
              && s.next.halt == st.halt && s.next.interruptsEnabled == st.interruptsEnabled
  {
    var op := st.memory[st.pc];
    var fetched := Fetch(st);
    if op > 0x2c then OutsidePrefix(op)
    else
      var handled := Execute(fetched, Decode(op));
      var skipped := handled.(pc := Wrap16(handled.pc + OperandSkip(op)));
      Executed(skipped.(clockCount := AddU64(skipped.clockCount, CaseCycles(op))))
  }

  /** The NOP opcodes of the prefix only count the instruction, move `pc`
      past the opcode byte and add four cycles. */
  lemma EmulateNop(st: State)
    requires InMemory(st.pc) && st.memory[st.pc] in {0x00, 0x08, 0x10, 0x18, 0x20, 0x28}
    ensures Emulate(st) == Executed(st.(instructionCount := AddU64(st.instructionCount, 1),
                                        opcode := st.pc, pc := st.pc + 1,
                                        clockCount := AddU64(st.clockCount, 4)))
  {
    CyclesRow0();
    CyclesRow1();
    CyclesRow2();
  }

  /** The byte at `pc` is an opcode of the prefix whose case runs `i`. */
  predicate Fetches(st: State, i: Instr) {
    InMemory(st.pc) && st.memory[st.pc] <= 0x2c && Decode(st.memory[st.pc]) == i
  }

  /** For an instruction other than LXI and MVI, the next record is the
      handler's record after the fetch, with the clock advanced by the table's
      cost of the opcode. */
  lemma EmulateWithoutSkip(st: State, i: Instr)
    requires Fetches(st, i) && !i.LxiOp? && !i.MviOp?
    requires OperandsInMemory(Fetch(st), i)
    ensures Emulate(st) == Executed(Execute(Fetch(st), i).(
                                      clockCount := AddU64(st.clockCount, Cycles(st.memory[st.pc]))))
  {
  }

  /** MVI through the dispatcher loads the byte after the opcode into the
      register and changes no other register; `pc` then moves past the
      operand for B, E and H, one byte further for D and not at all for C, as
      the cases are written. For D at 0xFFFD the 16-bit `pc` wraps to 0. */
  lemma EmulateMvi(st: State, reg: Reg)
    requires InMemory(st.pc + 1) && Fetches(st, MviOp(reg))
    ensures Emulate(st).Executed?
    ensures Get(Emulate(st).next, reg) == st.memory[st.pc + 1]
    ensures forall q :: q != reg ==> Get(Emulate(st).next, q) == Get(st, q)
    ensures Emulate(st).next.flags == st.flags && Emulate(st).next.memory == st.memory
    ensures Emulate(st).next.pc == (st.pc + (match reg case C => 1 case D => 3 case _ => 2)) % 0x1_0000
  {
    OpcodeDecode(st.memory[st.pc]);
  }

  /** LXI through the dispatcher loads the operand word into the pair; `pc`
      then skips the operand for BC only, as the cases are written. */
  lemma EmulateLxi(st: State, rp: Pair)
    requires InMemory(st.pc + 2) && Fetches(st, LxiOp(rp))
    ensures Emulate(st).Executed?
    ensures PairValue(Emulate(st).next, rp) == Join(st.memory[st.pc + 2], st.memory[st.pc + 1])
    ensures KeptExcept(Emulate(st).next, st, {rp.High(), rp.Low()})
    ensures Emulate(st).next.pc == st.pc + (if rp == BC then 3 else 1)
    ensures Emulate(st).next.flags == st.flags && Emulate(st).next.memory == st.memory
  {
    OpcodeDecode(st.memory[st.pc]);
  }

  /** INR on the fetched record, with the clock then set to `c`: the fetch
      touches no register, flag or memory cell, so the handler's effect is
      stated against the record before the fetch. */
  lemma InrAfterFetch(st: State, reg: Reg, n: State, c: U64)
    requires InMemory(st.pc) && n == Inr(Fetch(st), reg).(clockCount := c)
    ensures Get(n, reg) == (Get(st, reg) + 1) % 0x100
    ensures KeptExcept(n, st, {reg})
    ensures n.flags.cy == st.flags.cy
    ensures n.flags.z == 1 <==> Get(st, reg) == 0xFF
    ensures n.memory == st.memory && n.pc == st.pc + 1
  {
    var fetched := Fetch(st);
    assert KeptExcept(n, Inr(fetched, reg), {});
    SameRegister(n, Inr(fetched, reg), reg);
    SameRegister(fetched, st, reg);
  }

  /** DCR on the fetched record, with the clock then set to `c`. */
  lemma DcrAfterFetch(st: State, reg: Reg, n: State, c: U64)
    requires InMemory(st.pc) && n == Dcr(Fetch(st), reg).(clockCount := c)
    ensures Get(n, reg) == (Get(st, reg) - 1) % 0x100
    ensures KeptExcept(n, st, {reg})
    ensures n.flags.cy == st.flags.cy && n.flags.ac == st.flags.ac
    ensures n.flags.z == 1 <==> Get(st, reg) == 1
    ensures n.memory == st.memory && n.pc == st.pc + 1
  {
    var fetched := Fetch(st);
    assert KeptExcept(n, Dcr(fetched, reg), {});
    SameRegister(n, Dcr(fetched, reg), reg);
    SameRegister(fetched, st, reg);
  }

  /** DCX on the fetched record, with the clock then set to `c`. */
  lemma DcxAfterFetch(st: State, rp: Pair, n: State, c: U64)
    requires InMemory(st.pc) && n == Dcx(Fetch(st), rp).(clockCount := c)
    ensures PairValue(n, rp) == (PairValue(st, rp) - 1) % 0x1_0000
    ensures KeptExcept(n, st, {rp.High(), rp.Low()})
    ensures n.flags == st.flags && n.memory == st.memory && n.pc == st.pc + 1
  {
    var fetched := Fetch(st);
    assert KeptExcept(n, Dcx(fetched, rp), {});
    SamePair(n, Dcx(fetched, rp), rp);
    SamePair(fetched, st, rp);
  }

  /** DAD on the fetched record, with the clock then set to `c`. */
  lemma DadAfterFetch(st: State, rp: Pair, n: State, c: U64)
    requires InMemory(st.pc) && n == Dad(Fetch(st), rp).(clockCount := c)
    ensures PairValue(n, HL) == (PairValue(st, HL) + PairValue(st, rp)) % 0x1_0000
    ensures n.flags == st.flags.(cy := BitOf(PairValue(st, HL) + PairValue(st, rp) > 0xFFFF))
    ensures KeptExcept(n, st, {H, L})
    ensures n.memory == st.memory && n.pc == st.pc + 1
  {
    var fetched := Fetch(st);
    assert KeptExcept(n, Dad(fetched, rp), {});
    SamePair(n, Dad(fetched, rp), HL);
    SamePair(fetched, st, HL);
    SamePair(fetched, st, rp);
  }

  /** INR through the dispatcher (0x04, 0x0c, ... 0x2c) increments the register
      modulo 256, keeps the carry, sets zero exactly on the wrap from 0xFF, and
      changes no other register and no memory; `pc` moves past the opcode. */
  lemma EmulateInr(st: State, reg: Reg)
    requires Fetches(st, InrOp(reg))
    ensures Emulate(st).Executed?
    ensures Get(Emulate(st).next, reg) == (Get(st, reg) + 1) % 0x100
    ensures KeptExcept(Emulate(st).next, st, {reg})
    ensures Emulate(st).next.flags.cy == st.flags.cy
    ensures Emulate(st).next.flags.z == 1 <==> Get(st, reg) == 0xFF
    ensures Emulate(st).next.memory == st.memory && Emulate(st).next.pc == st.pc + 1
  {
    EmulateWithoutSkip(st, InrOp(reg));
    InrAfterFetch(st, reg, Emulate(st).next, AddU64(st.clockCount, Cycles(st.memory[st.pc])));
  }

  /** DCR through the dispatcher (0x05, 0x0d, ... 0x25) decrements the register
      modulo 256, keeps the carry and auxiliary carry, sets zero exactly when
      the register was 1, and changes no other register and no memory. */
  lemma EmulateDcr(st: State, reg: Reg)
    requires Fetches(st, DcrOp(reg))
    ensures Emulate(st).Executed?
    ensures Get(Emulate(st).next, reg) == (Get(st, reg) - 1) % 0x100
    ensures KeptExcept(Emulate(st).next, st, {reg})
    ensures Emulate(st).next.flags.cy == st.flags.cy && Emulate(st).next.flags.ac == st.flags.ac
    ensures Emulate(st).next.flags.z == 1 <==> Get(st, reg) == 1
    ensures Emulate(st).next.memory == st.memory && Emulate(st).next.pc == st.pc + 1
  {
    EmulateWithoutSkip(st, DcrOp(reg));
    DcrAfterFetch(st, reg, Emulate(st).next, AddU64(st.clockCount, Cycles(st.memory[st.pc])));
  }

  /** INX through the dispatcher (0x03, 0x13, 0x23) only counts the
      instruction, moves `pc` past the opcode and adds five cycles: the pair
      is not incremented. */
  lemma EmulateInx(st: State, rp: Pair)
    requires Fetches(st, InxOp(rp))
    ensures Emulate(st) == Executed(st.(instructionCount := AddU64(st.instructionCount, 1),
                                        opcode := st.pc, pc := st.pc + 1,
                                        clockCount := AddU64(st.clockCount, 5)))
  {
    EmulateWithoutSkip(st, InxOp(rp));
    OpcodeDecode(st.memory[st.pc]);
    CyclesRow0();
    CyclesRow1();
    CyclesRow2();
  }

  /** DCX through the dispatcher (0x0b, 0x1b, 0x2b) decrements the pair modulo
      2^16 and changes no other register, no flag and no memory. */
  lemma EmulateDcx(st: State, rp: Pair)
    requires Fetches(st, DcxOp(rp))
    ensures Emulate(st).Executed?
    ensures PairValue(Emulate(st).next, rp) == (PairValue(st, rp) - 1) % 0x1_0000
    ensures KeptExcept(Emulate(st).next, st, {rp.High(), rp.Low()})
    ensures Emulate(st).next.flags == st.flags && Emulate(st).next.memory == st.memory
    ensures Emulate(st).next.pc == st.pc + 1
  {
    EmulateWithoutSkip(st, DcxOp(rp));
    DcxAfterFetch(st, rp, Emulate(st).next, AddU64(st.clockCount, Cycles(st.memory[st.pc])));
  }

  /** DAD through the dispatcher (0x09, 0x19, 0x29) adds the pair to HL modulo
      2^16, sets the carry exactly on a carry out of bit 15, and keeps the
      other flags, the accumulator, BC, DE and memory. */
  lemma EmulateDad(st: State, rp: Pair)
    requires Fetches(st, DadOp(rp))
    ensures Emulate(st).Executed?
    ensures PairValue(Emulate(st).next, HL) == (PairValue(st, HL) + PairValue(st, rp)) % 0x1_0000
    ensures Emulate(st).next.flags == st.flags.(cy := BitOf(PairValue(st, HL) + PairValue(st, rp) > 0xFFFF))
    ensures KeptExcept(Emulate(st).next, st, {H, L})
    ensures Emulate(st).next.memory == st.memory && Emulate(st).next.pc == st.pc + 1
  {
    EmulateWithoutSkip(st, DadOp(rp));
    DadAfterFetch(st, rp, Emulate(st).next, AddU64(st.clockCount, Cycles(st.memory[st.pc])));
  }

  /** STAX through the dispatcher (0x02, 0x12) stores the accumulator at the
      address in the pair and changes no other cell, no register and no flag. */
  lemma EmulateStax(st: State, rp: Pair)
    requires Fetches(st, StaxOp(rp)) && InMemory(PairValue(st, rp))
    ensures Emulate(st).Executed?
    ensures StoredAt(st.memory, Emulate(st).next.memory, PairValue(st, rp), st.a)
    ensures KeptExcept(Emulate(st).next, st, {})
    ensures Emulate(st).next.flags == st.flags && Emulate(st).next.pc == st.pc + 1
  {
    EmulateWithoutSkip(st, StaxOp(rp));
  }

  /** LDAX through the dispatcher (0x0a, 0x1a) loads the byte at the address in
      the pair into the accumulator and changes nothing else but `pc`. */
  lemma EmulateLdax(st: State, rp: Pair)
    requires Fetches(st, LdaxOp(rp)) && InMemory(PairValue(st, rp))
    ensures Emulate(st).Executed?
    ensures Emulate(st).next.a == st.memory[PairValue(st, rp)]
    ensures KeptExcept(Emulate(st).next, st, {A})
    ensures Emulate(st).next.flags == st.flags && Emulate(st).next.memory == st.memory
    ensures Emulate(st).next.pc == st.pc + 1
  {
    EmulateWithoutSkip(st, LdaxOp(rp));
  }

  /** RLC through the dispatcher (0x07) rotates the accumulator left, bit 7
      going to bit 0 and to the carry; the other flags, registers and memory
      are kept and `pc` moves past the opcode. */
  lemma EmulateRlc(st: State)
    requires Fetches(st, RlcOp)
    ensures Emulate(st).Executed?
    ensures Emulate(st).next.flags.cy == Bit7(st.a) && Emulate(st).next.a % 2 == Bit7(st.a)
    ensures Emulate(st).next.a / 2 == st.a % 0x80
    ensures Emulate(st).next.flags == st.flags.(cy := Emulate(st).next.flags.cy)
    ensures KeptExcept(Emulate(st).next, st, {A})
    ensures Emulate(st).next.memory == st.memory && Emulate(st).next.pc == st.pc + 1
  {
    EmulateWithoutSkip(st, RlcOp);
  }

  /** RRC through the dispatcher (0x0f) rotates the accumulator right, bit 0
      going to bit 7 and to the carry. */
  lemma EmulateRrc(st: State)
    requires Fetches(st, RrcOp)
    ensures Emulate(st).Executed?
    ensures Emulate(st).next.flags.cy == st.a % 2 && Bit7(Emulate(st).next.a) == st.a % 2
    ensures Emulate(st).next.a % 0x80 == st.a / 2
    ensures Emulate(st).next.flags == st.flags.(cy := Emulate(st).next.flags.cy)
    ensures KeptExcept(Emulate(st).next, st, {A})
    ensures Emulate(st).next.memory == st.memory && Emulate(st).next.pc == st.pc + 1
  {
    EmulateWithoutSkip(st, RrcOp);
  }

  /** RAL through the dispatcher (0x17) rotates the accumulator left through
      the carry: the old carry enters bit 0 and bit 7 becomes the carry. */
  lemma EmulateRal(st: State)
    requires Fetches(st, RalOp)
    ensures Emulate(st).Executed?
    ensures Emulate(st).next.flags.cy == Bit7(st.a) && Emulate(st).next.a % 2 == st.flags.cy
    ensures Emulate(st).next.a / 2 == st.a % 0x80
    ensures Emulate(st).next.flags == st.flags.(cy := Emulate(st).next.flags.cy)
    ensures KeptExcept(Emulate(st).next, st, {A})
    ensures Emulate(st).next.memory == st.memory && Emulate(st).next.pc == st.pc + 1
  {
    EmulateWithoutSkip(st, RalOp);
  }

  /** RAR through the dispatcher (0x1f) rotates the accumulator right through
      the carry: the old carry enters bit 7 and bit 0 becomes the carry. */
  lemma EmulateRar(st: State)
    requires Fetches(st, RarOp)
    ensures Emulate(st).Executed?
    ensures Emulate(st).next.flags.cy == st.a % 2 && Bit7(Emulate(st).next.a) == st.flags.cy
    ensures Emulate(st).next.a % 0x80 == st.a / 2
    ensures Emulate(st).next.flags == st.flags.(cy := Emulate(st).next.flags.cy)
    ensures KeptExcept(Emulate(st).next, st, {A})
    ensures Emulate(st).next.memory == st.memory && Emulate(st).next.pc == st.pc + 1
  {
    EmulateWithoutSkip(st, RarOp);
  }

  /** SHLD through the dispatcher (0x22) stores L at the operand address and H
      one above it, changes no other cell, register or flag, and leaves `pc`
      on the operand bytes. */
  lemma EmulateShld(st: State)
    requires InMemory(st.pc + 2) && Fetches(st, ShldOp)
    requires InMemory(Join(st.memory[st.pc + 2], st.memory[st.pc + 1]) + 1)
    ensures Emulate(st).Executed?
    ensures var w := Join(st.memory[st.pc + 2], st.memory[st.pc + 1]);
            && Emulate(st).next.memory[w] == st.l && Emulate(st).next.memory[w + 1] == st.h
            && forall i :: 0 <= i < MEMORY_SIZE && i != w && i != w + 1
                           ==> Emulate(st).next.memory[i] == st.memory[i]
    ensures KeptExcept(Emulate(st).next, st, {})
    ensures Emulate(st).next.flags == st.flags && Emulate(st).next.pc == st.pc + 1
  {
    EmulateWithoutSkip(st, ShldOp);
  }

  /** LHLD through the dispatcher (0x2a) loads L from the operand address and H
      from the cell above it, changes nothing else but `pc`, and leaves `pc`
      on the operand bytes. */
  lemma EmulateLhld(st: State)
    requires InMemory(st.pc + 2) && Fetches(st, LhldOp)
    requires InMemory(Join(st.memory[st.pc + 2], st.memory[st.pc + 1]) + 1)
    ensures Emulate(st).Executed?
    ensures var w := Join(st.memory[st.pc + 2], st.memory[st.pc + 1]);
            Emulate(st).next.l == st.memory[w] && Emulate(st).next.h == st.memory[w + 1]
    ensures KeptExcept(Emulate(st).next, st, {H, L})
    ensures Emulate(st).next.flags == st.flags && Emulate(st).next.memory == st.memory
    ensures Emulate(st).next.pc == st.pc + 1
  {
    EmulateWithoutSkip(st, LhldOp);
  }

  /** DAA through the dispatcher (0x27) always ends with the carry clear, sets
      the accumulator's low nibble as the first step leaves it, and changes no
      other register and no memory. */
  lemma EmulateDaa(st: State)
    requires Fetches(st, DaaOp)
    ensures Emulate(st).Executed?
    ensures Emulate(st).next.flags.cy == 0
    ensures Emulate(st).next.a % 0x10 ==
              if st.a > 9 || st.flags.ac == 1 then (st.a + 6) % 0x10 else st.a % 0x10
    ensures KeptExcept(Emulate(st).next, st, {A})
    ensures Emulate(st).next.memory == st.memory && Emulate(st).next.pc == st.pc + 1
  {
    EmulateWithoutSkip(st, DaaOp);
  }
}

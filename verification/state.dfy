/**
 The processor record `i8080`: memory, program counter, stack pointer, the
 seven 8-bit registers, the five one-bit condition flags, the port banks
 and the status counters, together with register-slot access and the
 operand bytes that follow the current opcode.
 */
module Machine {
  import opened Bits

  /** The memory array has 0xFFFF cells, so 0xFFFF itself is not an address
      of it: valid indices are 0 .. 0xFFFE. */
  const MEMORY_SIZE: int := 0xFFFF

  type Memory = m: seq<Byte> | |m| == MEMORY_SIZE witness seq(MEMORY_SIZE, _ => 0)

  /** `uint8_t in_port[4]`. */
  type InPorts = ports: seq<Byte> | |ports| == 4 witness [0, 0, 0, 0]

  /** `uint8_t out_port[7]`. */
  type OutPorts = ports: seq<Byte> | |ports| == 7 witness [0, 0, 0, 0, 0, 0, 0]

  /** The five condition flags, each a one-bit field. */
  datatype Flags = Flags(z: Bit, s: Bit, p: Bit, cy: Bit, ac: Bit)

  /** A register operand, standing for the `uint8_t*` the handlers receive. */
  datatype Reg = A | B | C | D | E | H | L

  /** The register pairs the handlers are called with: high register first. */
  datatype Pair = BC | DE | HL {
    function High(): Reg {
      match this
      case BC => B
      case DE => D
      case HL => H
    }

    function Low(): Reg {
      match this
      case BC => C
      case DE => E
      case HL => L
    }
  }

  /** The processor record. `opcode` is the address the `opcode` pointer
      designates: the first byte of the instruction being executed. */
  datatype State = State(
    memory: Memory,
    pc: U16,
    sp: U16,
    opcode: U16,
    a: Byte, b: Byte, c: Byte, d: Byte, e: Byte, h: Byte, l: Byte,
    flags: Flags,
    inPort: InPorts,
    outPort: OutPorts,
    halt: Byte,
    interruptsEnabled: Byte,
    clockCount: U64,
    instructionCount: U64)

  /** An index of the memory array. */
  predicate InMemory(addr: int) {
    0 <= addr < MEMORY_SIZE
  }

  function Get(st: State, r: Reg): Byte {
    match r
    case A => st.a
    case B => st.b
    case C => st.c
    case D => st.d
    case E => st.e
    case H => st.h
    case L => st.l
  }

  /** Store through a register operand: that register takes `v`, every other
      register and every other part of the record keeps its value. */
  function Set(st: State, r: Reg, v: Byte): (st': State)
    ensures Get(st', r) == v
    ensures forall q :: q != r ==> Get(st', q) == Get(st, q)
    ensures st' == st.(a := st'.a, b := st'.b, c := st'.c, d := st'.d,
                       e := st'.e, h := st'.h, l := st'.l)
  {
    match r
    case A => st.(a := v)
    case B => st.(b := v)
    case C => st.(c := v)
    case D => st.(d := v)
    case E => st.(e := v)
    case H => st.(h := v)
    case L => st.(l := v)
  }

  /** Every register outside `regs` holds the same value in both records. */
  predicate KeptExcept(s1: State, s2: State, regs: set<Reg>) {
    && (A !in regs ==> s1.a == s2.a) && (B !in regs ==> s1.b == s2.b)
    && (C !in regs ==> s1.c == s2.c) && (D !in regs ==> s1.d == s2.d)
    && (E !in regs ==> s1.e == s2.e) && (H !in regs ==> s1.h == s2.h)
    && (L !in regs ==> s1.l == s2.l)
  }

  /** `(*reg1 << 8) | *reg2` for a register pair. */
  function PairValue(st: State, rp: Pair): U16 {
    Join(Get(st, rp.High()), Get(st, rp.Low()))
  }

  /** Records that agree on every register agree through every register
      operand. */
  lemma SameRegister(s1: State, s2: State, reg: Reg)
    requires KeptExcept(s1, s2, {})
    ensures Get(s1, reg) == Get(s2, reg)
  {
  }

  /** Records that agree on every register agree on every pair. */
  lemma SamePair(s1: State, s2: State, rp: Pair)
    requires KeptExcept(s1, s2, {})
    ensures PairValue(s1, rp) == PairValue(s2, rp)
  {
  }

  /** The first operand byte, `opcode[1]`. */
  function Operand1(st: State): Byte
    requires InMemory(st.opcode + 1)
  {
    st.memory[st.opcode + 1]
  }

  /** The second operand byte, `opcode[2]`. */
  function Operand2(st: State): Byte
    requires InMemory(st.opcode + 2)
  {
    st.memory[st.opcode + 2]
  }

  /** The little-endian 16-bit operand `opcode[2] << 8 | opcode[1]`. */
  function OperandWord(st: State): U16
    requires InMemory(st.opcode + 2)
  {
    Join(Operand2(st), Operand1(st))
  }

  /** The record as the constructor leaves it. The constructor does not set the
      memory, the output ports, `instruction_count` or the `opcode` pointer, so
      their values are parameters. Of the input ports it sets bits 1, 2 and 3 of
      port 0 and bit 3 of port 1 after clearing the bank. */
  function Init(memory: Memory, outPort: OutPorts, instructionCount: U64, opcode: U16): (st: State)
    ensures st.pc == 0 && st.sp == 0
    ensures forall r :: Get(st, r) == 0
    ensures st.flags == Flags(0, 0, 0, 0, 0)
    ensures st.halt == 0 && st.interruptsEnabled == 0 && st.clockCount == 0
    ensures st.inPort[0] / 2 % 8 == 7 && st.inPort[0] % 2 == 0 && st.inPort[0] < 0x10
    ensures st.inPort[1] == 0x08 && st.inPort[2] == 0 && st.inPort[3] == 0
    ensures st.memory == memory && st.outPort == outPort
    ensures st.instructionCount == instructionCount
  {
    State(memory, 0, 0, opcode, 0, 0, 0, 0, 0, 0, 0,
          Flags(0, 0, 0, 0, 0),
          [2 + 4 + 8, 8, 0, 0], outPort,
          0, 0, 0, instructionCount)
  }
}

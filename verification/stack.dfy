/**
 Stack discipline: PUSH, POP, PUSH PSW, POP PSW, CALL and RET. The stack
 grows downwards; a pushed word keeps its high byte at the higher address.
 PUSH PSW, POP, POP PSW, CALL and RET index `memory[sp - 1]`,
 `memory[sp - 2]` and `memory[sp + 1]` after integer promotion, so those
 indices do not wrap. PUSH instead decrements the 16-bit `sp` itself before
 each store, and from 0 it wraps to 0xFFFF, one past the last of the 0xFFFF
 cells. Either way the in-range accesses are those with `sp >= 2` for a push
 and `sp + 1 <= 0xFFFE` for a pop.
 */
module Stack {
  import opened Bits
  import opened Machine
  import opened Transfer

  /** PUSH: the high register goes to `sp - 1`, the low one to `sp - 2`, and
      `sp` drops by two; the rest of memory and every register are kept. */
  function Push(st: State, rp: Pair): (r: State)
    requires st.sp >= 2
    ensures r.sp == st.sp - 2
    ensures r.memory[st.sp - 1] == Get(st, rp.High()) && r.memory[st.sp - 2] == Get(st, rp.Low())
    ensures Join(r.memory[st.sp - 1], r.memory[st.sp - 2]) == PairValue(st, rp)
    ensures forall i :: 0 <= i < MEMORY_SIZE && i != st.sp - 1 && i != st.sp - 2
                        ==> r.memory[i] == st.memory[i]
    ensures r == st.(memory := r.memory, sp := r.sp)
  {
    var st1 := st.(sp := st.sp - 1);
    var st2 := st1.(memory := st1.memory[st1.sp := Get(st, rp.High())]);
    var st3 := st2.(sp := st2.sp - 1);
    st3.(memory := st3.memory[st3.sp := Get(st, rp.Low())])
  }

  /** POP: the low register takes the byte at `sp`, the high one the byte at
      `sp + 1`, and `sp` rises by two; memory and the other registers are kept. */
  function Pop(st: State, rp: Pair): (r: State)
    requires InMemory(st.sp + 1)
    ensures Get(r, rp.Low()) == st.memory[st.sp] && Get(r, rp.High()) == st.memory[st.sp + 1]
    ensures PairValue(r, rp) == Join(st.memory[st.sp + 1], st.memory[st.sp])
    ensures r.sp == st.sp + 2
    ensures forall q :: q != rp.High() && q != rp.Low() ==> Get(r, q) == Get(st, q)
    ensures r == st.(sp := r.sp, a := r.a, b := r.b, c := r.c, d := r.d, e := r.e, h := r.h, l := r.l)
  {
    var st1 := Set(st, rp.Low(), st.memory[st.sp]);
    var st2 := Set(st1, rp.High(), st.memory[st.sp + 1]);
    st2.(sp := st2.sp + 2)
  }

  /** The flag byte PUSH PSW stores, `s z 0 ac 0 p 1 cy` from bit 7 down. */
  function PackPsw(f: Flags): (psw: Byte)
    ensures psw % 2 == f.cy
    ensures psw / 2 % 2 == 1
    ensures psw / 4 % 2 == f.p
    ensures psw / 8 % 2 == 0
    ensures psw / 16 % 2 == f.ac
    ensures psw / 32 % 2 == 0
    ensures psw / 64 % 2 == f.z
    ensures psw / 128 == f.s
  {
    var psw := f.s * 128 + f.z * 64 + f.ac * 16 + f.p * 4 + 2 + f.cy;
    assert psw / 2 == f.s * 64 + f.z * 32 + f.ac * 8 + f.p * 2 + 1;
    assert psw / 4 == f.s * 32 + f.z * 16 + f.ac * 4 + f.p;
    assert psw / 8 == f.s * 16 + f.z * 8 + f.ac * 2;
    assert psw / 16 == f.s * 8 + f.z * 4 + f.ac;
    assert psw / 32 == f.s * 4 + f.z * 2;
    assert psw / 64 == f.s * 2 + f.z;
    psw
  }

  /** The flags POP PSW takes from a flag byte: bits 7, 6, 4, 2 and 0. */
  function UnpackPsw(psw: Byte): (f: Flags)
    ensures f.s == psw / 128 && f.z == psw / 64 % 2 && f.ac == psw / 16 % 2
    ensures f.p == psw / 4 % 2 && f.cy == psw % 2
  {
    Flags(z := psw / 64 % 2, s := psw / 128, p := psw / 4 % 2, cy := psw % 2, ac := psw / 16 % 2)
  }

  /** PUSH PSW: the accumulator goes to `sp - 1`, the flag byte to `sp - 2`. */
  function PushPsw(st: State): (r: State)
    requires st.sp >= 2
    ensures r.sp == st.sp - 2
    ensures r.memory[st.sp - 1] == st.a && r.memory[st.sp - 2] == PackPsw(st.flags)
    ensures forall i :: 0 <= i < MEMORY_SIZE && i != st.sp - 1 && i != st.sp - 2
                        ==> r.memory[i] == st.memory[i]
    ensures r == st.(memory := r.memory, sp := r.sp)
  {
    var psw := PackPsw(st.flags);
    st.(memory := st.memory[st.sp - 1 := st.a][st.sp - 2 := psw], sp := st.sp - 2)
  }

  /** POP PSW: the accumulator takes the byte at `sp + 1`, the five flags the
      bits of the byte at `sp`. */
  function PopPsw(st: State): (r: State)
    requires InMemory(st.sp + 1)
    ensures r.a == st.memory[st.sp + 1]
    ensures r.flags == UnpackPsw(st.memory[st.sp])
    ensures r.sp == st.sp + 2
    ensures r == st.(a := r.a, flags := r.flags, sp := r.sp)
  {
    var psw := st.memory[st.sp];
    st.(a := st.memory[st.sp + 1],
        flags := Flags(z := psw / 64 % 2, s := psw / 128, p := psw / 4 % 2,
                       cy := psw % 2, ac := psw / 16 % 2),
        sp := st.sp + 2)
  }

  /** CALL: `pc + 2` (16-bit) is pushed high byte first, `sp` drops by two,
      and `pc` takes the operand word. The stores come before the operand is
      read, so when the stack slots overlap the operand bytes the new `pc` is
      read from the updated memory; otherwise it is the operand word. */
  function Call(st: State): (r: State)
    requires st.sp >= 2 && InMemory(st.opcode + 2)
    ensures r.sp == st.sp - 2
    ensures r.memory[st.sp - 1] == HighByte(Wrap16(st.pc + 2))
    ensures r.memory[st.sp - 2] == LowByte(Wrap16(st.pc + 2))
    ensures forall i :: 0 <= i < MEMORY_SIZE && i != st.sp - 1 && i != st.sp - 2
                        ==> r.memory[i] == st.memory[i]
    ensures r.pc == Join(r.memory[st.opcode + 2], r.memory[st.opcode + 1])
    ensures st.sp - 1 < st.opcode + 1 || st.opcode + 2 < st.sp - 2 ==> r.pc == OperandWord(st)
    ensures r == st.(memory := r.memory, sp := r.sp, pc := r.pc)
  {
    var returnAddress := Wrap16(st.pc + 2);
    var memory := st.memory[st.sp - 1 := HighByte(returnAddress)][st.sp - 2 := LowByte(returnAddress)];
    var st1 := st.(memory := memory, sp := st.sp - 2);
    st1.(pc := OperandWord(st1))
  }

  /** RET: `pc` takes the word at the top of the stack, low byte at `sp`, and
      `sp` rises by two. */
  function Ret(st: State): (r: State)
    requires InMemory(st.sp + 1)
    ensures LowByte(r.pc) == st.memory[st.sp] && HighByte(r.pc) == st.memory[st.sp + 1]
    ensures r.sp == st.sp + 2
    ensures r == st.(pc := r.pc, sp := r.sp)
  {
    var target := Join(st.memory[st.sp + 1], st.memory[st.sp]);
    JoinBytes(st.memory[st.sp + 1], st.memory[st.sp]);
    st.(pc := target, sp := st.sp + 2)
  }

  /** Unpacking the pushed flag byte gives back every flag. */
  lemma UnpackPack(f: Flags)
    ensures UnpackPsw(PackPsw(f)) == f
  {
  }

  /** A byte is the sum of its eight bits. */
  lemma {:induction false} ByteBits(x: Byte)
    ensures x == x / 128 * 128 + x / 64 % 2 * 64 + x / 32 % 2 * 32 + x / 16 % 2 * 16
                 + x / 8 % 2 * 8 + x / 4 % 2 * 4 + x / 2 % 2 * 2 + x % 2
  {
    assert x / 4 == x / 2 / 2 && x / 8 == x / 4 / 2 && x / 16 == x / 8 / 2;
    assert x / 32 == x / 16 / 2 && x / 64 == x / 32 / 2 && x / 128 == x / 64 / 2;
    assert x == x / 2 * 2 + x % 2;
    assert x / 2 == x / 4 * 2 + x / 2 % 2;
    assert x / 4 == x / 8 * 2 + x / 4 % 2;
    assert x / 8 == x / 16 * 2 + x / 8 % 2;
    assert x / 16 == x / 32 * 2 + x / 16 % 2;
    assert x / 32 == x / 64 * 2 + x / 32 % 2;
    assert x / 64 == x / 128 * 2 + x / 64 % 2;
  }

  /** A byte is a pushed flag byte exactly when bit 1 is set and bits 5 and 3
      are clear; then packing its flags rebuilds it. */
  lemma PackUnpack(psw: Byte)
    ensures PackPsw(UnpackPsw(psw)) == psw <==> psw / 2 % 2 == 1 && psw / 8 % 2 == 0 && psw / 32 % 2 == 0
  {
    ByteBits(psw);
  }

  /** XTHL right after `PUSH H` finds L and H on the stack, so it leaves both
      registers and the memory as the push left them; `sp` ends one below its
      value before the push, where the manual's XTHL would leave it two below. */
  lemma XthlAfterPush(st: State)
    requires st.sp >= 2
    ensures InMemory(Push(st, HL).sp + 1)
    ensures Xthl(Push(st, HL)).l == st.l && Xthl(Push(st, HL)).h == st.h
    ensures Xthl(Push(st, HL)).memory == Push(st, HL).memory
    ensures Xthl(Push(st, HL)).sp == st.sp - 1
  {
  }

  /** PUSH then POP of the same pair restores the registers and `sp`; only the
      two stack cells below the old `sp` keep the pushed bytes. */
  lemma PushThenPop(st: State, rp: Pair)
    requires st.sp >= 2
    ensures Pop(Push(st, rp), rp) == st.(memory := Push(st, rp).memory)
  {
  }

  /** PUSH of one pair then POP into another copies the first pair's value into
      the second (`PUSH B; POP D` moves BC into DE). */
  lemma PushThenPopInto(st: State, from: Pair, to: Pair)
    requires st.sp >= 2
    ensures PairValue(Pop(Push(st, from), to), to) == PairValue(st, from)
    ensures Pop(Push(st, from), to).sp == st.sp
  {
  }

  /** PUSH PSW then POP PSW restores the accumulator, all five flags and `sp`. */
  lemma PushPswThenPopPsw(st: State)
    requires st.sp >= 2
    ensures PopPsw(PushPsw(st)) == st.(memory := PushPsw(st).memory)
  {
    UnpackPack(st.flags);
  }

  /** A RET after a CALL resumes at `pc + 2` (16-bit) with the pre-CALL `sp`. */
  lemma CallThenRet(st: State)
    requires st.sp >= 2 && InMemory(st.opcode + 2)
    ensures Ret(Call(st)).pc == Wrap16(st.pc + 2)
    ensures Ret(Call(st)).sp == st.sp
    ensures Ret(Call(st)) == st.(memory := Call(st).memory, pc := Wrap16(st.pc + 2))
  {
    var returnAddress := Wrap16(st.pc + 2);
    SplitJoin(returnAddress);
  }
}

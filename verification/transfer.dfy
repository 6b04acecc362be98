/**
 Data transfer handlers: JMP, LXI, LDA, STA, LDAX, LHLD, SHLD, XCHG and
 XTHL, together with the store-through-pair and move-immediate code the
 dispatcher runs inline (STAX and MVI). Every memory access requires its
 index to lie inside the 0xFFFF-cell array; operand words are read
 little-endian from the two bytes after the opcode.
 */
module Transfer {
  import opened Bits
  import opened Machine

  /** Memory after one store: cell `addr` holds `v`, every other cell is kept. */
  predicate StoredAt(before: Memory, after: Memory, addr: int, v: Byte)
    requires InMemory(addr)
  {
    && after[addr] == v
    && forall i :: 0 <= i < MEMORY_SIZE && i != addr ==> after[i] == before[i]
  }

  /** JMP: the program counter takes the operand word, low byte first. */
  function Jmp(st: State): (r: State)
    requires InMemory(st.opcode + 2)
    ensures LowByte(r.pc) == st.memory[st.opcode + 1]
    ensures HighByte(r.pc) == st.memory[st.opcode + 2]
    ensures r == st.(pc := r.pc)
  {
    var target := OperandWord(st);
    JoinBytes(Operand2(st), Operand1(st));
    st.(pc := target)
  }

  /** LXI: the high register of the pair takes `opcode[2]`, the low one `opcode[1]`. */
  function Lxi(st: State, rp: Pair): (r: State)
    requires InMemory(st.opcode + 2)
    ensures Get(r, rp.High()) == st.memory[st.opcode + 2]
    ensures Get(r, rp.Low()) == st.memory[st.opcode + 1]
    ensures PairValue(r, rp) == OperandWord(st)
    ensures forall q :: q != rp.High() && q != rp.Low() ==> Get(r, q) == Get(st, q)
    ensures r == st.(a := r.a, b := r.b, c := r.c, d := r.d, e := r.e, h := r.h, l := r.l)
  {
    Set(Set(st, rp.High(), Operand2(st)), rp.Low(), Operand1(st))
  }

  /** LDA: the accumulator takes the byte at the operand address. */
  function Lda(st: State): (r: State)
    requires InMemory(st.opcode + 2) && InMemory(OperandWord(st))
    ensures r.a == st.memory[Join(st.memory[st.opcode + 2], st.memory[st.opcode + 1])]
    ensures r == st.(a := r.a)
  {
    st.(a := st.memory[OperandWord(st)])
  }

  /** STA: the accumulator is stored at the operand address. */
  function Sta(st: State): (r: State)
    requires InMemory(st.opcode + 2) && InMemory(OperandWord(st))
    ensures StoredAt(st.memory, r.memory, OperandWord(st), st.a)
    ensures r == st.(memory := r.memory)
  {
    st.(memory := st.memory[OperandWord(st) := st.a])
  }

  /** LDAX: the accumulator takes the byte the pair addresses. */
  function Ldax(st: State, rp: Pair): (r: State)
    requires InMemory(PairValue(st, rp))
    ensures r.a == st.memory[Join(Get(st, rp.High()), Get(st, rp.Low()))]
    ensures r == st.(a := r.a)
  {
    st.(a := st.memory[PairValue(st, rp)])
  }

  /** STAX (inline in the dispatcher): the accumulator is stored where the pair points. */
  function Stax(st: State, rp: Pair): (r: State)
    requires InMemory(PairValue(st, rp))
    ensures StoredAt(st.memory, r.memory, PairValue(st, rp), st.a)
    ensures r == st.(memory := r.memory)
  {
    st.(memory := st.memory[PairValue(st, rp) := st.a])
  }

  /** MVI (inline in the dispatcher): a register takes `opcode[1]`. */
  function Mvi(st: State, reg: Reg): (r: State)
    requires InMemory(st.opcode + 1)
    ensures Get(r, reg) == st.memory[st.opcode + 1]
    ensures r == Set(st, reg, Get(r, reg))
  {
    Set(st, reg, Operand1(st))
  }

  /** LHLD: L takes the byte at the operand address, H the byte after it. */
  function Lhld(st: State): (r: State)
    requires InMemory(st.opcode + 2) && InMemory(OperandWord(st) + 1)
    ensures r.l == st.memory[OperandWord(st)] && r.h == st.memory[OperandWord(st) + 1]
    ensures r == st.(h := r.h, l := r.l)
  {
    var address := OperandWord(st);
    st.(l := st.memory[address], h := st.memory[address + 1])
  }

  /** SHLD: L is stored at the operand address and H at the address after it. */
  function Shld(st: State): (r: State)
    requires InMemory(st.opcode + 2) && InMemory(OperandWord(st) + 1)
    ensures r.memory[OperandWord(st)] == st.l && r.memory[OperandWord(st) + 1] == st.h
    ensures forall i :: 0 <= i < MEMORY_SIZE && i != OperandWord(st) && i != OperandWord(st) + 1
                        ==> r.memory[i] == st.memory[i]
    ensures r == st.(memory := r.memory)
  {
    var address := OperandWord(st);
    st.(memory := st.memory[address := st.l][address + 1 := st.h])
  }

  /** XCHG: the pairs HL and DE trade values. */
  function Xchg(st: State): (r: State)
    ensures PairValue(r, HL) == PairValue(st, DE) && PairValue(r, DE) == PairValue(st, HL)
    ensures r.d == st.h && r.e == st.l && r.h == st.d && r.l == st.e
    ensures r == st.(d := r.d, e := r.e, h := r.h, l := r.l)
  {
    var tempD := st.d;
    var tempE := st.e;
    st.(d := st.h, e := st.l, h := tempD, l := tempE)
  }

  /** XTHL as written. L trades places with the byte at `sp`; then `sp` is
      incremented and H is stored at the new `sp` and read straight back.
      Departures from the manual: H keeps its value instead of trading with
      the byte at `sp + 1`, and `sp` ends one higher instead of unchanged. */
  function Xthl(st: State): (r: State)
    requires InMemory(st.sp + 1)
    ensures r.l == st.memory[st.sp] && r.h == st.h
    ensures r.sp == st.sp + 1
    ensures r.memory[st.sp] == st.l && r.memory[st.sp + 1] == st.h
    ensures forall i :: 0 <= i < MEMORY_SIZE && i != st.sp && i != st.sp + 1
                        ==> r.memory[i] == st.memory[i]
    ensures r == st.(memory := r.memory, sp := r.sp, l := r.l)
  {
    var tempL := st.l;
    var tempH := st.h;
    var st1 := st.(l := st.memory[st.sp]);
    var st2 := st1.(memory := st1.memory[st1.sp := tempL]);
    var st3 := st2.(sp := Wrap16(st2.sp + 1));
    var st4 := st3.(memory := st3.memory[st3.sp := tempH]);
    st4.(h := st4.memory[st4.sp])
  }

  /** XTHL applied twice does not undo itself as the manual's XTHL would:
      `sp` ends two higher and L ends holding H. */
  lemma XthlTwice(st: State)
    requires InMemory(st.sp + 2)
    ensures Xthl(Xthl(st)).sp == st.sp + 2
    ensures Xthl(Xthl(st)).l == st.h && Xthl(Xthl(st)).h == st.h
  {
  }

  /** STA then LDA at an address outside the operand bytes reads back the
      accumulator, so the load changes nothing. */
  lemma StaThenLda(st: State)
    requires InMemory(st.opcode + 2) && InMemory(OperandWord(st))
    requires OperandWord(st) != st.opcode + 1 && OperandWord(st) != st.opcode + 2
    ensures InMemory(OperandWord(Sta(st)))
    ensures Lda(Sta(st)).a == st.a
    ensures Lda(Sta(st)) == Sta(st)
  {
    assert OperandWord(Sta(st)) == OperandWord(st);
  }

  /** LDA then STA at the same address writes back the byte just loaded, so
      memory is unchanged and only the accumulator differs. */
  lemma LdaThenSta(st: State)
    requires InMemory(st.opcode + 2) && InMemory(OperandWord(st))
    ensures Sta(Lda(st)) == st.(a := st.memory[OperandWord(st)])
  {
  }

  /** STAX then LDAX through the same pair reads back the accumulator. */
  lemma StaxThenLdax(st: State, rp: Pair)
    requires InMemory(PairValue(st, rp))
    ensures InMemory(PairValue(Stax(st, rp), rp))
    ensures Ldax(Stax(st, rp), rp) == Stax(st, rp)
  {
  }

  /** LDAX then STAX through the same pair leaves memory unchanged. */
  lemma LdaxThenStax(st: State, rp: Pair)
    requires InMemory(PairValue(st, rp))
    ensures Stax(Ldax(st, rp), rp) == st.(a := st.memory[PairValue(st, rp)])
  {
  }

  /** XCHG applied twice is the identity. */
  lemma XchgTwice(st: State)
    ensures Xchg(Xchg(st)) == st
  {
  }

  /** SHLD then LHLD at the same address restores L and H: any later state
      whose operand word names the address SHLD wrote, and whose memory still
      holds the two stored bytes, loads them back. */
  lemma ShldThenLhld(st: State, later: State)
    requires InMemory(st.opcode + 2) && InMemory(OperandWord(st) + 1)
    requires InMemory(later.opcode + 2) && OperandWord(later) == OperandWord(st)
    requires later.memory[OperandWord(st)] == Shld(st).memory[OperandWord(st)]
    requires later.memory[OperandWord(st) + 1] == Shld(st).memory[OperandWord(st) + 1]
    ensures Lhld(later).l == st.l && Lhld(later).h == st.h
  {
  }

  /** SHLD then LHLD with nothing in between leaves the record as SHLD left it,
      provided the stored bytes do not overwrite the operand itself. */
  lemma ShldLhldRoundTrip(st: State)
    requires InMemory(st.opcode + 2) && InMemory(OperandWord(st) + 1)
    requires OperandWord(st) + 1 < st.opcode + 1 || st.opcode + 2 < OperandWord(st)
    ensures InMemory(OperandWord(Shld(st)) + 1)
    ensures Lhld(Shld(st)) == Shld(st)
  {
    assert OperandWord(Shld(st)) == OperandWord(st);
  }
}

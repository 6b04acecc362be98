/**
 The arithmetic and logical handlers of the processor: ADD, ADC, SUB, SBB,
 CMP, ANA, ORA, XRA, INR, DCR, DAA, DAD, DCX, INX, CMA and CMC. Each takes
 the record and the register operand(s) it was called with and returns the
 record after the handler has run. They follow the code as written; where
 it departs from the 8080 manual a comment says how.
 */
module Arithmetic {
  import opened Bits
  import opened Machine
  import opened FlagRules

  /** The `uint16_t` difference of two bytes, as SUB, SBB and CMP compute it:
      its low byte is the 8-bit difference, it is zero only for equal bytes,
      and it exceeds 0xff exactly when the subtraction borrows. */
  lemma Difference(x: Byte, y: Byte)
    ensures var d := Wrap16(x - y);
      && LowByte(d) == (x - y) % 0x100
      && (d == 0 <==> x == y)
      && (d > 0xFF <==> x < y)
      && (d > 9 <==> x < y || x - y > 9)
      && (LowByte(d) == 0 <==> x == y)
      && (Bit7(d) == 1 <==> (x - y) % 0x100 >= 0x80)
  {
    if x >= y {
      assert Wrap16(x - y) == x - y;
    } else {
      assert Wrap16(x - y) == 0x1_0000 + x - y;
    }
  }

  /** The high and low bytes of a sum below 2^17, as DAD stores them, form the
      sum modulo 2^16. */
  lemma WordOfSum(result: int)
    requires 0 <= result < 0x2_0000
    ensures Join((result / 0x100) % 0x100, result % 0x100) == result % 0x1_0000
  {
    if result >= 0x1_0000 {
      assert (result / 0x100) % 0x100 == (result - 0x1_0000) / 0x100;
    }
  }

  /** Replacing the high nibble of a byte by `n`, as the second DAA step
      does, keeps its low nibble, and the byte store leaves `n` modulo 16 as
      the new high nibble. */
  lemma HighNibbleReplaced(x: Byte, n: nat)
    ensures Wrap8(x % 0x10 + n * 0x10) % 0x10 == x % 0x10
    ensures Wrap8(x % 0x10 + n * 0x10) / 0x10 == n % 0x10
  {
    var w := Wrap8(x % 0x10 + n * 0x10);
    var k := (x % 0x10 + n * 0x10) / 0x100;
    var m := n - k * 0x10;
    assert x % 0x10 + n * 0x10 == w + k * 0x100;
    assert w == x % 0x10 + m * 0x10;
    assert 0 <= m < 0x10 by {
      assert m * 0x10 <= w < 0x100;
      assert m * 0x10 > -0x10;
    }
    assert n == k * 0x10 + m;
  }

  /** ADD: `a + *reg` into the accumulator, all five flags from the sum. */
  function Add(st: State, reg: Reg): (r: State)
    ensures r.a == (st.a + Get(st, reg)) % 0x100
    ensures r.flags.cy == 1 <==> st.a + Get(st, reg) > 0xFF
    ensures r.flags.z == 1 <==> r.a == 0
    ensures r.flags.s == 1 <==> r.a >= 0x80
    ensures r.flags.p == EvenParity(r.a)
    ensures r.flags.ac == 1 <==> st.a + Get(st, reg) > 9
    ensures r == st.(a := r.a, flags := r.flags)
  {
    var result := st.a + Get(st, reg);
    st.(flags := ArithFlags(result), a := LowByte(result))
  }

  /** ADC. Departure from the manual: the code adds register C, not the carry
      flag, so `ADC r` computes `a + c + r`. */
  function Adc(st: State, reg: Reg): (r: State)
    ensures r.a == (st.a + st.c + Get(st, reg)) % 0x100
    ensures r.flags.cy == 1 <==> st.a + st.c + Get(st, reg) > 0xFF
    ensures r.flags.z == 1 <==> r.a == 0
    ensures r.flags.s == 1 <==> r.a >= 0x80
    ensures r.flags.p == EvenParity(r.a)
    ensures r.flags.ac == 1 <==> st.a + st.c + Get(st, reg) > 9
    ensures r == st.(a := r.a, flags := r.flags)
  {
    var result := st.a + st.c + Get(st, reg);
    st.(flags := ArithFlags(result), a := LowByte(result))
  }

  /** SUB. Departures from the manual: the difference is never stored into
      the accumulator, and the carry is written as `!result > 0xff`, which
      compares 0 or 1 with 0xff and so always clears it. */
  function Sub(st: State, reg: Reg): (r: State)
    ensures r.a == st.a
    ensures r.flags.cy == 0
    ensures r.flags.z == 1 <==> st.a == Get(st, reg)
    ensures r.flags.ac == 1 <==> st.a < Get(st, reg) || st.a - Get(st, reg) > 9
    ensures r.flags.s == 1 <==> (st.a - Get(st, reg)) % 0x100 >= 0x80
    ensures r.flags.p == EvenParity((st.a - Get(st, reg)) % 0x100)
    ensures r == st.(flags := r.flags)
  {
    Difference(st.a, Get(st, reg));
    var result := Wrap16(st.a - Get(st, reg));
    var notResult := BitOf(result == 0);
    st.(flags := FlagsNoCarry(st.flags, result).(cy := BitOf(notResult > 0xFF)))
  }

  /** SBB. Departure from the manual: the carry is added into the operand
      register itself (`*reg += cy`), and the accumulator then loses that
      updated register. With the accumulator as operand the difference is 0. */
  function Sbb(st: State, reg: Reg): (r: State)
    ensures var y := (Get(st, reg) + st.flags.cy) % 0x100;
            var minuend := if reg == A then y else st.a;
            && r.a == (minuend - y) % 0x100
            && (r.flags.cy == 1 <==> minuend < y)
            && (r.flags.z == 1 <==> minuend == y)
            && (r.flags.s == 1 <==> r.a >= 0x80)
            && r.flags.p == EvenParity(r.a)
            && (r.flags.ac == 1 <==> minuend < y || minuend - y > 9)
            && (reg != A ==> Get(r, reg) == y)
    ensures forall q :: q != A && q != reg ==> Get(r, q) == Get(st, q)
    ensures r == st.(a := r.a, b := r.b, c := r.c, d := r.d, e := r.e, h := r.h, l := r.l,
                     flags := r.flags)
  {
    var st1 := Set(st, reg, Wrap8(Get(st, reg) + st.flags.cy));
    Difference(st1.a, Get(st1, reg));
    var result := Wrap16(st1.a - Get(st1, reg));
    st1.(flags := ArithFlags(result), a := LowByte(result))
  }

  /** CMP: compare without storing. The accumulator and the auxiliary carry
      are untouched; carry means `a < r`, zero means `a == r`. */
  function Cmp(st: State, reg: Reg): (r: State)
    ensures r.a == st.a && r.flags.ac == st.flags.ac
    ensures r.flags.cy == 1 <==> st.a < Get(st, reg)
    ensures r.flags.z == 1 <==> st.a == Get(st, reg)
    ensures r.flags.s == 1 <==> (st.a - Get(st, reg)) % 0x100 >= 0x80
    ensures r.flags.p == EvenParity((st.a - Get(st, reg)) % 0x100)
    ensures r == st.(flags := r.flags)
  {
    Difference(st.a, Get(st, reg));
    var result := Wrap16(st.a - Get(st, reg));
    st.(flags := st.flags.(cy := BitOf(st.a < Get(st, reg)),
                           z := BitOf(result == 0),
                           s := Bit7(result),
                           p := EvenParity(LowByte(result))))
  }

  /** ANA: bitwise AND into the accumulator; carry always cleared. */
  function Ana(st: State, reg: Reg): (r: State)
    ensures r.a == And8(st.a, Get(st, reg))
    ensures r.flags.cy == 0
    ensures r.flags.z == 1 <==> r.a == 0
    ensures r.flags.s == 1 <==> r.a >= 0x80
    ensures r.flags.p == EvenParity(r.a)
    ensures r.flags.ac == 1 <==> r.a > 9
    ensures r == st.(a := r.a, flags := r.flags)
  {
    var result := And8(st.a, Get(st, reg));
    st.(flags := ArithFlags(result).(cy := 0), a := result)
  }

  /** ORA: bitwise OR into the accumulator; carry cleared, auxiliary carry kept. */
  function Ora(st: State, reg: Reg): (r: State)
    ensures r.a == Or8(st.a, Get(st, reg))
    ensures r.flags.cy == 0 && r.flags.ac == st.flags.ac
    ensures r.flags.z == 1 <==> r.a == 0
    ensures r.flags.s == 1 <==> r.a >= 0x80
    ensures r.flags.p == EvenParity(r.a)
    ensures r == st.(a := r.a, flags := r.flags)
  {
    Bit7OfLowByte(Or8(st.a, Get(st, reg)));
    var result := Or8(st.a, Get(st, reg));
    st.(flags := st.flags.(cy := 0, z := BitOf(result == 0), s := Bit7(result),
                           p := EvenParity(result)),
        a := result)
  }

  /** XRA: bitwise XOR into the accumulator; carry and auxiliary carry cleared. */
  function Xra(st: State, reg: Reg): (r: State)
    ensures r.a == Xor8(st.a, Get(st, reg))
    ensures r.flags.cy == 0 && r.flags.ac == 0
    ensures r.flags.z == 1 <==> r.a == 0
    ensures r.flags.s == 1 <==> r.a >= 0x80
    ensures r.flags.p == EvenParity(r.a)
    ensures r == st.(a := r.a, flags := r.flags)
  {
    var result := Xor8(st.a, Get(st, reg));
    assert LowByte(result) == result;
    st.(flags := FlagsNoCarry(st.flags, result).(cy := 0, ac := 0), a := result)
  }

  /** INR: increment in place, wrapping at 0xFF; carry untouched. */
  function Inr(st: State, reg: Reg): (r: State)
    ensures Get(r, reg) == (Get(st, reg) + 1) % 0x100
    ensures r.flags.cy == st.flags.cy
    ensures r.flags.z == 1 <==> Get(st, reg) == 0xFF
    ensures r.flags.s == 1 <==> Get(r, reg) >= 0x80
    ensures r.flags.p == EvenParity(Get(r, reg))
    ensures r.flags.ac == 1 <==> Get(r, reg) > 9
    ensures KeptExcept(r, st, {reg})
    ensures r == Set(st, reg, Get(r, reg)).(flags := r.flags)
  {
    var result := Wrap8(Get(st, reg) + 1);
    Set(st, reg, result).(flags := FlagsNoCarry(st.flags, result))
  }

  /** DCR: decrement in place, wrapping at 0; carry and auxiliary carry untouched. */
  function Dcr(st: State, reg: Reg): (r: State)
    ensures Get(r, reg) == (Get(st, reg) - 1) % 0x100
    ensures r.flags.cy == st.flags.cy && r.flags.ac == st.flags.ac
    ensures r.flags.z == 1 <==> Get(st, reg) == 1
    ensures r.flags.s == 1 <==> Get(r, reg) >= 0x80
    ensures r.flags.p == EvenParity(Get(r, reg))
    ensures KeptExcept(r, st, {reg})
    ensures r == Set(st, reg, Get(r, reg)).(flags := r.flags)
  {
    var result := Wrap8(Get(st, reg) - 1);
    Bit7OfLowByte(result);
    Set(st, reg, result).(flags := st.flags.(z := BitOf(result == 0), s := Bit7(result),
                                             p := EvenParity(result)))
  }

  /** DAD: 16-bit add of a pair into HL; only the carry flag changes. */
  function Dad(st: State, rp: Pair): (r: State)
    ensures PairValue(r, HL) == (PairValue(st, HL) + PairValue(st, rp)) % 0x1_0000
    ensures r.flags == st.flags.(cy := BitOf(PairValue(st, HL) + PairValue(st, rp) > 0xFFFF))
    ensures r == st.(h := r.h, l := r.l, flags := r.flags)
  {
    var pair := PairValue(st, rp);
    var hl := Join(st.h, st.l);
    var result := hl + pair;
    WordOfSum(result);
    var h := (result / 0x100) % 0x100;
    var l := result % 0x100;
    st.(flags := st.flags.(cy := BitOf(result >= 0x1_0000)), h := h, l := l)
  }

  /** DCX: decrement the low register, and the high one when the low one wraps
      to 0xFF. Together this is a 16-bit decrement of the pair. */
  function Dcx(st: State, rp: Pair): (r: State)
    ensures PairValue(r, rp) == (PairValue(st, rp) - 1) % 0x1_0000
    ensures forall q :: q != rp.High() && q != rp.Low() ==> Get(r, q) == Get(st, q)
    ensures KeptExcept(r, st, {rp.High(), rp.Low()})
    ensures r == st.(a := r.a, b := r.b, c := r.c, d := r.d, e := r.e, h := r.h, l := r.l)
  {
    var st1 := Set(st, rp.Low(), Wrap8(Get(st, rp.Low()) - 1));
    if Get(st1, rp.Low()) == 0xFF then Set(st1, rp.High(), Wrap8(Get(st1, rp.High()) - 1))
    else st1
  }

  /** INX. Departure from the manual: the code increments its two pointer
      parameters, not the registers they point to, and then compares a
      pointer with null; no register changes. */
  function Inx(st: State, rp: Pair): (r: State)
    ensures r == st
  {
    st
  }

  /** CMA: `a = ~a`, the one's complement of the accumulator. */
  function Cma(st: State): (r: State)
    ensures r.a + st.a == 0xFF
    ensures r == st.(a := r.a)
  {
    st.(a := 0xFF - st.a)
  }

  /** CMC. Departure from the manual: the code complements register C, not
      the carry flag. */
  function Cmc(st: State): (r: State)
    ensures r.c + st.c == 0xFF
    ensures r.flags == st.flags
    ensures r == st.(c := r.c)
  {
    st.(c := 0xFF - st.c)
  }

  /** The first DAA step: when the whole accumulator exceeds 9 or the
      auxiliary carry is set, the flags come from `lsb + 6` and the
      accumulator gains 6 (modulo 256); the carry is then set exactly when
      the accumulator was at least 250, and the zero flag exactly when it was
      250. */
  function DaaLow(st: State): (r: State)
    ensures r == st.(a := r.a, flags := r.flags)
    ensures !(st.a > 9 || st.flags.ac == 1) ==> r == st
    ensures st.a > 9 || st.flags.ac == 1 ==> r.a == (st.a + 6) % 0x100
    ensures st.a > 9 || st.flags.ac == 1 ==> r.flags == ArithFlags(st.a + 6)
    ensures st.a > 9 || st.flags.ac == 1 ==>
              (r.flags.cy == 1 <==> st.a >= 250) && (r.flags.z == 1 <==> st.a == 250)
  {
    var lsb := st.a;
    if lsb > 9 || st.flags.ac == 1
    then st.(flags := ArithFlags(lsb + 6), a := Wrap8(st.a + 6))
    else st
  }

  /** The second DAA step: when the high nibble exceeds 9 or the carry is set,
      the flags come from `msb + 6` and that value, shifted left by four,
      replaces the high nibble; the low nibble is kept. As `msb + 6` is at
      most 21, the step always clears the zero, sign and carry flags. */
  function DaaHigh(st: State): (r: State)
    ensures r == st.(a := r.a, flags := r.flags)
    ensures !(st.a / 0x10 > 9 || st.flags.cy == 1) ==> r == st
    ensures r.a % 0x10 == st.a % 0x10
    ensures st.a / 0x10 > 9 || st.flags.cy == 1 ==> r.a / 0x10 == (st.a / 0x10 + 6) % 0x10
    ensures st.a / 0x10 > 9 || st.flags.cy == 1 ==> r.flags == ArithFlags(st.a / 0x10 + 6)
    ensures st.a / 0x10 > 9 || st.flags.cy == 1 ==>
              r.flags.z == 0 && r.flags.s == 0 && r.flags.cy == 0 &&
              (r.flags.ac == 1 <==> st.a / 0x10 > 3)
  {
    var msb := st.a / 0x10;
    HighNibbleReplaced(st.a, msb + 6);
    if msb > 9 || st.flags.cy == 1
    then st.(flags := ArithFlags(msb + 6), a := Wrap8(st.a % 0x10 + (msb + 6) * 0x10))
    else st
  }

  /** DAA as written. `uint8_t lsb = (a << 4) >> 4` is computed after the
      promotion to `int`, so `lsb` is the whole accumulator, not its low
      nibble, and the first test compares the whole byte with 9. The carry
      always ends clear: a carry out of the first step makes the second step
      fire, and the second step clears it. When the second step fires the
      zero and sign flags end clear as well. */
  function Daa(st: State): (r: State)
    ensures r == st.(a := r.a, flags := r.flags)
    ensures !(st.a > 9 || st.flags.ac == 1) && !(st.a / 0x10 > 9 || st.flags.cy == 1) ==> r == st
    ensures r.a % 0x10 == if st.a > 9 || st.flags.ac == 1 then (st.a + 6) % 0x10 else st.a % 0x10
    ensures r.flags.cy == 0
    ensures var first := st.a > 9 || st.flags.ac == 1;
            var low := if first then (st.a + 6) % 0x100 else st.a;
            var second := low / 0x10 > 9 || (if first then st.a >= 250 else st.flags.cy == 1);
            && (second ==> r.a / 0x10 == (low / 0x10 + 6) % 0x10 && r.flags.z == 0 && r.flags.s == 0)
            && (!second ==> r.a == low)
  {
    var low := DaaLow(st);
    LowNibbleOfWrap(st.a + 6);
    DaaHigh(low)
  }

  /** The complement-carry case of the dispatcher, `cy = ~cy` on a one-bit
      field: `~cy` is computed as an `int` and only its low bit is stored. */
  function ComplementCarry(st: State): (r: State)
    ensures r.flags.cy == 1 - st.flags.cy
    ensures r == st.(flags := st.flags.(cy := r.flags.cy))
  {
    st.(flags := st.flags.(cy := (-1 - st.flags.cy) % 2))
  }

  /** Complementing the carry twice restores it. */
  lemma ComplementCarryTwice(st: State)
    ensures ComplementCarry(ComplementCarry(st)) == st
  {
  }

  /** CMC as written, applied twice, is the identity. */
  lemma CmcTwice(st: State)
    ensures Cmc(Cmc(st)) == st
  {
  }

  /** CMA applied twice is the identity. */
  lemma CmaTwice(st: State)
    ensures Cma(Cma(st)) == st
  {
  }

  /** `XRA A` clears the accumulator, sets the zero flag and the parity flag. */
  lemma XraSelf(st: State)
    ensures Xra(st, A).a == 0 && Xra(st, A).flags.z == 1 && Xra(st, A).flags.p == 1
  {
    XorSelf(st.a);
    assert PopCount(0) == 0;
  }

  /** XRA with the same register twice (other than A) gives the accumulator back. */
  lemma XraTwice(st: State, reg: Reg)
    requires reg != A
    ensures Xra(Xra(st, reg), reg).a == st.a
  {
    XorTwice(st.a, Get(st, reg));
  }

  /** ANA with the same register a second time changes nothing. */
  lemma AnaIdempotent(st: State, reg: Reg)
    ensures Ana(Ana(st, reg), reg) == Ana(st, reg)
  {
    if reg == A {
      AndSelf(st.a);
    } else {
      var once := Ana(st, reg);
      assert Get(once, reg) == Get(st, reg);
      AndTwice(st.a, Get(st, reg));
    }
  }

  /** ORA with the same register a second time changes nothing. */
  lemma OraIdempotent(st: State, reg: Reg)
    ensures Ora(Ora(st, reg), reg) == Ora(st, reg)
  {
    if reg == A {
      OrSelf(st.a);
    } else {
      var once := Ora(st, reg);
      assert Get(once, reg) == Get(st, reg);
      OrTwice(st.a, Get(st, reg));
    }
  }

  /** DCR undoes INR on the register; the other registers, memory and the
      carry flag are untouched throughout. */
  lemma IncrementThenDecrement(st: State, reg: Reg)
    ensures Dcr(Inr(st, reg), reg) == st.(flags := Dcr(Inr(st, reg), reg).flags)
    ensures Dcr(Inr(st, reg), reg).flags.cy == st.flags.cy
  {
    var once := Inr(st, reg);
    assert Get(Dcr(once, reg), reg) == Get(st, reg);
  }

  /** INR undoes DCR on the register; the other registers, memory and the
      carry flag are untouched throughout. */
  lemma DecrementThenIncrement(st: State, reg: Reg)
    ensures Inr(Dcr(st, reg), reg) == st.(flags := Inr(Dcr(st, reg), reg).flags)
    ensures Inr(Dcr(st, reg), reg).flags.cy == st.flags.cy
  {
    var once := Dcr(st, reg);
    assert Get(Inr(once, reg), reg) == Get(st, reg);
  }

  /** The registers wrap: INR of 0xFF gives 0 with the zero flag set. */
  lemma IncrementWraps(st: State, reg: Reg)
    requires Get(st, reg) == 0xFF
    ensures Get(Inr(st, reg), reg) == 0 && Inr(st, reg).flags.z == 1
  {
  }

  /** The pairs wrap: DCX of a pair holding 0x0000 gives 0xFFFF. */
  lemma DecrementPairWraps(st: State, rp: Pair)
    requires Get(st, rp.High()) == 0 && Get(st, rp.Low()) == 0
    ensures PairValue(Dcx(st, rp), rp) == 0xFFFF
  {
  }

  /** CMP and SUB compute the same zero, sign and parity flags from the
      difference and neither stores it; they differ in the carry, which CMP
      sets on a borrow and SUB always clears. */
  lemma CmpAgreesWithSub(st: State, reg: Reg)
    ensures Cmp(st, reg).a == Sub(st, reg).a == st.a
    ensures Cmp(st, reg).flags == Sub(st, reg).flags.(cy := Cmp(st, reg).flags.cy, ac := st.flags.ac)
    ensures Cmp(st, reg).flags.cy == 1 <==> st.a < Get(st, reg)
    ensures Sub(st, reg).flags.cy == 0
  {
  }

  /** With register C holding 0, ADC behaves exactly as ADD. */
  lemma AdcWithoutC(st: State, reg: Reg)
    requires st.c == 0
    ensures Adc(st, reg) == Add(st, reg)
  {
  }

  /** With the carry clear, SBB borrows and sets the zero flag exactly as CMP
      does, and stores the difference. */
  lemma SbbAgreesWithCmp(st: State, reg: Reg)
    requires st.flags.cy == 0
    ensures Sbb(st, reg).flags.cy == Cmp(st, reg).flags.cy
    ensures Sbb(st, reg).flags.z == Cmp(st, reg).flags.z
    ensures Sbb(st, reg).a == (st.a - Get(st, reg)) % 0x100
  {
  }

  /** DAA as written on 0x9A with both carries clear: the first adjustment
      gives 0xA0, the second replaces its high nibble by 0x10, which the byte
      store truncates, so the accumulator ends 0 with the zero and carry
      flags clear and the auxiliary carry set. */
  lemma DaaExample(st: State)
    requires st.a == 0x9A && st.flags.ac == 0 && st.flags.cy == 0
    ensures Daa(st).a == 0
    ensures Daa(st).flags.z == 0 && Daa(st).flags.cy == 0 && Daa(st).flags.ac == 1
  {
    var low := DaaLow(st);
    assert low.a == 0xA0 && low.flags == ArithFlags(0xA0);
    assert Daa(st) == low.(flags := ArithFlags(0x10), a := Wrap8(0x100));
    assert LowByte(0x10) == 0x10;
  }
}

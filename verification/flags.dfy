/**
 The two flag routines every arithmetic handler ends with. Both take the
 16-bit intermediate result (`uint16_t result`) of an 8-bit operation.
 */
module FlagRules {
  import opened Bits
  import opened Machine

  /** `handle_arith_flag`: all five flags from the intermediate result. The
      zero, sign, parity and carry flags follow the record's documentation:
      zero when the 8-bit result is 0, sign when its bit 7 is set, parity when
      it has an even number of set bits, carry when the result does not fit in
      8 bits. The auxiliary carry is `result > 9`, as the code computes it. */
  function ArithFlags(result: U16): (f: Flags)
    ensures f.z == 1 <==> LowByte(result) == 0
    ensures f.s == 1 <==> LowByte(result) >= 0x80
    ensures f.p == 1 <==> PopCount(LowByte(result) as Word) % 2 == 0
    ensures f.cy == 1 <==> result > 0xFF
    ensures f.ac == 1 <==> result > 9
  {
    Bit7OfLowByte(result);
    Flags(z := BitOf(LowByte(result) == 0),
          s := Bit7(result),
          p := EvenParity(LowByte(result)),
          cy := BitOf(result > 0xFF),
          ac := BitOf(result > 9))
  }

  /** `handle_without_carry`: the same zero, sign, parity and auxiliary-carry
      rules, with the carry flag left as it was. */
  function FlagsNoCarry(f: Flags, result: U16): (f': Flags)
    ensures f'.z == 1 <==> LowByte(result) == 0
    ensures f'.s == 1 <==> LowByte(result) >= 0x80
    ensures f'.p == 1 <==> PopCount(LowByte(result) as Word) % 2 == 0
    ensures f'.ac == 1 <==> result > 9
    ensures f'.cy == f.cy
  {
    Bit7OfLowByte(result);
    Flags(z := BitOf(LowByte(result) == 0),
          s := Bit7(result),
          p := EvenParity(LowByte(result)),
          cy := f.cy,
          ac := BitOf(result > 9))
  }

  /** The two routines agree on everything but the carry flag. */
  lemma FlagRoutinesAgree(f: Flags, result: U16)
    ensures FlagsNoCarry(f, result) == ArithFlags(result).(cy := f.cy)
  {
  }
}

/**
 The accumulator rotates RLC, RRC, RAL and RAR, and the inverse laws that
 hold between them.
 */
module Rotate {
  import opened Bits
  import opened Machine

  /** RLC: rotate left; bit 7 goes both to bit 0 and to the carry flag.
      `(a << 1) | high_bit` has disjoint bits, so the OR is a sum. */
  function Rlc(st: State): (r: State)
    ensures r.flags.cy == Bit7(st.a)
    ensures r.a % 2 == Bit7(st.a) && r.a / 2 == st.a % 0x80
    ensures r == st.(a := r.a, flags := st.flags.(cy := r.flags.cy))
  {
    var highBit := st.a / 0x80;
    st.(flags := st.flags.(cy := highBit), a := Wrap8(st.a * 2 + highBit))
  }

  /** RRC: rotate right; bit 0 goes both to bit 7 and to the carry flag. */
  function Rrc(st: State): (r: State)
    ensures r.flags.cy == st.a % 2
    ensures Bit7(r.a) == st.a % 2 && r.a % 0x80 == st.a / 2
    ensures r == st.(a := r.a, flags := st.flags.(cy := r.flags.cy))
  {
    var lowBit := st.a % 2;
    st.(flags := st.flags.(cy := lowBit), a := st.a / 2 + lowBit * 0x80)
  }

  /** RAL: rotate left through the carry; the old carry enters bit 0 and bit 7
      becomes the new carry. */
  function Ral(st: State): (r: State)
    ensures r.flags.cy == Bit7(st.a)
    ensures r.a % 2 == st.flags.cy && r.a / 2 == st.a % 0x80
    ensures r == st.(a := r.a, flags := st.flags.(cy := r.flags.cy))
  {
    var highBit := st.a / 0x80;
    st.(a := Wrap8(st.a * 2 + st.flags.cy), flags := st.flags.(cy := highBit))
  }

  /** RAR: rotate right through the carry; the old carry enters bit 7 and bit 0
      becomes the new carry. */
  function Rar(st: State): (r: State)
    ensures r.flags.cy == st.a % 2
    ensures Bit7(r.a) == st.flags.cy && r.a % 0x80 == st.a / 2
    ensures r == st.(a := r.a, flags := st.flags.(cy := r.flags.cy))
  {
    var lowBit := st.a % 2;
    var oldCarry := st.flags.cy;
    st.(flags := st.flags.(cy := lowBit), a := st.a / 2 + oldCarry * 0x80)
  }

  /** RRC undoes RLC on the accumulator; both leave the carry equal to the old bit 7. */
  lemma RrcUndoesRlc(st: State)
    ensures Rrc(Rlc(st)) == st.(flags := st.flags.(cy := Bit7(st.a)))
  {
  }

  /** RLC undoes RRC on the accumulator; both leave the carry equal to the old bit 0. */
  lemma RlcUndoesRrc(st: State)
    ensures Rlc(Rrc(st)) == st.(flags := st.flags.(cy := st.a % 2))
  {
  }

  /** RAR undoes RAL on the pair (accumulator, carry), and RAL undoes RAR. */
  lemma RalRarInverse(st: State)
    ensures Rar(Ral(st)) == st
    ensures Ral(Rar(st)) == st
  {
  }

  /** `n` successive RLCs. */
  function RlcTimes(st: State, n: nat): State
  {
    if n == 0 then st else Rlc(RlcTimes(st, n - 1))
  }

  /** One rotation doubles the accumulator and takes 255 away when bit 7 was
      set; it fixes 0xFF and no other byte becomes 0xFF. */
  lemma RlcStep(st: State)
    ensures Rlc(st).a == 2 * st.a - 0xFF * (st.a / 0x80)
    ensures Rlc(st).a == 0xFF <==> st.a == 0xFF
  {
  }

  /** Two bytes that differ by a multiple of 255 are equal, unless one is 0
      and the other 0xFF. */
  lemma CongruentBytes(x: int, y: int, k: int)
    requires 0 <= x <= 0xFF && 0 <= y <= 0xFF && y - x == 0xFF * k
    requires y == 0xFF <==> x == 0xFF
    ensures y == x
  {
    assert -1 <= k <= 1;
  }

  /** The arithmetic core of eight rotations: eight doublings, each less 255
      times a borrowed bit, land on the start value, unless they move 0 to 255
      or 255 to 0, which the fixed point 0xFF rules out. */
  lemma EightDoublings(x: int, ys: seq<int>, qs: seq<int>)
    requires |ys| == 9 && |qs| == 8 && ys[0] == x
    requires forall i :: 0 <= i < 9 ==> 0 <= ys[i] <= 0xFF
    requires forall i :: 0 <= i < 8 ==> 0 <= qs[i] <= 1 && ys[i + 1] == 2 * ys[i] - 0xFF * qs[i]
    requires ys[8] == 0xFF <==> x == 0xFF
    ensures ys[8] == x
  {
    var y0, y1, y2, y3, y4, y5, y6, y7, y8 := ys[0], ys[1], ys[2], ys[3], ys[4], ys[5], ys[6], ys[7], ys[8];
    assert y1 == 2 * y0 - 0xFF * qs[0] && y2 == 2 * y1 - 0xFF * qs[1];
    assert y3 == 2 * y2 - 0xFF * qs[2] && y4 == 2 * y3 - 0xFF * qs[3];
    assert y5 == 2 * y4 - 0xFF * qs[4] && y6 == 2 * y5 - 0xFF * qs[5];
    assert y7 == 2 * y6 - 0xFF * qs[6] && y8 == 2 * y7 - 0xFF * qs[7];
    assert 0 <= y8 <= 0xFF;
    var weighted := 128 * qs[0] + 64 * qs[1] + 32 * qs[2] + 16 * qs[3]
                    + 8 * qs[4] + 4 * qs[5] + 2 * qs[6] + qs[7];
    assert y8 == 256 * x - 0xFF * weighted;
    CongruentBytes(x, y8, x - weighted);
  }

  /** Eight RLCs bring the accumulator back to its starting value: each
      rotation doubles it modulo 255, 2^8 is 1 modulo 255, and 0xFF, the one
      byte congruent to 0 besides 0, is fixed by every rotation. */
  lemma RlcEightTimes(st: State)
    ensures RlcTimes(st, 8).a == st.a
  {
    var ys := seq(9, i requires 0 <= i < 9 => RlcTimes(st, i).a as int);
    var qs := seq(8, i requires 0 <= i < 8 => ys[i] / 0x80);
    forall i | 0 <= i < 8
      ensures 0 <= qs[i] <= 1 && ys[i + 1] == 2 * ys[i] - 0xFF * qs[i]
      ensures ys[i + 1] == 0xFF <==> ys[i] == 0xFF
    {
      RlcStep(RlcTimes(st, i));
    }
    assert ys[8] == 0xFF <==> ys[0] == 0xFF;
    EightDoublings(st.a, ys, qs);
  }
}

/**
 Machine words of the 8080 model.

 Registers, addresses and counters are bounded integers, so that the C
 conversions of the processor record (`uint8_t`, `uint16_t`, `uint64_t`)
 appear as explicit reductions modulo 2^8, 2^16 and 2^64. The bitwise
 operators AND, OR and XOR, and the parity routine, work on bit-vectors.
 */
module Bits {

  /** An unsigned 8-bit value (`uint8_t`). */
  type Byte = x: int | 0 <= x < 0x100

  /** An unsigned 16-bit value (`uint16_t`). */
  type U16 = x: int | 0 <= x < 0x1_0000

  /** A one-bit field (`uint8_t z : 1`). */
  type Bit = x: int | 0 <= x < 2

  const U64_MODULUS: int := 0x1_0000_0000_0000_0000

  /** An unsigned 64-bit counter (`uint64_t`). */
  type U64 = x: int | 0 <= x < U64_MODULUS

  /** The 16-bit word the parity routine loops over. */
  type Word = bv16

  /** Conversion of any C integer to `uint8_t`: reduction modulo 2^8. */
  function Wrap8(x: int): (r: Byte)
    ensures 0 <= x < 0x100 ==> r == x
    ensures (r - x) % 0x100 == 0
  {
    x % 0x100
  }

  /** Conversion of any C integer to `uint16_t`: reduction modulo 2^16. */
  function Wrap16(x: int): (r: U16)
    ensures 0 <= x < 0x1_0000 ==> r == x
    ensures (r - x) % 0x1_0000 == 0
  {
    x % 0x1_0000
  }

  /** `x += n` on a `uint64_t`: the sum wraps modulo 2^64. */
  function AddU64(x: U64, n: nat): (r: U64)
    ensures x + n < U64_MODULUS ==> r == x + n
    ensures (r - x - n) % U64_MODULUS == 0
  {
    (x + n) % U64_MODULUS
  }

  /** A C truth value stored into a one-bit field. */
  function BitOf(b: bool): (r: Bit)
    ensures r == 1 <==> b
  {
    if b then 1 else 0
  }

  /** The 16-bit value `hi << 8 | lo` of a register pair or of a little-endian operand. */
  function Join(hi: Byte, lo: Byte): U16
  {
    hi * 0x100 + lo
  }

  /** `(w >> 8) & 0xff`. */
  function HighByte(w: U16): Byte
  {
    w / 0x100
  }

  /** `w & 0xff`. */
  function LowByte(w: U16): Byte
  {
    w % 0x100
  }

  /** Splitting a word into its bytes and joining them back gives the word. */
  lemma SplitJoin(w: U16)
    ensures Join(HighByte(w), LowByte(w)) == w
  {
  }

  /** Joining two bytes and splitting the word gives them back. */
  lemma JoinBytes(hi: Byte, lo: Byte)
    ensures HighByte(Join(hi, lo)) == hi && LowByte(Join(hi, lo)) == lo
  {
  }

  /** Bit 7 of an integer, the sign bit of its low byte (`x & 0x80`). */
  function Bit7(x: int): Bit
  {
    (x / 0x80) % 2
  }

  /** Wrapping to a byte keeps the low nibble. */
  lemma LowNibbleOfWrap(x: nat)
    ensures Wrap8(x) % 0x10 == x % 0x10
  {
    var q, r := x / 0x100, x % 0x100;
    var s, t := r / 0x10, r % 0x10;
    assert r == 0x10 * s + t && 0 <= t < 0x10;
    assert x == 0x10 * (0x10 * q + s) + t;
    assert x / 0x10 == 0x10 * q + s;
  }

  /** Bit 7 of a word is set exactly when its low byte is at least 0x80. */
  lemma Bit7OfLowByte(w: U16)
    ensures Bit7(w) == 1 <==> LowByte(w) >= 0x80
  {
    var q, r := w / 0x100, w % 0x100;
    assert w == 0x100 * q + r;
    assert 0 <= r / 0x80 <= 1;
    assert w / 0x80 == 2 * q + r / 0x80;
    assert (2 * q + r / 0x80) % 2 == r / 0x80;
  }

  /** `x & y` on bytes. */
  function And8(x: Byte, y: Byte): Byte
  {
    ((x as bv8) & (y as bv8)) as int
  }

  /** `x | y` on bytes. */
  function Or8(x: Byte, y: Byte): Byte
  {
    ((x as bv8) | (y as bv8)) as int
  }

  /** `x ^ y` on bytes. */
  function Xor8(x: Byte, y: Byte): Byte
  {
    ((x as bv8) ^ (y as bv8)) as int
  }

  /** A `bv8` survives the trip through `int` and back. */
  lemma BitsRoundTrip(v: bv8)
    ensures ((v as int) as bv8) == v
  {
  }

  /** A byte survives the trip through `bv8` and back. */
  lemma ByteRoundTrip(x: Byte)
    ensures ((x as bv8) as int) == x
  {
    var w := x as bv16;
    assert w < 0x100;
    assert (w as bv8) as int == x;
  }

  /** The bit-level forms of the three laws below. */
  lemma XorTwiceBits(u: bv8, v: bv8)
    ensures ((u ^ v) ^ v) as int == u as int
  {
    assert (u ^ v) ^ v == u;
  }

  lemma AndTwiceBits(u: bv8, v: bv8)
    ensures ((u & v) & v) as int == (u & v) as int
  {
    assert (u & v) & v == u & v;
  }

  lemma OrTwiceBits(u: bv8, v: bv8)
    ensures ((u | v) | v) as int == (u | v) as int
  {
    assert (u | v) | v == u | v;
  }

  /** XOR with the same byte twice gives the byte back. */
  lemma XorTwice(x: Byte, y: Byte)
    ensures Xor8(Xor8(x, y), y) == x
  {
    var u, v := x as bv8, y as bv8;
    var w := Xor8(x, y);
    assert w as bv8 == u ^ v by { BitsRoundTrip(u ^ v); }
    assert Xor8(w, y) == ((u ^ v) ^ v) as int;
    assert ((u ^ v) ^ v) as int == x by { XorTwiceBits(u, v); ByteRoundTrip(x); }
  }

  /** XOR of a byte with itself is 0. */
  lemma XorSelf(x: Byte)
    ensures Xor8(x, x) == 0
  {
    var u := x as bv8;
    assert u ^ u == 0;
  }

  /** AND of a byte with itself is the byte. */
  lemma AndSelf(x: Byte)
    ensures And8(x, x) == x
  {
    var u := x as bv8;
    assert u & u == u;
    ByteRoundTrip(x);
  }

  /** OR of a byte with itself is the byte. */
  lemma OrSelf(x: Byte)
    ensures Or8(x, x) == x
  {
    var u := x as bv8;
    assert u | u == u;
    ByteRoundTrip(x);
  }

  /** AND with the same byte a second time changes nothing. */
  lemma AndTwice(x: Byte, y: Byte)
    ensures And8(And8(x, y), y) == And8(x, y)
  {
    BitsRoundTrip((x as bv8) & (y as bv8));
    AndTwiceBits(x as bv8, y as bv8);
  }

  /** OR with the same byte a second time changes nothing. */
  lemma OrTwice(x: Byte, y: Byte)
    ensures Or8(Or8(x, y), y) == Or8(x, y)
  {
    BitsRoundTrip((x as bv8) | (y as bv8));
    OrTwiceBits(x as bv8, y as bv8);
  }

  /** Number of set bits of a byte, a reference definition independent of
      the clear-the-lowest-bit loop of `Parity`. */
  function PopCount8(x: bv8): (n: nat)
    ensures x == 0 <==> n == 0
    decreases x
  {
    if x == 0 then 0 else (if x & 1 == 1 then 1 else 0) + PopCount8(x >> 1)
  }

  /** Number of set bits of a word: those of its high byte plus those of its low byte. */
  function PopCount(x: Word): nat
  {
    PopCount8((x >> 8) as bv8) + PopCount8((x & 0xFF) as bv8)
  }

  /** The parity-flag value of a byte: 1 exactly when it has an even number of set bits. */
  function EvenParity(x: Byte): Bit
  {
    if PopCount(x as Word) % 2 == 0 then 1 else 0
  }

  lemma PopCountEvenShift(x: bv8)
    requires x & 1 == 0
    ensures PopCount8(x) == PopCount8(x >> 1)
  {
  }

  lemma PopCountOddShift(x: bv8)
    requires x & 1 == 1
    ensures PopCount8(x) == PopCount8(x >> 1) + 1
  {
  }

  /** For odd `x`, `x & (x - 1)` is `x` with bit 0 cleared. */
  lemma ClearLowestBitOddFacts(x: bv8)
    requires x & 1 == 1
    ensures x & (x - 1) == x - 1
    ensures (x - 1) & 1 == 0 && (x - 1) >> 1 == x >> 1
  {
  }

  /** For even nonzero `x`, clearing the lowest set bit commutes with the shift. */
  lemma ClearLowestBitEvenFacts(x: bv8)
    requires x != 0 && x & 1 == 0
    ensures 0 < x >> 1 < x
    ensures (x & (x - 1)) & 1 == 0
    ensures (x & (x - 1)) >> 1 == (x >> 1) & ((x >> 1) - 1)
  {
  }

  lemma ClearLowestBitOdd(x: bv8)
    requires x & 1 == 1
    ensures PopCount8(x & (x - 1)) + 1 == PopCount8(x)
  {
    PopCountOddShift(x);
    ClearLowestBitOddFacts(x);
    PopCountEvenShift(x - 1);
  }

  lemma ClearLowestBitEven(x: bv8)
    requires x != 0 && x & 1 == 0
    ensures 0 < x >> 1 < x
    ensures PopCount8(x) == PopCount8(x >> 1)
    ensures PopCount8(x & (x - 1)) == PopCount8((x >> 1) & ((x >> 1) - 1))
  {
    ClearLowestBitEvenFacts(x);
    PopCountEvenShift(x & (x - 1));
    PopCountEvenShift(x);
  }

  /** In a byte, `x & (x - 1)` clears exactly one set bit, the lowest. */
  lemma {:induction false} ClearLowestBit8(x: bv8)
    requires x != 0
    ensures PopCount8(x & (x - 1)) + 1 == PopCount8(x)
    decreases x
  {
    if x & 1 == 1 {
      ClearLowestBitOdd(x);
    } else {
      ClearLowestBitEven(x);
      ClearLowestBit8(x >> 1);
    }
  }

  /** In a word, `x & (x - 1)` clears the lowest set bit of the low byte, or of
      the high byte when the low byte is zero. */
  lemma ClearLowestBitBytes(x: Word)
    requires x != 0
    ensures var lo, hi, w := (x & 0xFF) as bv8, (x >> 8) as bv8, x & (x - 1);
      if lo != 0 then (w >> 8) as bv8 == hi && (w & 0xFF) as bv8 == lo & (lo - 1)
      else (w >> 8) as bv8 == hi & (hi - 1) && (w & 0xFF) as bv8 == 0 && hi != 0
  {
  }

  /** `x & (x - 1)` clears exactly one set bit, the lowest. */
  lemma ClearLowestBit(x: Word)
    requires x != 0
    ensures PopCount(x & (x - 1)) + 1 == PopCount(x)
  {
    ClearLowestBitBytes(x);
    if x & 0xFF != 0 {
      ClearLowestBit8((x & 0xFF) as bv8);
    } else {
      ClearLowestBit8((x >> 8) as bv8);
    }
  }

  /** The processor's parity routine: it clears the lowest set bit until none
      is left, counting the passes, and answers 1 for an even count. */
  method Parity(x: Word) returns (r: Bit)
    ensures r == 1 <==> PopCount(x) % 2 == 0
  {
    var result := x;
    var count: nat := 0;
    while result != 0
      invariant count + PopCount(result) == PopCount(x)
      decreases result
    {
      ClearLowestBit(result);
      result := result & (result - 1);
      count := count + 1;
    }
    r := if count % 2 == 0 then 1 else 0;
  }

  /** The parity routine applied to a byte computes the parity flag `EvenParity`. */
  method ParityOfByte(x: Byte) returns (r: Bit)
    ensures r == EvenParity(x)
  {
    r := Parity(x as Word);
  }

  lemma ParityExamples()
    ensures EvenParity(0x00) == 1
    ensures EvenParity(0x01) == 0
    ensures EvenParity(0xFF) == 1
    ensures EvenParity(0xA0) == 1
    ensures EvenParity(0x10) == 0
  {
    assert PopCount8(0x01) == 1 && PopCount8(0x02) == 1;
    assert PopCount8(0x03) == 2 && PopCount8(0x07) == 3 && PopCount8(0x0F) == 4;
    assert PopCount8(0x1F) == 5 && PopCount8(0x3F) == 6 && PopCount8(0x7F) == 7;
    assert PopCount8(0xFF) == 8;
    assert PopCount8(0x05) == 2 && PopCount8(0x0A) == 2 && PopCount8(0x14) == 2;
    assert PopCount8(0x28) == 2 && PopCount8(0x50) == 2 && PopCount8(0xA0) == 2;
    assert PopCount8(0x04) == 1 && PopCount8(0x08) == 1 && PopCount8(0x10) == 1;
  }
}

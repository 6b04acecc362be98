# Intel 8080 processor core, modelled in Dafny

This project models the processor core of a C++ Intel 8080 emulator written
for Space Invaders. The core is the class `i8080`. It holds:

- a memory array of 0xFFFF bytes;
- the 8-bit registers A, B, C, D, E, H and L;
- the 16-bit `pc` and `sp`;
- five one-bit flags (z, s, p, cy, ac);
- the input and output port banks, and the status and counter fields.

The model covers:

- the flag routines `parity`, `handle_arith_flag` and `handle_without_carry`;
- every per-mnemonic handler from `ADD` to `XTHL`;
- the 256-entry `instruction_cycles` table;
- the straight-line prefix of the `emulate` dispatcher, opcodes 0x00 to 0x2c.

The processor record is an immutable datatype `Machine.State`, and each
handler is a pure function from one state to the next. Registers, addresses
and counters are bounded integers, so every C conversion to `uint8_t`,
`uint16_t` or `uint64_t` is written out as a reduction modulo 2^8, 2^16 or
2^64. The bitwise operators and the parity loop work on bit-vectors.

The memory has exactly 0xFFFF cells, so valid indices run from 0 to 0xFFFE.
Every handler that indexes memory requires its index to be in range. This
covers `sp - 1`, `sp - 2`, `sp + 1`, `address + 1`, `opcode[1]` and
`opcode[2]`. Most of these indices are computed as `int` after promotion,
so they do not wrap. PUSH and XTHL are different: they step the 16-bit `sp`
itself (`sp -= 1`, `sp += 1`), so `sp` does wrap. PUSH at `sp` 0 or 1 wraps
`sp` to 0xFFFF and then stores there. XTHL at `sp` 0xFFFE increments `sp` to
0xFFFF and then stores there. 0xFFFF is one past the last cell, so the
requirements `sp >= 2` for PUSH and `sp + 1 <= 0xFFFE` for XTHL exclude
exactly the cases that wrap or step outside the array.

The model follows the code as written, including where the code departs from
the 8080 manual. Each departure is commented at its definition:

- ADC adds register C, not the carry flag.
- SUB never stores the difference, and it always clears the carry.
- SBB adds the carry into the operand register itself.
- INX changes no register.
- The CMC handler complements register C. The dispatcher's case 0x3f,
  `cy = ~cy`, complements the carry, and `ComplementCarry` models that case.
- DAA compares the whole accumulator with 9.
- XTHL keeps H and leaves `sp` one higher.
- The prefix skips operand bytes irregularly: MVI D skips two bytes, and
  MVI C, LXI D, LXI H, SHLD and LHLD skip none.

The Intel 8080 manual differs from the code in several more places. In
each case this model follows the code:

- The manual's ADC adds the carry flag.
- The manual's SUB and SBB store the difference, and their carry means a
  borrow.
- The manual's DAA on 0x9A gives carry 1, where the code gives carry 0.
- The manual's XTHL swaps both H and L with the stack.
- The header comment on the flags (cpu.hpp:34-38) describes the auxiliary
  carry as a carry out of the low four bits, where the code computes
  `result > 9`.

Modules, one per file:

- `Bits` (bits.dfy): machine words, byte and word conversions, the bitwise
  laws, the reference population count, and the parity loop.
- `Machine` (state.dfy): the processor record, register and pair access, and
  the initial state.
- `FlagRules` (flags.dfy): the two flag routines.
- `Arithmetic` (arithmetic.dfy): the arithmetic and logical handlers, and
  their algebraic laws.
- `Rotate` (rotate.dfy): RLC, RRC, RAL and RAR, and the inverse laws.
- `Transfer` (transfer.dfy): the loads, stores, exchanges and JMP.
- `Stack` (stack.dfy): PUSH, POP, PUSH PSW, POP PSW, CALL and RET, and their
  round trips.
- `Dispatch` (dispatch.dfy): the cycle table, the decoding of the prefix's
  opcodes into instructions, and the dispatcher prefix.

## Model

| member | source | states |
|---|---|---|
| Bits.Wrap8 | cpu.hpp:52-58 | storing into a `uint8_t` register keeps a value already in range and otherwise gives the unique byte congruent to it modulo 256 |
| Bits.Wrap16 | cpu.hpp:47-48 | storing into the 16-bit `pc` or `sp` keeps a value already in range and otherwise gives the unique value congruent to it modulo 65536 |
| Bits.AddU64 | cpu.hpp:85-86 | adding to the 64-bit cycle and instruction counters is exact below 2^64 and wraps modulo 2^64 above |
| Bits.BitOf | cpu.hpp:61-65 | a C truth value stored in a one-bit flag field is 1 exactly when the condition holds |
| Bits.SplitJoin | cpu.cpp:162-169 | splitting a 16-bit word into its high and low bytes and joining them back gives the word |
| Bits.JoinBytes | cpu.cpp:252-255 | the word `hi << 8 \| lo` has `hi` as its high byte and `lo` as its low byte |
| Bits.LowNibbleOfWrap | cpu.cpp:195-197 | adding to the accumulator and truncating to a byte preserves the low nibble of the untruncated sum |
| Bits.Bit7OfLowByte | cpu.cpp:85 | `result & 0x80` is set exactly when the low byte of the 16-bit result is at least 0x80 |
| Bits.XorTwice | cpu.cpp:402-409 | XOR with the same byte twice gives the original byte back |
| Bits.AndSelf | cpu.cpp:151-157 | a byte ANDed with itself is the byte, as ANA A relies on |
| Bits.OrSelf | cpu.cpp:282-290 | a byte ORed with itself is the byte, as ORA A relies on |
| Bits.XorSelf | cpu.cpp:402-409 | XOR of a byte with itself is 0 |
| Bits.AndTwice | cpu.cpp:151-157 | AND with the same byte a second time changes nothing |
| Bits.OrTwice | cpu.cpp:282-290 | OR with the same byte a second time changes nothing |
| Bits.ClearLowestBit | cpu.cpp:64-66 | one pass of the parity loop, `result & (result - 1)`, removes exactly one set bit from a nonzero word, counted by the independent population count |
| Bits.ClearLowestBit8 | cpu.cpp:64-66 | in a nonzero byte, `x & (x - 1)` removes exactly one set bit, proved by induction on the byte |
| Bits.Parity | cpu.cpp:60-74 | the parity routine returns 1 exactly when the word has an even number of set bits; the loop invariant ties the pass count to the bits still set |
| Bits.ParityOfByte | cpu.cpp:89 | applied to `result & 0xff`, the parity routine yields the parity flag value of that byte |
| Bits.ParityExamples | cpu.cpp:60-74 | parity flag values on sample bytes: 0x00 gives 1, 0x01 gives 0, 0xFF gives 1, 0xA0 gives 1, 0x10 gives 0 |
| Machine.Init | cpu.cpp:27-56 | after construction `pc`, `sp`, every register, all five flags, `halt`, `interrupts_enabled` and `clock_count` are 0; input port 0 has exactly bits 1 to 3 set, port 1 is 0x08, and ports 2 and 3 are 0 |
| FlagRules.ArithFlags | cpu.cpp:80-91 | z is set iff the low byte is 0, s iff the low byte is at least 0x80, p iff the low byte has even parity, cy iff the result exceeds 0xff, and ac iff the result exceeds 9 |
| FlagRules.FlagsNoCarry | cpu.cpp:93-102 | the same z, s, p and ac rules as the full routine, with the carry left as it was |
| FlagRules.FlagRoutinesAgree | cpu.cpp:80-102 | the two flag routines agree on every flag except the carry |
| Arithmetic.Difference | cpu.cpp:181-188 | the `uint16_t` difference of two bytes is zero iff they are equal, exceeds 0xff iff the first is smaller, and its low byte is the 8-bit difference |
| Arithmetic.WordOfSum | cpu.cpp:208-216 | storing the high and low bytes of a 17-bit sum into H and L gives the sum modulo 2^16 |
| Arithmetic.HighNibbleReplaced | cpu.cpp:199-205 | replacing the high nibble of a byte and truncating keeps its low nibble |
| Arithmetic.Add | cpu.cpp:137-142 | A becomes `(A + r) mod 256`; cy iff `A + r > 255`; z iff the new A is 0; s iff the new A is at least 0x80; p is its parity; ac iff the sum exceeds 9; nothing but A and the flags changes |
| Arithmetic.Adc | cpu.cpp:144-149 | A becomes `(A + C + r) mod 256`; cy iff the three-way sum exceeds 255; z, s and p follow the new A; ac iff the sum exceeds 9; only A and the flags change |
| Arithmetic.Sub | cpu.cpp:385-390 | A is unchanged and cy is always 0; z iff `A == r`; s and p follow the 8-bit difference; ac iff the 16-bit difference exceeds 9; only the flags change |
| Arithmetic.Sbb | cpu.cpp:377-383 | the operand register becomes `r + cy` (8-bit), and A becomes A minus that value modulo 256; cy iff it borrows; z iff the two are equal; s and p follow the new A; for operand A the difference is 0; other registers are kept |
| Arithmetic.Cmp | cpu.cpp:181-188 | A and ac are unchanged; cy iff `A < r`; z iff `A == r`; s and p follow the 8-bit difference; only the flags change |
| Arithmetic.Ana | cpu.cpp:151-157 | A becomes `A & r`; cy is always 0; z, s and p follow the result; ac iff it exceeds 9 |
| Arithmetic.Ora | cpu.cpp:282-290 | A becomes `A \| r`; cy is always 0 and ac is kept; z, s and p follow the result |
| Arithmetic.Xra | cpu.cpp:402-409 | A becomes `A ^ r`; cy and ac are always 0; z, s and p follow the result |
| Arithmetic.Inr | cpu.cpp:236-241 | the register becomes `(r + 1) mod 256`; cy is kept; z iff it was 0xFF; s, p and ac follow the new value; nothing else but the flags changes |
| Arithmetic.Dcr | cpu.cpp:218-225 | the register becomes `(r - 1) mod 256`; cy and ac are kept; z iff it was 1; s and p follow the new value |
| Arithmetic.Dad | cpu.cpp:208-216 | HL becomes `(HL + pair) mod 65536`; cy iff the sum exceeds 0xFFFF; no other flag and no register other than H and L changes |
| Arithmetic.Dcx | cpu.cpp:227-234 | the pair becomes `(pair - 1) mod 65536`; no register outside the pair changes |
| Arithmetic.Inx | cpu.cpp:243-250 | as written the handler changes nothing in the record |
| Arithmetic.Cma | cpu.cpp:171-174 | the new A and the old A sum to 0xFF (one's complement); only A changes |
| Arithmetic.Cmc | cpu.cpp:176-179 | as written the new C and the old C sum to 0xFF; the flags are unchanged |
| Arithmetic.DaaLow | cpu.cpp:192-198 | when A exceeds 9 or ac is set, A gains 6 modulo 256 and the flags are those `handle_arith_flag` computes for `A + 6`, so cy is set iff A >= 250 and z iff A == 250; otherwise the record is unchanged; only A and the flags can change |
| Arithmetic.DaaHigh | cpu.cpp:199-205 | only A and the flags can change; with the high nibble at most 9 and cy clear the record is unchanged; the low nibble of A is always kept; when the step fires the high nibble becomes the old one plus 6 modulo 16, z, s and cy end 0, and ac is set iff the high nibble exceeded 3 |
| Arithmetic.Daa | cpu.cpp:190-206 | only A and the flags change; the carry always ends 0; with neither adjustment condition the record is unchanged; the final low nibble is that of `A + 6` after the first adjustment and of A otherwise; when the second adjustment fires the high nibble is the intermediate one plus 6 modulo 16 and z and s are 0, and when it does not A is the intermediate value |
| Arithmetic.ComplementCarry | cpu.cpp:758 | `cy = ~cy` on the one-bit field turns 0 into 1 and 1 into 0, and changes nothing else |
| Arithmetic.ComplementCarryTwice | cpu.cpp:758 | complementing the carry twice restores the record |
| Arithmetic.CmaTwice | cpu.cpp:171-174 | CMA applied twice is the identity |
| Arithmetic.CmcTwice | cpu.cpp:176-179 | CMC as written applied twice is the identity |
| Arithmetic.XraSelf | cpu.cpp:402-409 | `XRA A` gives A = 0 with z = 1 and p = 1 |
| Arithmetic.XraTwice | cpu.cpp:402-409 | XRA with the same register (not A) twice gives back the original accumulator |
| Arithmetic.AnaIdempotent | cpu.cpp:151-157 | a second ANA with the same register leaves the whole record as the first left it |
| Arithmetic.OraIdempotent | cpu.cpp:282-290 | a second ORA with the same register leaves the whole record as the first left it |
| Arithmetic.IncrementThenDecrement | cpu.cpp:218-241 | DCR after INR on the same register restores every register and the memory; the carry is kept throughout |
| Arithmetic.DecrementThenIncrement | cpu.cpp:218-241 | INR after DCR on the same register restores every register and the memory; the carry is kept throughout |
| Arithmetic.IncrementWraps | cpu.cpp:236-241 | INR of 0xFF gives 0 with z set |
| Arithmetic.DecrementPairWraps | cpu.cpp:227-234 | DCX of the pair 0x0000 gives 0xFFFF |
| Arithmetic.CmpAgreesWithSub | cpu.cpp:181-188 | CMP and SUB both leave A alone and compute the same z, s and p; CMP's cy is the borrow `A < r`, while SUB's cy is always 0 |
| Arithmetic.AdcWithoutC | cpu.cpp:144-149 | with register C equal to 0, ADC is exactly ADD |
| Arithmetic.SbbAgreesWithCmp | cpu.cpp:377-383 | with cy clear, SBB sets cy and z as CMP does and stores the 8-bit difference |
| Arithmetic.DaaExample | cpu.cpp:190-206 | DAA as written on A = 0x9A with both carries clear ends with A = 0, z = 0, cy = 0 and ac = 1 |
| Rotate.Rlc | cpu.cpp:350-355 | cy becomes the old bit 7; the new A is the old A shifted left with bit 7 moved into bit 0; only A and cy change |
| Rotate.Rrc | cpu.cpp:357-362 | cy becomes the old bit 0; the new A is the old A shifted right with bit 0 moved into bit 7; only A and cy change |
| Rotate.Ral | cpu.cpp:327-333 | cy becomes the old bit 7, the old cy enters bit 0, and the other bits shift left |
| Rotate.Rar | cpu.cpp:335-341 | cy becomes the old bit 0, the old cy enters bit 7, and the other bits shift right |
| Rotate.RrcUndoesRlc | cpu.cpp:350-362 | RRC after RLC restores A; the carry ends as the old bit 7 |
| Rotate.RlcUndoesRrc | cpu.cpp:350-362 | RLC after RRC restores A; the carry ends as the old bit 0 |
| Rotate.RalRarInverse | cpu.cpp:327-341 | RAR after RAL, and RAL after RAR, restore the whole record, including the pair (A, cy) |
| Rotate.RlcStep | cpu.cpp:350-355 | one RLC doubles A and subtracts 255 when bit 7 was set; only 0xFF rotates to 0xFF |
| Rotate.EightDoublings | cpu.cpp:350-355 | eight steps that each double a byte and subtract 255 times the bit shifted out return to the start, given that the end is 0xFF exactly when the start is |
| Rotate.RlcEightTimes | cpu.cpp:350-355 | eight RLCs in a row return A to its starting value |
| Transfer.Jmp | cpu.cpp:252-255 | the new `pc` has `opcode[1]` as its low byte and `opcode[2]` as its high byte; nothing else changes |
| Transfer.Lxi | cpu.cpp:276-280 | the pair takes the little-endian operand word, with the high register from `opcode[2]` and the low one from `opcode[1]`; no other register changes |
| Transfer.Lda | cpu.cpp:257-261 | A takes the byte at the little-endian operand address; nothing else changes |
| Transfer.Sta | cpu.cpp:371-375 | the byte at the operand address becomes A, and every other memory cell is kept |
| Transfer.Ldax | cpu.cpp:263-267 | A takes the byte the register pair addresses |
| Transfer.Stax | cpu.cpp:443-447 | the byte the register pair addresses becomes A, and every other memory cell is kept |
| Transfer.Mvi | cpu.cpp:464-468 | the register takes `opcode[1]`, and no other register changes |
| Transfer.Lhld | cpu.cpp:269-274 | L takes the byte at the operand address and H the byte after it; nothing else changes |
| Transfer.Shld | cpu.cpp:364-369 | L is stored at the operand address and H at the next one; all other cells are kept |
| Transfer.Xchg | cpu.cpp:392-400 | HL and DE trade values, and nothing else changes |
| Transfer.Xthl | cpu.cpp:411-420 | as written L trades with the byte at `sp`, H is stored at `sp + 1` and kept, and `sp` ends one higher |
| Transfer.XchgTwice | cpu.cpp:392-400 | XCHG applied twice is the identity |
| Transfer.XthlTwice | cpu.cpp:411-420 | XTHL as written applied twice is not an identity: `sp` ends two higher and L ends with the old H, which H keeps |
| Transfer.StaThenLda | cpu.cpp:257-261 | LDA from the address STA just wrote, when the write misses the operand bytes, gives back A and leaves the record as STA left it |
| Transfer.LdaThenSta | cpu.cpp:371-375 | STA to the address LDA just read changes nothing beyond the load |
| Transfer.StaxThenLdax | cpu.cpp:263-267 | LDAX through the pair STAX just wrote through gives back A and leaves the record as STAX left it |
| Transfer.LdaxThenStax | cpu.cpp:443-447 | STAX through the pair LDAX just read through changes nothing beyond the load |
| Transfer.ShldThenLhld | cpu.cpp:364-369 | an LHLD from the address an SHLD wrote, while both stored bytes are still there, gives back the original L and H |
| Transfer.ShldLhldRoundTrip | cpu.cpp:269-274 | LHLD straight after SHLD, with the stored bytes clear of the operand, leaves the record exactly as SHLD left it |
| Stack.Push | cpu.cpp:311-317 | the high register goes to `sp - 1` and the low one to `sp - 2`, so the two bytes join to the pair's value; `sp` drops by 2; all other cells and all registers are kept |
| Stack.Pop | cpu.cpp:292-297 | the low register takes the byte at `sp` and the high one the byte at `sp + 1`; `sp` rises by 2; no other register changes |
| Stack.PackPsw | cpu.cpp:321 | the pushed flag byte holds cy in bit 0, p in bit 2, ac in bit 4, z in bit 6 and s in bit 7; bit 1 is always set; bits 3 and 5 are always clear |
| Stack.UnpackPsw | cpu.cpp:302-307 | POP PSW reads s from bit 7, z from bit 6, ac from bit 4, p from bit 2 and cy from bit 0 |
| Stack.PushPsw | cpu.cpp:319-325 | A goes to `sp - 1` and the flag byte to `sp - 2`; `sp` drops by 2; all other cells are kept |
| Stack.PopPsw | cpu.cpp:299-309 | A takes the byte at `sp + 1` and the flags the bits of the byte at `sp`; `sp` rises by 2 |
| Stack.Call | cpu.cpp:162-169 | `pc + 2` (16-bit) is pushed high byte first; `sp` drops by 2; when the stack slots do not overlap the operand, `pc` becomes the little-endian operand word |
| Stack.Ret | cpu.cpp:343-348 | the new `pc` has the byte at `sp` as its low byte and the byte at `sp + 1` as its high byte; `sp` rises by 2 |
| Stack.UnpackPack | cpu.cpp:299-325 | decoding the pushed flag byte gives back all five flags |
| Stack.PackUnpack | cpu.cpp:299-325 | a byte is a possible pushed flag byte iff bit 1 is set and bits 3 and 5 are clear, and such a byte survives decoding and re-encoding |
| Stack.PushThenPop | cpu.cpp:292-317 | PUSH then POP of the same pair restores every register and `sp` |
| Stack.PushThenPopInto | cpu.cpp:292-317 | PUSH of one pair then POP into another copies the first pair's value into the second and restores `sp` |
| Stack.PushPswThenPopPsw | cpu.cpp:299-325 | PUSH PSW then POP PSW restores A, all five flags and `sp` |
| Stack.CallThenRet | cpu.cpp:162-169 | a RET straight after a CALL resumes at `pc + 2` (16-bit) with the pre-CALL `sp` |
| Stack.XthlAfterPush | cpu.cpp:411-420 | XTHL right after PUSH H leaves L and H as they were before the push and the memory as the push left it, with `sp` one below its value before the push |
| Dispatch.Cycles | cpu.cpp:7-25 | every entry of the cycle table lies between 4 and 18 |
| Dispatch.CyclesRow0 | cpu.cpp:9 | the table entries for opcodes 0x00 to 0x0f |
| Dispatch.CyclesRow1 | cpu.cpp:10 | the table entries for opcodes 0x10 to 0x1f |
| Dispatch.CyclesRow2 | cpu.cpp:11 | the table entries for opcodes 0x20 to 0x2f |
| Dispatch.OperandSkip | cpu.cpp:437-629 | cases 0x01 and 0x16 skip two operand bytes, cases 0x06, 0x1e and 0x26 skip one, and every other case of the prefix skips none |
| Dispatch.Decode | cpu.cpp:432-658 | the handler each case of the prefix runs; it is NOP exactly for the opcodes that are multiples of 8, and only the LXI and MVI cases move `pc` past operand bytes |
| Dispatch.DecodeOpcode | cpu.cpp:432-658 | every instruction whose 8080 encoding lies in the prefix (register field in bits 3 to 5, pair field in bits 4 and 5) is the one the case at that opcode runs |
| Dispatch.DecodePairOpcode | cpu.cpp:437-653 | the cases for LXI, STAX, INX, DAD, LDAX and DCX run the instruction encoded at their opcode, for each pair |
| Dispatch.DecodeRegisterOpcode | cpu.cpp:454-658 | the cases for INR, DCR and MVI run the instruction encoded at their opcode, for each register |
| Dispatch.OpcodeDecode | cpu.cpp:432-658 | conversely every case of the prefix runs an instruction encoded in the prefix; it is NOP exactly for the opcodes that are multiples of 8, and its encoding is the opcode itself except for the unused slots 0x08 to 0x28 |
| Dispatch.OpcodeDecodeRow0 | cpu.cpp:433-514 | the same for the cases 0x00 to 0x0f |
| Dispatch.OpcodeDecodeRow1 | cpu.cpp:515-595 | the same for the cases 0x10 to 0x1f |
| Dispatch.OpcodeDecodeRow2 | cpu.cpp:596-658 | the same for the cases 0x20 to 0x2c |
| Dispatch.Execute | cpu.cpp:432-658 | the cases of the prefix change only memory, the seven registers and the flags; `pc`, `sp`, the ports, the status bytes and the counters are left to the dispatcher |
| Dispatch.CaseCycles | cpu.cpp:434-657 | the cycle literal each case of the prefix adds to `clock_count` equals the table entry for its opcode |
| Dispatch.Fetch | cpu.cpp:422-429 | each call counts the instruction, points `opcode` at `pc`, and advances `pc` by 1 |
| Dispatch.Emulate | cpu.cpp:422-661 | opcodes up to 0x2c execute and all others are reported as outside the prefix; an executed step adds 1 to the instruction count and the table cost to the clock, advances `pc` by 1 plus the case's skip modulo 2^16, and leaves `sp`, the ports and the status bytes unchanged |
| Dispatch.EmulateNop | cpu.cpp:432-435 | a NOP opcode only counts the instruction, moves `pc` by one and adds 4 cycles |
| Dispatch.EmulateMvi | cpu.cpp:464-629 | MVI via the dispatcher loads the byte after the opcode into the register and keeps the others; `pc` then advances 2 for B, E and H, 3 for D and 1 for C, modulo 2^16 |
| Dispatch.EmulateLxi | cpu.cpp:437-603 | LXI via the dispatcher loads the operand word into the pair and keeps every other register, the flags and memory; `pc` advances 3 for BC and 1 for DE and HL |
| Dispatch.EmulateWithoutSkip | cpu.cpp:422-658 | for every instruction but LXI and MVI the step is the handler run on the fetched record, with the clock advanced by the table cost of the opcode |
| Dispatch.InrAfterFetch | cpu.cpp:236-241 | INR on the fetched record increments the register modulo 256 against the record before the fetch, keeping the other registers, cy and memory |
| Dispatch.DcrAfterFetch | cpu.cpp:218-225 | DCR on the fetched record decrements the register modulo 256 against the record before the fetch, keeping the other registers, cy, ac and memory |
| Dispatch.DcxAfterFetch | cpu.cpp:227-234 | DCX on the fetched record decrements the pair modulo 2^16 against the record before the fetch, keeping the other registers, the flags and memory |
| Dispatch.DadAfterFetch | cpu.cpp:208-216 | DAD on the fetched record leaves in HL the sum of HL and the pair modulo 2^16, with cy set iff the sum passes 0xFFFF, against the record before the fetch |
| Dispatch.EmulateInr | cpu.cpp:454-658 | INR via the dispatcher (0x04, 0x0c, ... 0x2c) increments the register modulo 256, keeps cy, sets z exactly on the wrap from 0xFF, keeps every other register and memory, and moves `pc` past the opcode |
| Dispatch.EmulateDcr | cpu.cpp:459-624 | DCR via the dispatcher (0x05, 0x0d, ... 0x25) decrements the register modulo 256, keeps cy and ac, sets z exactly when the register was 1, keeps every other register and memory |
| Dispatch.EmulateInx | cpu.cpp:449-614 | INX via the dispatcher (0x03, 0x13, 0x23) only counts the instruction, moves `pc` past the opcode and adds 5 cycles |
| Dispatch.EmulateDcx | cpu.cpp:489-654 | DCX via the dispatcher (0x0b, 0x1b, 0x2b) decrements the pair modulo 2^16 and keeps the other registers, the flags and memory |
| Dispatch.EmulateDad | cpu.cpp:479-644 | DAD via the dispatcher (0x09, 0x19, 0x29) adds the pair to HL modulo 2^16, sets cy exactly on a carry out of bit 15, and keeps the other flags, registers and memory |
| Dispatch.EmulateStax | cpu.cpp:443-529 | STAX via the dispatcher (0x02, 0x12) stores A where the pair points, keeps every other cell, register and flag |
| Dispatch.EmulateLdax | cpu.cpp:484-569 | LDAX via the dispatcher (0x0a, 0x1a) loads A from where the pair points and changes nothing else but `pc` |
| Dispatch.EmulateRlc | cpu.cpp:470-474 | RLC via the dispatcher moves bit 7 of A to cy and to bit 0 and shifts the rest left, keeping the other flags, registers and memory |
| Dispatch.EmulateRrc | cpu.cpp:510-514 | RRC via the dispatcher moves bit 0 of A to cy and to bit 7 and shifts the rest right |
| Dispatch.EmulateRal | cpu.cpp:551-555 | RAL via the dispatcher shifts A left, the old cy entering bit 0 and bit 7 becoming cy |
| Dispatch.EmulateRar | cpu.cpp:591-595 | RAR via the dispatcher shifts A right, the old cy entering bit 7 and bit 0 becoming cy |
| Dispatch.EmulateShld | cpu.cpp:605-609 | SHLD via the dispatcher stores L at the operand address and H after it, keeps every other cell, register and flag, and leaves `pc` on the operand bytes |
| Dispatch.EmulateLhld | cpu.cpp:645-649 | LHLD via the dispatcher loads L from the operand address and H from the cell after it, changes nothing else but `pc`, and leaves `pc` on the operand bytes |
| Dispatch.EmulateDaa | cpu.cpp:631-635 | DAA via the dispatcher always ends with cy clear, sets the low nibble of A as the first adjustment leaves it, and keeps the other registers and memory |

## Left out

- `emulate` cases 0x2d to 0xff are not modelled, because most of them fall through into the next case and the switch redeclares locals across case labels. The handler methods those cases call are modelled. `Emulate` reports these opcodes as `OutsidePrefix`.
- Redeclared locals in the prefix are not modelled, because they stop the switch from compiling. Cases 0x02, 0x0e and 0x12 declare `bc`, `value` and `address` inside the switch without braces. Each case is modelled as if it had its own scope.
- `emulate`'s return value is not modelled, because the function has no `return` statement.
- HLT's `exit(0)` and `unimplemented_instruction` (`--pc; exit(1)`) are not modelled, because they terminate the process.
- Interrupts are not modelled, because `interrupt` is declared but never defined, EI and DI are empty cases, and `interrupts_enabled` is never changed after the constructor sets it to 0.
- IN, OUT and the shift register are not modelled, because IN and OUT are empty cases and `reg_shift` and `shift_offset` are never used. The ports are only carried in the record.
- The memory map in the header comment is not modelled, because no code enforces ROM write protection or RAM mirroring.
- The auxiliary-carry rule follows the code, `result > 9`, because the header comment's carry out of bit 3 is never computed.
- `Machine.Init`: the second `std::fill` clears seven entries of the four-entry `in_port`, which is undefined behaviour. The model zeroes the four input ports and then sets the documented bits.
- `Machine.Init` takes the memory, the output ports, `instruction_count` and the `opcode` pointer as parameters, because the constructor never initialises them.
- `opcode` is modelled as the address of the current instruction, not as a pointer. `Emulate` sets it to `pc` before incrementing `pc`.
- DAA's BCD intent is not modelled. DAA follows the code as written, where `lsb` is the whole accumulator.
- Register operands are modelled as the `Reg` and `Pair` enumerations, because handlers take pointers only to the processor's own registers. The pairs that occur are BC, DE and HL.
- `Bits.Parity` works on a `bv16` word as the routine does. Callers only pass `result & 0xff`, which `Bits.ParityOfByte` covers.
- `Dispatch.Execute`: its contract is only the frame of a case. Which handler each opcode runs is stated by `DecodeOpcode` and `OpcodeDecode`, and each instruction's effect through the dispatcher by the `Emulate` lemmas.
- Graphics and the program entry point (SDL windowing, ROM loading) are not part of this model.

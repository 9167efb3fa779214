/** The arithmetic of the register instructions (include/chip8.hpp:225-286, 366-369).
    Registers are bytes, so every result wraps modulo 256 exactly as the source's
    `uint8_t` stores do. A 16-bit sum or difference stands for the unbounded
    value the source computes in `int` before truncating it. */
module Alu {

  /** A result byte and the value written to the flag register VF. */
  datatype Flagged = Flagged(value: bv8, flag: bv8)

  /** 7XNN: VX + NN, wrapping silently; VF is not involved. */
  function AddNoCarry(a: bv8, nn: bv8): (r: bv8)
    ensures r as bv16 == (a as bv16 + nn as bv16) & 0xFF
  {
    a + nn
  }

  /** 8XY1, 8XY2, 8XY3 (and the mask of CXNN): bitwise operations. */
  function Or(a: bv8, b: bv8): bv8 { a | b }

  function And(a: bv8, b: bv8): bv8 { a & b }

  function Xor(a: bv8, b: bv8): bv8 { a ^ b }

  /** 8XY0 to 8XY3: the value written to VX, from VX (`a`) and VY (`b`). */
  function Bitwise(n: nat, a: bv8, b: bv8): bv8
    requires n <= 3
  {
    if n == 0 then b else if n == 1 then Or(a, b) else if n == 2 then And(a, b) else Xor(a, b)
  }

  /** 8XY4: the sum wraps modulo 256 and the flag is the carry out of bit 7
      (the source computes the sum in 32 bits and takes bit 8 as the flag). */
  function AddCarry(a: bv8, b: bv8): (r: Flagged)
    ensures r.value == a + b
    ensures r.flag == if a as bv16 + b as bv16 > 255 then 1 else 0
  {
    var sum := a as bv32 + b as bv32;
    Flagged((sum & 0xFF) as bv8, (sum >> 8) as bv8)
  }

  /** 8XY5 (and 8XY7 with the operands swapped): the difference wraps modulo 256
      and the flag is 1 exactly when there is no borrow. The source stores the
      `int` difference in a 32-bit unsigned variable and sets the flag when its
      bits above bit 7 are all clear. */
  function SubNoBorrow(a: bv8, b: bv8): (r: Flagged)
    ensures r.value == a - b
    ensures r.flag == if a >= b then 1 else 0
  {
    var diff := a as bv32 - b as bv32;
    Flagged((diff & 0xFF) as bv8, if diff >> 8 == 0 then 1 else 0)
  }

  /** 8XY4, 8XY5 and 8XY7, from VX (`a`) and VY (`b`). */
  function Carrying(n: nat, a: bv8, b: bv8): Flagged
    requires n == 4 || n == 5 || n == 7
  {
    if n == 4 then AddCarry(a, b) else if n == 5 then SubNoBorrow(a, b) else SubNoBorrow(b, a)
  }

  /** 8XY6 and 8XYE, from VY. */
  function Shift(left: bool, b: bv8): Flagged
  {
    if left then ShiftLeft(b) else ShiftRight(b)
  }

  /** 8XY6: the halved source byte, with the bit shifted out as the flag. */
  function ShiftRight(b: bv8): (r: Flagged)
    ensures r.value == b / 2 && r.flag == b % 2
  {
    Flagged(b >> 1, b & 1)
  }

  /** 8XYE: the doubled source byte modulo 256, with the bit shifted out as the flag. */
  function ShiftLeft(b: bv8): (r: Flagged)
    ensures r.value as bv16 == (b as bv16 * 2) & 0xFF
    ensures r.flag == if b >= 128 then 1 else 0
  {
    Flagged(b << 1, (b >> 7) & 1)
  }

  /** FX33: the three decimal digits of a byte, most significant first. */
  datatype Digits = Digits(hundreds: bv8, tens: bv8, ones: bv8)

  function Bcd(b: bv8): (d: Digits)
    ensures d.hundreds < 10 && d.tens < 10 && d.ones < 10
    ensures d.hundreds as bv16 * 100 + d.tens as bv16 * 10 + d.ones as bv16 == b as bv16
  {
    Digits((b / 100) % 10, (b / 10) % 10, b % 10)
  }

  /** The carry flag of 8XY4 reports exactly the overflow of the sum:
      the wrapped result is smaller than an operand iff the flag is set. */
  lemma CarryIffWrapped(a: bv8, b: bv8)
    ensures AddCarry(a, b).flag == 1 <==> AddCarry(a, b).value < a
    ensures AddCarry(a, b).flag == 1 <==> AddCarry(a, b).value < b
  {
  }

  /** Subtraction undoes addition: adding VY and then subtracting it gives
      VX back, and the two flags are complementary. */
  lemma AddThenSubtract(a: bv8, b: bv8)
    ensures SubNoBorrow(AddCarry(a, b).value, b).value == a
    ensures SubNoBorrow(AddCarry(a, b).value, b).flag == 1 - AddCarry(a, b).flag
  {
  }

  /** The shift quirk on 0b10110001: right gives 0b01011000 and left gives
      0b01100010, both with flag 1. */
  lemma ShiftExamples()
    ensures ShiftRight(0xB1) == Flagged(0x58, 1)
    ensures ShiftLeft(0xB1) == Flagged(0x62, 1)
  {
  }

  /** BCD of 234 is 2, 3, 4. */
  lemma BcdExample()
    ensures Bcd(234) == Digits(2, 3, 4)
  {
  }
}

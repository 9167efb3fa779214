/** Instruction words and their fields (include/chip8.hpp:165-172).
    An instruction is two bytes read big-endian into the 16-bit `opcode_`.
    The four nibbles of the word are the class C, the registers X and Y and
    the literal N; the low byte is the literal NN and the low twelve bits the
    address NNN. The source extracts them with shifts and masks; on the value
    of the word these are divisions and remainders by powers of two. */
module Decode {
  import opened Types

  /** The instruction word fetched from the byte at PC (`hi`) and the byte at PC+1 (`lo`). */
  function Word(hi: bv8, lo: bv8): (w: u16)
  {
    hi as int * 0x100 + lo as int
  }

  /** Top nibble: the instruction class. */
  function Class(w: u16): (c: nat)
    ensures c < 16
  {
    w / 0x1000
  }

  /** Second nibble: register X. */
  function X(w: u16): (x: nat)
    ensures x < 16
  {
    w / 0x100 % 16
  }

  /** Third nibble: register Y. */
  function Y(w: u16): (y: nat)
    ensures y < 16
  {
    w / 0x10 % 16
  }

  /** Low nibble: the literal N (sprite height, or the sub-opcode of class 8). */
  function N(w: u16): (n: nat)
    ensures n < 16
  {
    w % 16
  }

  /** Low byte: the literal NN, a byte like the registers it meets. */
  function NN(w: u16): (nn: bv8)
  {
    (w % 0x100) as bv8
  }

  /** Low twelve bits: the address NNN. */
  function NNN(w: u16): (nnn: u16)
    ensures nnn < 0x1000
  {
    w % 0x1000
  }

  /** Decoding loses nothing: the four nibbles put back together give the
      word, and NNN is X, Y and N put together. */
  lemma FieldsRecompose(w: u16)
    ensures w == Class(w) * 0x1000 + X(w) * 0x100 + Y(w) * 0x10 + N(w)
    ensures NNN(w) == X(w) * 0x100 + Y(w) * 0x10 + N(w)
  {
    var c, x, y, n := w / 0x1000, w / 0x100 % 16, w / 0x10 % 16, w % 16;
    assert w / 0x100 == c * 16 + x;
    assert w / 0x10 == (c * 16 + x) * 16 + y;
    assert w == ((c * 16 + x) * 16 + y) * 16 + n;
  }

  /** NN is Y followed by N. */
  lemma LowByte(w: u16)
    ensures NN(w) == (Y(w) * 0x10 + N(w)) as bv8
  {
    assert w % 0x100 == Y(w) * 0x10 + N(w);
  }

  /** Fetching is reversible: the word's high byte is the byte at PC and its
      low byte the byte at PC+1, and NN is that second byte. */
  lemma WordBytes(hi: bv8, lo: bv8)
    ensures Word(hi, lo) / 0x100 == hi as int && Word(hi, lo) % 0x100 == lo as int
    ensures NN(Word(hi, lo)) == lo
  {
    assert Word(hi, lo) % 0x100 == lo as int;
  }
}

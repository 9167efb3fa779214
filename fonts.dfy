/** The built-in hexadecimal font (include/chip8.hpp:64-97): sixteen glyphs of
    five rows each, one byte per row, the four pixels of a row in the byte's
    high nibble. Reset copies it to the first 80 bytes of memory, and FX29
    points the index register at glyph d by setting it to 5 * d. */
module Fonts {

  const GLYPH_ROWS := 5

  /** The font is laid out four glyphs at a time, so that each part is a short
      literal whose bytes the verifier can read one by one. */
  const FONT: seq<bv8> := DIGITS_0_3 + DIGITS_4_7 + DIGITS_8_B + DIGITS_C_F

  const DIGITS_0_3: seq<bv8> := [
    0xF0, 0x90, 0x90, 0x90, 0xF0,  // 0
    0x20, 0x60, 0x20, 0x20, 0x70,  // 1
    0xF0, 0x10, 0xF0, 0x80, 0xF0,  // 2
    0xF0, 0x10, 0xF0, 0x10, 0xF0   // 3
  ]

  const DIGITS_4_7: seq<bv8> := [
    0x90, 0x90, 0xF0, 0x10, 0x10,  // 4
    0xF0, 0x80, 0xF0, 0x10, 0xF0,  // 5
    0xF0, 0x80, 0xF0, 0x90, 0xF0,  // 6
    0xF0, 0x10, 0x20, 0x40, 0x40   // 7
  ]

  const DIGITS_8_B: seq<bv8> := [
    0xF0, 0x90, 0xF0, 0x90, 0xF0,  // 8
    0xF0, 0x90, 0xF0, 0x10, 0xF0,  // 9
    0xF0, 0x90, 0xF0, 0x90, 0x90,  // A
    0xE0, 0x90, 0xE0, 0x90, 0xE0   // B
  ]

  const DIGITS_C_F: seq<bv8> := [
    0xF0, 0x80, 0x80, 0x80, 0xF0,  // C
    0xE0, 0x90, 0x90, 0x90, 0xE0,  // D
    0xF0, 0x80, 0xF0, 0x80, 0xF0,  // E
    0xF0, 0x80, 0xF0, 0x80, 0x80   // F
  ]

  /** The five rows of the glyph for hexadecimal digit d. */
  function Glyph(d: nat): (g: seq<bv8>)
    requires d < 16
    ensures |g| == GLYPH_ROWS
    ensures forall k :: 0 <= k < GLYPH_ROWS ==> g[k] == FONT[GLYPH_ROWS * d + k]
  {
    FONT[GLYPH_ROWS * d .. GLYPH_ROWS * d + GLYPH_ROWS]
  }

  /** Rows whose pixels all lie in the high nibble of their byte. */
  predicate DarkLow(rows: seq<bv8>)
  {
    forall i :: 0 <= i < |rows| ==> rows[i] & 0x0F == 0
  }

  /** The font is four pixels wide: no row of any glyph lights a pixel in
      the low nibble of its byte. */
  lemma GlyphFourWide(d: nat)
    requires d < 16
    ensures forall k :: 0 <= k < GLYPH_ROWS ==> Glyph(d)[k] & 0x0F == 0
  {
    FontFourWide();
  }

  lemma FontFourWide()
    ensures DarkLow(FONT)
  {
    QuartersFourWide();
  }

  lemma QuartersFourWide()
    ensures DarkLow(DIGITS_0_3) && DarkLow(DIGITS_4_7) && DarkLow(DIGITS_8_B) && DarkLow(DIGITS_C_F)
  {
  }
}

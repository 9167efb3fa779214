/** The fixed-width unsigned integers of the source, as ranges of `int`.
    Arithmetic that may leave its range is reduced modulo 2^width explicitly
    wherever the source relies on the wrap-around. Registers, memory and the
    framebuffer, which the instructions treat bit by bit, are bit-vectors. */
module Types {
  type u8 = x: int | 0 <= x < 0x100
  type u16 = x: int | 0 <= x < 0x1_0000

  const U16 := 0x1_0000

  /** Bytes of memory, and the register that doubles as the carry, borrow and
      collision flag. */
  const MEM_SIZE := 4096
  const FLAG := 15
}

# CHIP-8 interpreter core, modelled in Dafny

This project models the `Chip8` class of a small CHIP-8 emulator. The class
lives in `include/chip8.hpp`, a header-only C++ template with a memory size of
0x1000. It holds a 4096-byte memory and sixteen 8-bit registers V0..VF. It
also has a 16-slot return stack with a 16-bit stack pointer, an index register
I, a program counter and two 8-bit timers. The screen is 32 scanlines of 64
pixels, each scanline packed into one 64-bit word. A redraw flag and a 32-bit
linear congruential generator complete the state.

The model has two layers.

- **Module `Machine`** (`machine.dfy`) is the state as a value, `State`. It
  has one function per operation of the class: `Step` (fetch, decode,
  execute), `Reset`, `Tick` (`DecrementTimers`) and `Load` (`LoadProgram` on
  the bytes of a file). It also has `PowerOn` (the constructor). Every
  instruction is computed in the order of the source's statements, on the
  register sequence. So a write to VF followed by a read of VX or VY sees the
  new VF when X or Y is F, as in the source, where VX, VY and VF are
  references into `V_`.
- **Class `Interpreter.Chip8`** (`chip8.dfy`) is the object itself. Memory,
  registers, stack, keypad and framebuffer are arrays updated in place, and
  the rest are fields. Each method ensures that the new abstract state
  `Abs()`, together with any returned status, is the `Machine` function of the
  old one. The loops of the source are loops here too, with their invariants:
  - the font copy of `Reset`;
  - the row loop of DXYN;
  - the register loops of FX55 and FX65;
  - the byte loop of `LoadProgram`.

The pieces the source computes inline are separate modules:
- `Decode`: the nibble fields of an instruction word.
- `Alu`: the register arithmetic, with its carry and borrow flags.
- `Fonts`: the 80-byte hexadecimal font.
- `Lcg`: the random generator.
- `Display`: the XOR sprite loop with its collision flag and clipping.

Module `Properties` states what each instruction does without reference to how
`Machine` computes it, and proves it.

## Model

| member | source | states |
|---|---|---|
| Interpreter.Chip8.constructor | include/chip8.hpp:103 | a new interpreter is `Machine.PowerOn()`: zeroed state with the font installed and PC at 0x200 |
| Interpreter.Chip8.Reset | include/chip8.hpp:60-101 | the new state is `Machine.Reset` of the old one |
| Interpreter.Chip8.CopyFont | include/chip8.hpp:98-100 | after the copy loop, memory is the 80 font bytes followed by the old bytes from 80 on |
| Interpreter.Chip8.DecrementTimers | include/chip8.hpp:105-113 | the new timers and the beep are `Machine.Tick` of the old state |
| Interpreter.Chip8.Random | include/chip8.hpp:53-57 | the generator state becomes `Next(old state)`, and the result is bits 24-31 of the new state |
| Interpreter.Chip8.EvaluateInstruction | include/chip8.hpp:164-389 | the returned status and the new state are `Machine.Step` of the old state |
| Interpreter.Chip8.Execute | include/chip8.hpp:176-386 | dispatches on the class nibble; status and new state are `Machine.Execute` |
| Interpreter.Chip8.Control | include/chip8.hpp:194-222 | the jumps, the call and the four register skips update the state as `Machine.Control` |
| Interpreter.Chip8.Compute | include/chip8.hpp:223-385 | the register, index, random, draw, key and F-class instructions update the state as `Machine.Compute` |
| Interpreter.Chip8.Arith | include/chip8.hpp:232-287 | the 8XYN instructions write the registers as `Machine.Arith`, in source order |
| Interpreter.Chip8.DrawSprite | include/chip8.hpp:302-311 | DXYN clears VF, raises the redraw flag and runs the row loop, as `Machine.DrawSprite` |
| Interpreter.Chip8.DrawRows | include/chip8.hpp:305-311 | the row loop leaves registers and framebuffer as `Display.DrawRows` from row 0 |
| Interpreter.Chip8.DrawRow | include/chip8.hpp:306-310 | one row that passed both clipping tests leaves registers and framebuffer as `Display.DrawRow`, and VF stays at most 1 |
| Interpreter.Chip8.XorRow | include/chip8.hpp:309-310 | one row: VF ORed with the collision test, then the mask XORed into scanline VY + row, with VY read after VF changed |
| Interpreter.Chip8.Misc | include/chip8.hpp:329-385 | the FX instructions update the state as `Machine.Misc` |
| Interpreter.Chip8.StoreBcd | include/chip8.hpp:366-370 | memory becomes `Machine.BcdBytes` of the old memory, I and VX |
| Interpreter.Chip8.StoreRegisters | include/chip8.hpp:372-375 | the FX55 loop leaves memory as `Machine.StoreRegs` for V0..VX |
| Interpreter.Chip8.LoadRegisters | include/chip8.hpp:378-382 | the FX65 loop leaves the registers as `Machine.LoadRegs` for V0..VX |
| Interpreter.Chip8.LoadProgram | include/chip8.hpp:391-400 | the success flag and the new state are `Machine.Load` of the old state and the file |
| Interpreter.Chip8.StoreImage | include/chip8.hpp:393-398 | succeeds iff the image is shorter than the 3584 bytes from 0x200 to 0xFFF; memory gets the image, or its first 3584 bytes, from 0x200 |
| Interpreter.Chip8.ResetRedrawFlag | include/chip8.hpp:403 | the redraw flag is false afterwards |
| Decode.FieldsRecompose | include/chip8.hpp:167-172 | the class, X, Y and N nibbles recompose the word, and NNN is its low twelve bits |
| Decode.LowByte | include/chip8.hpp:171 | NN is the byte made of the Y and N nibbles |
| Decode.WordBytes | include/chip8.hpp:165 | the word is big-endian: its high byte is the first byte and NN is the second |
| Alu.AddNoCarry | include/chip8.hpp:229 | 7XNN: the sum modulo 256 |
| Alu.AddCarry | include/chip8.hpp:253-255 | 8XY4: the sum modulo 256, with flag 1 iff the 16-bit sum exceeds 255 |
| Alu.SubNoBorrow | include/chip8.hpp:260-262 | 8XY5: the difference modulo 256, with flag 1 iff the first operand is at least the second |
| Alu.ShiftRight | include/chip8.hpp:277-278 | 8XY6: the source byte halved, with its low bit as the flag |
| Alu.ShiftLeft | include/chip8.hpp:284-285 | 8XYE: the source byte doubled modulo 256, with flag 1 iff it was at least 128 |
| Alu.Bcd | include/chip8.hpp:367-369 | FX33: three digits below 10 whose weighted sum 100h + 10t + o is the byte |
| Alu.CarryIffWrapped | include/chip8.hpp:253-255 | the carry flag is set iff the wrapped sum is below either operand |
| Alu.AddThenSubtract | include/chip8.hpp:253-262 | 8XY5 undoes 8XY4 on VX, and the two flags are complementary |
| Alu.ShiftExamples | include/chip8.hpp:276-286 | 0xB1 shifts right to 0x58 and left to 0x62, both with flag 1 |
| Alu.BcdExample | include/chip8.hpp:367-369 | 234 gives the digits 2, 3, 4 |
| Fonts.GlyphFourWide | include/chip8.hpp:350-353 | the font is four pixels wide: every row of every glyph has its low nibble clear |
| Lcg.Output | include/chip8.hpp:56 | the output byte is bits 24-31 of the generator state |
| Lcg.Bytes | include/chip8.hpp:53-57 | the stream has the requested length, and its first byte is the output of one step |
| Lcg.BytesSplit | include/chip8.hpp:53-57 | i + j bytes are i bytes followed by j bytes drawn from the state after i steps |
| Lcg.FirstBytes | include/chip8.hpp:53-57 | from the fixed seed, the first six bytes are C2 54 95 C2 E1 5D, the same on every run |
| Display.MaskInside | include/chip8.hpp:307 | inside the eight columns starting at VX, a pixel of the mask is lit iff the matching sprite bit is set |
| Display.MaskOutside | include/chip8.hpp:307 | every other pixel of the mask is dark, so bits pushed off the right edge are dropped, not wrapped |
| Display.Collide | include/chip8.hpp:309 | the collision test changes only VF |
| Display.Limit | include/chip8.hpp:305-308 | the number of rows drawn is at most N and within memory and screen, and fewer rows means a clipping test stopped the loop |
| Display.DrawRowInside | include/chip8.hpp:309-310 | with VF at most 1 and at most 15 rows, a row that passes both clipping tests tests the collision, then toggles a scanline that is on screen, and VF stays at most 1 |
| Display.DrawRowPlain | include/chip8.hpp:307-310 | with Y not F, a row is tested and toggled on the same scanline VY + row |
| Display.DrawRowsSweep | include/chip8.hpp:305-311 | with X and Y not F, the row loop is the sweep of the masks of the rows that survive clipping |
| Display.SweepEffect | include/chip8.hpp:309-310 | a sweep ORs into VF whether some mask overlaps a lit pixel, and XORs each mask into its scanline |
| Display.ToggledAt | include/chip8.hpp:310 | each scanline of the band is XORed with its own mask, and every other scanline is untouched |
| Display.DrawEffect | include/chip8.hpp:302-311 | DXYN with X and Y not F: VF = 1 iff a drawn row overlaps a lit pixel, other registers kept, surviving rows XORed in from VY |
| Display.DrawWithFlagAsY | include/chip8.hpp:303-310 | DXF1: VF is cleared before VY is read, so the test uses scanline 0 and the toggle lands on scanline VF |
| Display.ToggledTwice | include/chip8.hpp:310 | XORing the same masks twice restores the framebuffer |
| Display.DrawTwice | include/chip8.hpp:302-311 | with X and Y not F, drawing the same sprite twice in the same place restores the framebuffer |
| Display.BlankNoCollision | include/chip8.hpp:309 | nothing collides on a blank screen |
| Display.CollidesIff | include/chip8.hpp:309 | the collision flag holds iff some drawn row's mask overlaps a lit pixel of its scanline |
| Display.DrawTwiceCollides | include/chip8.hpp:302-311 | if a first draw hit nothing and some drawn row is not empty, drawing it again sets VF to 1 |
| Machine.WriteNext | include/chip8.hpp:395 | writing one more byte is one more single-byte store at the next address |
| Properties.FetchOrder | include/chip8.hpp:165-172 | fetch fails iff PC >= 4095; otherwise the byte at PC is the high byte, PC advances by 2 modulo 2^16 before execution, and the step executes the fetched word |
| Properties.IgnoredWords | include/chip8.hpp:180-181 | 00E0, FX0A and the 8, E and F sub-opcodes without a case change nothing beyond the fetch |
| Properties.UnsupportedWords | include/chip8.hpp:187-190 | any other 0NNN stops the machine with an unsupported-instruction status |
| Properties.Skips | include/chip8.hpp:208-221 | 3XNN, 4XNN, 5XY0, 9XY0, EX9E and EXA1 leave PC 4 past the skip if the condition holds and 2 past it otherwise; nothing else changes |
| Properties.KeyIsLowNibble | include/chip8.hpp:319 | the key tested is `keys[VX & 0xF]` |
| Properties.Jumps | include/chip8.hpp:195-206 | 1NNN, BNNN, 2NNN and 00EE set PC to NNN, NNN + V0, NNN and the popped address; a call pushes the address after it at slot SP & 0xF |
| Properties.CallThenReturn | include/chip8.hpp:184-206 | a call followed by 00EE returns to the instruction after the call, with SP restored |
| Properties.BumpThenDrop | include/chip8.hpp:184-205 | the 16-bit decrement of a return undoes the increment of a call |
| Properties.SelfCalls | include/chip8.hpp:203-206 | k steps of a self-calling subroutine push k return addresses and bump SP k times, with no error |
| Properties.CallsCompose | include/chip8.hpp:204 | one call followed by k more is k + 1 calls |
| Properties.PushOnce | include/chip8.hpp:204 | one push followed by k more fills k + 1 consecutive slots, wrapping round the sixteen |
| Properties.PushedAll | include/chip8.hpp:204 | sixteen or more pushes of one address fill every slot with it |
| Properties.NestedCalls | include/chip8.hpp:204 | from the sixteenth nested call on, there is still no error, every slot holds the return address, and the slot index is SP modulo 16 |
| Properties.LoadAndAddImmediate | include/chip8.hpp:224-230 | 6XNN loads NN and 7XNN adds NN modulo 256; VF (unless X is F) and the other registers are untouched |
| Properties.AddRegisters | include/chip8.hpp:252-256 | 8XY4: VF = 1 iff VX + VY > 255, and VX = the sum modulo 256 unless X is F, where the flag wins |
| Properties.SubtractRegisters | include/chip8.hpp:259-263 | 8XY5: VF = 1 iff VX >= VY, and VX = VX - VY modulo 256 unless X is F |
| Properties.SubtractReversed | include/chip8.hpp:266-270 | 8XY7: VF = 1 iff VY >= VX, and VX = VY - VX modulo 256 unless X is F |
| Properties.BitwiseRegisters | include/chip8.hpp:235-249 | 8XY0..8XY3 store VY, VX \| VY, VX & VY and VX ^ VY into VX, and leave VF alone |
| Properties.XorTwiceRestores | include/chip8.hpp:247-249 | 8XY3 applied twice, with X different from Y, restores the state |
| Properties.XorUndo | include/chip8.hpp:248 | on the registers, VX ^= VY twice, with X different from Y, changes nothing |
| Properties.ShiftRegisters | include/chip8.hpp:276-286 | 8XY6/8XYE shift VY, not VX: VF gets the bit shifted out and VX the shifted VY, with the aliasing cases when X, Y or both are F (8FF6 leaves VF 0, 8FFE leaves VF twice its old top bit) |
| Properties.RandomRegister | include/chip8.hpp:295-296 | CXNN stores the next generator byte masked by NN and advances the generator by one step |
| Properties.FirstRandom | include/chip8.hpp:53-57 | from the seed, CXNN stores 0xC2 & NN |
| Properties.DrawInstruction | include/chip8.hpp:302-311 | DXYN with X and Y not F: VF is the collision flag, the clipped rows are XORed in from VY, the redraw flag is raised, and nothing else changes |
| Properties.DrawTwiceRestores | include/chip8.hpp:302-311 | executing the same DXYN twice restores the framebuffer |
| Properties.RedrawOnlyByDraw | include/chip8.hpp:302-311 | an instruction leaves the redraw flag set iff it was set or the instruction is DXYN |
| Properties.StoreDigits | include/chip8.hpp:366-370 | FX33 stores the decimal digits of VX at I, I+1 and I+2 modulo 4096, and nothing else changes |
| Properties.BcdBytesDigits | include/chip8.hpp:367-369 | the three stores hold the digits, and every other byte is kept |
| Properties.DistinctAddresses | include/chip8.hpp:374 | the addresses (I + i) & 0xFFF of distinct i below 4096 are distinct |
| Properties.StoreRegsStep | include/chip8.hpp:372-375 | FX55 keeps running, changes only memory, puts Vi at (I + i) mod 4096 for every i <= X and leaves every other byte |
| Properties.LoadRegsStep | include/chip8.hpp:378-382 | FX65 keeps running, changes only the registers (I is not moved), loads Vi from (I + i) mod 4096 for every i <= X and keeps Vi for i > X |
| Properties.StoreRegsContents | include/chip8.hpp:372-375 | FX55 puts Vi at (I + i) & 0xFFF for i <= X and leaves every other byte |
| Properties.LoadRegsContents | include/chip8.hpp:378-382 | FX65 loads Vi from (I + i) & 0xFFF for i <= X and leaves the other registers |
| Properties.StoreThenLoad | include/chip8.hpp:372-382 | FX55 then FX65 with the same X changes nothing more than FX55 did, and I is not moved |
| Properties.SetIndex | include/chip8.hpp:291-292 | ANNN sets I to NNN, keeps running, and changes nothing else |
| Properties.IndexAndTimers | include/chip8.hpp:333-355 | FX1E adds VX to I modulo 2^16 with no flag; FX29 sets I to 5 * VX; FX07, FX15 and FX18 copy between VX and the timers |
| Properties.GlyphAddressed | include/chip8.hpp:353-354 | with the font in place, FX29 on a digit below 16 points I at that digit's five glyph rows |
| Properties.TickEffect | include/chip8.hpp:105-113 | each positive timer drops by one and a zero timer stays zero; beep iff the sound timer goes from 1 to 0; nothing else changes |
| Properties.TimersRunDown | include/chip8.hpp:105-113 | after k ticks, a timer that started at t reads max(t - k, 0), and nothing else has changed |
| Properties.ResetEffect | include/chip8.hpp:60-101 | the font is in bytes 0..79, the rest of memory is kept, PC is 0x200, SP and the timers are 0, everything else is kept; Reset is idempotent |
| Properties.PowerOnState | include/chip8.hpp:52-103 | a new interpreter has PC 0x200, the font at 0..79, zeroes elsewhere, a blank screen and the seeded generator |
| Properties.LoadUnreadable | include/chip8.hpp:392-394 | an unreadable file only resets the machine, and the load succeeds |
| Properties.LoadBytes | include/chip8.hpp:391-400 | success iff the file has at most 3582 bytes; bytes from 0x200 then 0xFF; on failure 0x200..0xFFF hold the first 3584 image bytes; only memory differs from Reset |

## Left out

- Memory aliasing. In the source, `memory_` is a union with the font table,
  stack pointer, stack, registers, keypad, framebuffer, timers, PC, I and
  opcode (include/chip8.hpp:39-50). On a usual 64-bit ABI that struct covers
  addresses 0x000-0x19F: font 0x00-0x4F, stack pointer 0x50, stack
  0x52-0x71, V 0x72-0x81, keypad 0x82-0x91, framebuffer 0x98-0x197, then the
  timers, PC, I and opcode at 0x198-0x19F. They are separate fields here,
  with the font kept in memory bytes 0..79 so that FX29 still points at it.
  As a result, FX33 and FX55 writing below 0x1A0 do not corrupt the stack,
  registers, screen, timers, PC or I in the model, as they would in the
  source; and DXYN and FX65 reading below 0x1A0 read memory bytes here
  rather than live interpreter state. `LoadProgram` is not affected: it
  writes only from 0x200 upwards.
- File input. `LoadProgram` takes a `File` value (`Unreadable` or `Bytes`)
  instead of a file name. Opening and reading the stream is I/O. A failed load
  returns false instead of throwing.
- Console output and process exit. The "BEEP!!" line becomes the beep result
  of `DecrementTimers`. The `exit(-1)` of an unsupported 0NNN word becomes the
  status `Unsupported`.
- Undefined and unspecified behaviour:
  - A sprite shift by VX >= 64 yields an empty mask (`Display.SpriteMask`).
  - A fetch at PC >= 4095, which BNNN can reach, returns `FetchOutOfBounds`
    and leaves the state unchanged.
  - The fields `Reset` never sets (V, I, keypad, stack, memory beyond the
    font, opcode) start at zero in the constructor.
- 00E0 is a no-op: the `break` precedes the loop that would clear the screen
  (include/chip8.hpp:181-182). The model follows the code. FX0A is a no-op too
  (include/chip8.hpp:337-338).
- The keypad is state that instructions only read. The source has no method
  that sets it.
- `TestEvaluateInstruction` (include/chip8.hpp:115-162) is a trace-checking
  harness that prints and exits. It is not part of this model, and neither is
  src/test.cpp.
- include/canvas.hpp (OpenGL texture and window calls) and src/main.cpp (the
  GLUT loop) are not part of this model. The host's pixel test is
  `Display.Lit`.
- The accessors `CanRedraw`, `graphics`, `memory`, `index_register`,
  `program_counter` and `delay_timer` are plain reads of the fields (functions
  of `Chip8`). `stack_pointer` returns the low byte of the 16-bit SP. They have
  no rows of their own: the redraw protocol is stated by
  `Properties.RedrawOnlyByDraw` and `Chip8.ResetRedrawFlag`.
- Properties.DrawInstruction: stated only when neither X nor Y is F. With Y
  equal to F, the scanline toggled can differ from the one tested; the one-row
  case is `Display.DrawWithFlagAsY`.
- Properties.DrawTwiceRestores: stated only when neither X nor Y is F, because
  otherwise the first draw changes the coordinates of the second.
- Display.DrawTwiceCollides: requires that the first draw hit nothing. A
  second draw collides exactly when some mask has a bit that was not lit
  before the first draw, so "always collides the second time" holds only
  under that condition.

/** The CHIP-8 machine as a value: its state and what each operation of the
    interpreter (include/chip8.hpp) does to it. The imperative interpreter in
    module Interpreter is proved to compute exactly these functions.

    The source overlays fonts, stack, registers, keypad, framebuffer and timers
    on the low bytes of its 4096-byte memory (include/chip8.hpp:39-50). Here they
    are separate components beside a plain 4096-byte memory whose first 80 bytes
    hold the font, so FX33 and FX55 writes to low addresses do not clobber the
    registers or the stack as they would in the source. */
module Machine {
  import opened Types
  import D = Decode
  import A = Alu
  import G = Display
  import F = Fonts
  import L = Lcg

  const PROGRAM_START: u16 := 0x200
  const FONT_BYTES := 80

  datatype State = State(
    mem: seq<bv8>,     // memory_
    v: seq<bv8>,       // V_, the registers V0..VF
    stack: seq<u16>,   // stack_
    sp: u16,           // stack_pointer_, a 16-bit counter; only its low nibble picks a slot
    pc: u16,           // program_counter_
    index: u16,        // index_, the register I
    delay: u8,         // delay_timer_
    sound: u8,         // sound_timer_
    gfx: seq<bv64>,    // graphics_, one word per scanline
    keys: seq<bv8>,    // keypress_, read by EX9E and EXA1 only
    redraw: bool,      // redraw_
    lcg: bv32,         // lcg_x
    opcode: u16)      // opcode_, the word last fetched

  predicate Wf(s: State)
  {
    |s.mem| == MEM_SIZE && |s.v| == 16 && |s.stack| == 16 && |s.gfx| == G.SCANLINES && |s.keys| == 16
  }

  /** The outcome of one step: it ran, or it stopped on a 0NNN word other than
      00E0 and 00EE (the source prints a message and exits), or the program
      counter was too close to the end of memory to fetch a word (undefined
      behaviour in the source). */
  datatype Status = Running | Unsupported(word: u16) | FetchOutOfBounds

  datatype Result = Result(status: Status, state: State)

  /** The memory address of byte i of the block at I: the source masks the sum
      with 0xFFF, which is the sum modulo 4096. */
  function Addr(index: u16, i: nat): (a: nat)
    ensures a < MEM_SIZE
  {
    (index + i) % MEM_SIZE
  }

  // ---------------------------------------------------------------------------
  // Machine arithmetic. The 16-bit registers wrap modulo 2^16 like the
  // source's `uint16_t` fields.

  /** PC past one instruction word. */
  function Advance(pc: u16): u16 { (pc + 2) % U16 }

  /** A word can be fetched at PC: both of its bytes lie in memory. */
  predicate CanFetch(pc: u16) { pc + 1 < MEM_SIZE }

  /** The stack slot SP points at: its low nibble. */
  function Slot(sp: u16): (k: nat)
    ensures k < 16
  {
    sp % 16
  }

  function Bump(sp: u16): u16 { (sp + 1) % U16 }

  function Drop(sp: u16): u16 { (sp - 1) % U16 }

  /** BNNN: NNN + V0. */
  function Offset(nnn: u16, v0: bv8): u16 { (nnn + v0 as int) % U16 }

  /** FX1E: I + VX, wrapping at 2^16. */
  function AddToIndex(index: u16, vx: bv8): u16 { (index + vx as int) % U16 }

  /** FX29: the address of the glyph for VX, five bytes per glyph from 0. */
  function GlyphAddress(vx: bv8): u16 { vx as int * 5 }

  /** The key EX9E and EXA1 test: the low nibble of VX. */
  function KeyOf(vx: bv8): (k: nat)
    ensures k < 16
  {
    (vx & 0xF) as int
  }

  // ---------------------------------------------------------------------------
  // Control flow

  /** Skips add 2 to PC when their condition holds; the advance past the
      instruction itself happened at fetch. */
  function SkipIf(s: State, cond: bool): (t: State)
    requires Wf(s)
    ensures Wf(t)
  {
    if cond then s.(pc := Advance(s.pc)) else s
  }

  /** 2NNN: push the return address into slot SP & 0xF, bump SP, jump. */
  function Call(s: State, target: u16): (t: State)
    requires Wf(s)
    ensures Wf(t)
  {
    s.(stack := s.stack[Slot(s.sp) := s.pc], sp := Bump(s.sp), pc := target)
  }

  /** 00EE: drop SP, then jump to the address in slot SP & 0xF. */
  function Return(s: State): (t: State)
    requires Wf(s)
    ensures Wf(t)
  {
    var sp := Drop(s.sp);
    s.(sp := sp, pc := s.stack[Slot(sp)])
  }

  // ---------------------------------------------------------------------------
  // Registers. Every write goes through the register sequence in the order the
  // source writes, so the results are right when X or Y is F.

  function SetReg(s: State, x: nat, b: bv8): (t: State)
    requires Wf(s) && x < 16
    ensures Wf(t)
  {
    s.(v := s.v[x := b])
  }

  /** 8XY4, 8XY5, 8XY7: the result goes to VX first, the flag to VF after it. */
  function ResultThenFlag(s: State, x: nat, r: A.Flagged): (t: State)
    requires Wf(s) && x < 16
    ensures Wf(t)
  {
    SetReg(SetReg(s, x, r.value), FLAG, r.flag)
  }

  /** 8XY6 and 8XYE: the flag is written first and VY is read again after it. */
  function ShiftInto(s: State, x: nat, y: nat, left: bool): (t: State)
    requires Wf(s) && x < 16 && y < 16
    ensures Wf(t)
  {
    var s1 := SetReg(s, FLAG, A.Shift(left, s.v[y]).flag);
    SetReg(s1, x, A.Shift(left, s1.v[y]).value)
  }

  /** Class 8: register to register operations, selected by N. Sub-opcodes
      without a case do nothing. */
  function Arith(s: State, x: nat, y: nat, n: nat): (t: State)
    requires Wf(s) && x < 16 && y < 16
    ensures Wf(t)
  {
    var vx, vy := s.v[x], s.v[y];
    if n <= 0x3 then SetReg(s, x, A.Bitwise(n, vx, vy))
    else if n == 0x4 || n == 0x5 || n == 0x7 then ResultThenFlag(s, x, A.Carrying(n, vx, vy))
    else if n == 0x6 || n == 0xE then ShiftInto(s, x, y, n == 0xE)
    else s
  }

  /** CXNN: the next byte of the generator, masked by NN. */
  function Rand(s: State, x: nat, nn: bv8): (t: State)
    requires Wf(s) && x < 16
    ensures Wf(t)
  {
    var next := L.Next(s.lcg);
    SetReg(s, x, A.And(L.Output(next), nn)).(lcg := next)
  }

  /** DXYN: the sprite loop of module Display, plus the redraw flag. */
  function DrawSprite(s: State, x: nat, y: nat, n: nat): (t: State)
    requires Wf(s) && x < 16 && y < 16
    ensures Wf(t)
  {
    var c := G.Draw(G.Canvas(s.v, s.gfx), s.mem, s.index, x, y, n);
    s.(v := c.v, gfx := c.gfx, redraw := true)
  }

  /** Class E: key skips on key VX & 0xF; other sub-opcodes do nothing. */
  function KeySkip(s: State, x: nat, nn: bv8): (t: State)
    requires Wf(s) && x < 16
    ensures Wf(t)
  {
    var key := s.keys[KeyOf(s.v[x])];
    if nn == 0x9E then SkipIf(s, key > 0)
    else if nn == 0xA1 then SkipIf(s, key == 0)
    else s
  }

  // ---------------------------------------------------------------------------
  // Memory

  /** FX33: the three decimal digits of VX at I, I+1 and I+2 (each masked). */
  function StoreBcd(s: State, x: nat): (t: State)
    requires Wf(s) && x < 16
    ensures Wf(t)
  {
    s.(mem := BcdBytes(s.mem, s.index, s.v[x]))
  }

  function BcdBytes(mem: seq<bv8>, index: u16, vx: bv8): (m: seq<bv8>)
    requires |mem| == MEM_SIZE
    ensures |m| == MEM_SIZE
  {
    var d := A.Bcd(vx);
    mem[Addr(index, 0) := d.hundreds][Addr(index, 1) := d.tens][Addr(index, 2) := d.ones]
  }

  /** Memory after the FX55 loop has stored V0..V(k-1). */
  function StoreRegs(mem: seq<bv8>, v: seq<bv8>, index: u16, k: nat): (m: seq<bv8>)
    requires |mem| == MEM_SIZE && |v| == 16 && k <= 16
    ensures |m| == MEM_SIZE
  {
    if k == 0 then mem else StoreRegs(mem, v, index, k - 1)[Addr(index, k - 1) := v[k - 1]]
  }

  /** Registers after the FX65 loop has loaded V0..V(k-1). */
  function LoadRegs(v: seq<bv8>, mem: seq<bv8>, index: u16, k: nat): (r: seq<bv8>)
    requires |mem| == MEM_SIZE && |v| == 16 && k <= 16
    ensures |r| == 16
  {
    if k == 0 then v else LoadRegs(v, mem, index, k - 1)[k - 1 := mem[Addr(index, k - 1)]]
  }

  /** Class F, selected by NN; sub-opcodes without a case (FX0A among them:
      the key wait is not implemented) do nothing. */
  function Misc(s: State, x: nat, nn: bv8): (t: State)
    requires Wf(s) && x < 16
    ensures Wf(t)
  {
    var vx := s.v[x];
    if nn == 0x07 then SetReg(s, x, s.delay as bv8)
    else if nn == 0x15 then s.(delay := vx as int)
    else if nn == 0x18 then s.(sound := vx as int)
    else if nn == 0x1E then s.(index := AddToIndex(s.index, vx))
    else if nn == 0x29 then s.(index := GlyphAddress(vx))
    else if nn == 0x33 then StoreBcd(s, x)
    else if nn == 0x55 then s.(mem := StoreRegs(s.mem, s.v, s.index, x + 1))
    else if nn == 0x65 then s.(v := LoadRegs(s.v, s.mem, s.index, x + 1))
    else s
  }

  // ---------------------------------------------------------------------------
  // The step

  /** Execute word w on a state whose PC already points past it. */
  function Execute(s: State, w: u16): (r: Result)
    requires Wf(s)
    ensures Wf(r.state)
  {
    var c := D.Class(w);
    if c == 0x0 then
      var nn := D.NN(w);
      if nn == 0xE0 then Result(Running, s)  // a `break` precedes the clearing loop
      else if nn == 0xEE then Result(Running, Return(s))
      else Result(Unsupported(w), s)
    else if IsControl(c) then Result(Running, Control(s, w))
    else Result(Running, Compute(s, w))
  }

  /** The classes that jump, call or skip. */
  predicate IsControl(c: nat)
  {
    c == 0x1 || c == 0xB || c == 0x2 || c == 0x3 || c == 0x4 || c == 0x5 || c == 0x9
  }

  /** Classes 1, B, 2, 3, 4, 5 and 9: the program counter moves. */
  function Control(s: State, w: u16): (t: State)
    requires Wf(s)
    ensures Wf(t)
  {
    var c, x, y, nn, nnn := D.Class(w), D.X(w), D.Y(w), D.NN(w), D.NNN(w);
    if c == 0x1 then s.(pc := nnn)
    else if c == 0xB then s.(pc := Offset(nnn, s.v[0]))
    else if c == 0x2 then Call(s, nnn)
    else if c == 0x3 then SkipIf(s, s.v[x] == nn)
    else if c == 0x4 then SkipIf(s, s.v[x] != nn)
    else if c == 0x5 then SkipIf(s, s.v[x] == s.v[y])
    else SkipIf(s, s.v[x] != s.v[y])
  }

  /** Classes 6, 7, 8, A, C, D, E and F: registers, memory and the screen. */
  function Compute(s: State, w: u16): (t: State)
    requires Wf(s)
    ensures Wf(t)
  {
    var c, x, y, n, nn, nnn := D.Class(w), D.X(w), D.Y(w), D.N(w), D.NN(w), D.NNN(w);
    if c == 0x6 then SetReg(s, x, nn)
    else if c == 0x7 then SetReg(s, x, A.AddNoCarry(s.v[x], nn))
    else if c == 0x8 then Arith(s, x, y, n)
    else if c == 0xA then s.(index := nnn)
    else if c == 0xC then Rand(s, x, nn)
    else if c == 0xD then DrawSprite(s, x, y, n)
    else if c == 0xE then KeySkip(s, x, nn)
    else Misc(s, x, nn)
  }

  /** Fetch the word at PC (high byte first), advance PC by 2, execute. */
  function Step(s: State): (r: Result)
    requires Wf(s)
    ensures Wf(r.state)
  {
    if !CanFetch(s.pc) then Result(FetchOutOfBounds, s)
    else
      var w := D.Word(s.mem[s.pc], s.mem[s.pc + 1]);
      Execute(s.(pc := Advance(s.pc), opcode := w), w)
  }

  /** k steps, stopping at the first that does not report Running. */
  function Run(s: State, k: nat): (r: Result)
    requires Wf(s)
    ensures Wf(r.state)
    decreases k
  {
    if k == 0 then Result(Running, s)
    else
      var r1 := Step(s);
      if r1.status != Running then r1 else Run(r1.state, k - 1)
  }

  // ---------------------------------------------------------------------------
  // The other operations

  /** DecrementTimers: the new state, and whether the sound timer just ran out
      (the source prints a beep then). */
  datatype Ticked = Ticked(state: State, beep: bool)

  /** A timer one tick later: it counts down to 0 and stays there. */
  function CountDown(t: u8): u8
  {
    if t > 0 then t - 1 else t
  }

  /** The sound timer runs out on this tick: it was running and reaches 0. */
  predicate RunsOut(t: u8)
  {
    t > 0 && CountDown(t) == 0
  }

  function Tick(s: State): (r: Ticked)
  {
    Ticked(s.(delay := CountDown(s.delay), sound := CountDown(s.sound)), RunsOut(s.sound))
  }

  /** Reset: PC to 0x200, SP and both timers to 0, the font into memory[0..80).
      Registers, I, the rest of memory, the framebuffer, the redraw flag and
      the generator are left as they are. */
  function Reset(s: State): (t: State)
    requires Wf(s)
    ensures Wf(t)
  {
    s.(pc := PROGRAM_START, sp := 0, delay := 0, sound := 0, mem := F.FONT + s.mem[FONT_BYTES..])
  }

  /** Memory with `data` written from address `start` on. */
  function Write(mem: seq<bv8>, start: nat, data: seq<bv8>): (m: seq<bv8>)
    requires start + |data| <= |mem|
    ensures |m| == |mem|
  {
    mem[..start] + data + mem[start + |data|..]
  }

  /** Writing one more byte extends the written block by one address. */
  lemma WriteNext(mem: seq<bv8>, start: nat, data: seq<bv8>, i: nat)
    requires i < |data| && start + i < |mem|
    ensures Write(mem, start, data[..i + 1]) == Write(mem, start, data[..i])[start + i := data[i]]
  {
  }

  /** The program file as the loading loop sees it: a stream that could not
      be opened is not good from the start, so the loop stores nothing. */
  datatype File = Unreadable | Bytes(data: seq<bv8>)

  /** The bytes the loading loop stores: the file's bytes, then the
      end-of-file marker -1 that the final read returns, truncated to a byte. */
  function Image(file: File): (image: seq<bv8>)
    ensures file.Bytes? ==> |image| == |file.data| + 1 && image[|file.data|] == 0xFF
    ensures file.Bytes? ==> forall i :: 0 <= i < |file.data| ==> image[i] == file.data[i]
    ensures file.Unreadable? ==> image == []
  {
    if file.Unreadable? then [] else file.data + [0xFF]
  }

  /** Room for the loaded image: the loop throws once it has stored a byte at
      the last address of memory. */
  const LOAD_ROOM := MEM_SIZE - PROGRAM_START

  /** LoadProgram on the file: Reset, then the image byte by byte from 0x200;
      `ok` is false when the loop threw, and the bytes stored up to that point
      stay in memory. */
  datatype Loaded = Loaded(ok: bool, state: State)

  function Load(s: State, file: File): (r: Loaded)
    requires Wf(s)
    ensures Wf(r.state)
  {
    var t := Reset(s);
    var image := Image(file);
    if |image| < LOAD_ROOM then Loaded(true, t.(mem := Write(t.mem, PROGRAM_START, image)))
    else Loaded(false, t.(mem := Write(t.mem, PROGRAM_START, image[..LOAD_ROOM])))
  }

  /** The state of a freshly constructed interpreter: fields the source leaves
      uninitialised are zero, the framebuffer is blank, the generator holds its
      seed, and then Reset runs. */
  function PowerOn(): (s: State)
    ensures Wf(s)
  {
    Reset(State(seq(MEM_SIZE, _ => 0), seq(16, _ => 0), seq(16, _ => 0), 0, 0, 0, 0, 0,
                seq(G.SCANLINES, _ => 0), seq(16, _ => 0), false, L.SEED, 0))
  }
}

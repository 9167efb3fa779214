/** The interpreter object of include/chip8.hpp: the state lives in fixed-size
    arrays and fields that the methods update in place, as in the source. Each
    method is proved to compute the matching function of module Machine on the
    abstract state Abs(), so every property proved about those functions holds
    of the object too. */
module Interpreter {
  import opened Types
  import D = Decode
  import A = Alu
  import G = Display
  import F = Fonts
  import L = Lcg
  import M = Machine

  class Chip8 {
    const mem: array<bv8>     // memory_
    const V: array<bv8>       // V_
    const stack: array<u16>   // stack_
    const keys: array<bv8>    // keypress_
    const gfx: array<bv64>    // graphics_
    var sp: u16               // stack_pointer_
    var pc: u16               // program_counter_
    var index: u16            // index_
    var delay: u8             // delay_timer_
    var sound: u8             // sound_timer_
    var redraw: bool          // redraw_
    var lcg: bv32             // lcg_x
    var opcode: u16           // opcode_

    /** The arrays have the source's sizes and are distinct. */
    ghost predicate Valid()
    {
      mem.Length == MEM_SIZE && V.Length == 16 && stack.Length == 16 && keys.Length == 16
      && gfx.Length == G.SCANLINES && mem != V && mem != keys && V != keys
      && stack as object != mem && stack as object != V && stack as object != keys
    }

    /** The machine state the object stands for. */
    ghost function Abs(): (s: M.State)
      reads this, mem, V, stack, keys, gfx
      ensures Valid() ==> M.Wf(s)
    {
      M.State(mem[..], V[..], stack[..], sp, pc, index, delay, sound, gfx[..], keys[..], redraw, lcg, opcode)
    }

    /** The constructor: fields the source leaves uninitialised start at zero,
        and Reset runs. */
    constructor ()
      ensures Valid() && Abs() == M.PowerOn()
      ensures fresh(mem) && fresh(V) && fresh(stack) && fresh(keys) && fresh(gfx)
    {
      mem := new bv8[MEM_SIZE](_ => 0);
      V := new bv8[16](_ => 0);
      stack := new u16[16](_ => 0);
      keys := new bv8[16](_ => 0);
      gfx := new bv64[G.SCANLINES](_ => 0);
      sp, pc, index, opcode := 0, 0, 0, 0;
      delay, sound := 0, 0;
      redraw := false;
      lcg := L.SEED;
      new;
      Reset();
    }

    /** Reset: PC to 0x200, SP and the timers to 0, the font copied into the
        first 80 bytes of memory. */
    method Reset()
      requires Valid()
      modifies this, mem
      ensures Abs() == M.Reset(old(Abs()))
    {
      pc := M.PROGRAM_START;
      sp, delay, sound := 0, 0, 0;
      CopyFont();
    }

    /** The copying loop of Reset. */
    method CopyFont()
      requires Valid()
      modifies mem
      ensures mem[..] == F.FONT + old(mem[..])[M.FONT_BYTES..]
    {
      for i := 0 to M.FONT_BYTES
        invariant mem[..i] == F.FONT[..i]
        invariant mem[i..] == old(mem[..])[i..]
      {
        mem[i] := F.FONT[i];
      }
    }

    /** The timers count down to 0 and stay there; `beep` reports that the
        sound timer has just run out. */
    method DecrementTimers() returns (beep: bool)
      requires Valid()
      modifies this
      ensures M.Ticked(Abs(), beep) == M.Tick(old(Abs()))
    {
      if delay > 0 {
        delay := M.CountDown(delay);
      }
      beep := false;
      if sound > 0 {
        sound := M.CountDown(sound);
        beep := sound == 0;
      }
    }

    /** The next byte of the linear congruential generator. */
    method Random() returns (b: bv8)
      modifies this`lcg
      ensures lcg == L.Next(old(lcg)) && b == L.Output(lcg)
    {
      lcg := lcg * L.MULTIPLIER + L.INCREMENT;
      b := ((lcg >> 24) & 0xFF) as bv8;
    }

    /** Fetch, decode and execute one instruction. */
    method EvaluateInstruction() returns (status: M.Status)
      requires Valid()
      modifies this, mem, V, stack, gfx
      ensures M.Result(status, Abs()) == M.Step(old(Abs()))
    {
      if !M.CanFetch(pc) {
        return M.FetchOutOfBounds;
      }
      opcode := D.Word(mem[pc], mem[pc + 1]);
      pc := M.Advance(pc);
      status := Execute(opcode);
    }

    /** Execute word w, PC already pointing past it. */
    method Execute(w: u16) returns (status: M.Status)
      requires Valid()
      modifies this, mem, V, stack, gfx
      ensures M.Result(status, Abs()) == M.Execute(old(Abs()), w)
    {
      var c := D.Class(w);
      status := M.Running;
      if c == 0x0 {
        var nn := D.NN(w);
        if nn == 0xE0 {
          // the clearing loop sits after the `break` and never runs
        } else if nn == 0xEE {
          sp := M.Drop(sp);
          pc := stack[M.Slot(sp)];
        } else {
          status := M.Unsupported(w);
        }
      } else if M.IsControl(c) {
        Control(w);
      } else {
        Compute(w);
      }
    }

    /** Classes 1, B, 2, 3, 4, 5 and 9. */
    method Control(w: u16)
      requires Valid() && M.IsControl(D.Class(w))
      modifies this, stack
      ensures Abs() == M.Control(old(Abs()), w)
    {
      var c, x, y, nn, nnn := D.Class(w), D.X(w), D.Y(w), D.NN(w), D.NNN(w);
      if c == 0x1 {
        pc := nnn;
      } else if c == 0xB {
        pc := M.Offset(nnn, V[0]);
      } else if c == 0x2 {
        stack[M.Slot(sp)] := pc;
        sp := M.Bump(sp);
        pc := nnn;
      } else if c == 0x3 {
        if V[x] == nn { pc := M.Advance(pc); }
      } else if c == 0x4 {
        if V[x] != nn { pc := M.Advance(pc); }
      } else if c == 0x5 {
        if V[x] == V[y] { pc := M.Advance(pc); }
      } else if c == 0x9 {
        if V[x] != V[y] { pc := M.Advance(pc); }
      }
    }

    /** Classes 6, 7, 8, A, C, D, E and F. */
    method Compute(w: u16)
      requires Valid() && D.Class(w) != 0 && !M.IsControl(D.Class(w))
      modifies this, mem, V, gfx
      ensures Abs() == M.Compute(old(Abs()), w)
    {
      var c, x, y, n, nn, nnn := D.Class(w), D.X(w), D.Y(w), D.N(w), D.NN(w), D.NNN(w);
      if c == 0x6 {
        V[x] := nn;
      } else if c == 0x7 {
        V[x] := A.AddNoCarry(V[x], nn);
      } else if c == 0x8 {
        Arith(x, y, n);
      } else if c == 0xA {
        index := nnn;
      } else if c == 0xC {
        var b := Random();
        V[x] := A.And(b, nn);
      } else if c == 0xD {
        DrawSprite(x, y, n);
      } else if c == 0xE {
        var key := keys[M.KeyOf(V[x])];
        if nn == 0x9E {
          if key > 0 { pc := M.Advance(pc); }
        } else if nn == 0xA1 {
          if key == 0 { pc := M.Advance(pc); }
        }
      } else {
        Misc(x, nn);
      }
    }

    /** Class 8, register to register. */
    method Arith(x: nat, y: nat, n: nat)
      requires Valid() && x < 16 && y < 16
      modifies V
      ensures Abs() == M.Arith(old(Abs()), x, y, n)
    {
      if n <= 0x3 {
        V[x] := A.Bitwise(n, V[x], V[y]);
      } else if n == 0x4 || n == 0x5 || n == 0x7 {
        // the result goes to VX before the flag goes to VF
        var r := A.Carrying(n, V[x], V[y]);
        V[x] := r.value;
        V[FLAG] := r.flag;
      } else if n == 0x6 || n == 0xE {
        // the flag goes to VF before VY is read again for the result
        V[FLAG] := A.Shift(n == 0xE, V[y]).flag;
        V[x] := A.Shift(n == 0xE, V[y]).value;
      }
    }

    /** DXYN: clear VF, raise the redraw flag, then XOR the sprite rows in. */
    method DrawSprite(x: nat, y: nat, n: nat)
      requires Valid() && x < 16 && y < 16 && n < 16
      modifies this`redraw, V, gfx
      ensures Abs() == M.DrawSprite(old(Abs()), x, y, n)
    {
      V[FLAG] := 0;
      redraw := true;
      DrawRows(x, y, n);
    }

    /** The row loop of DXYN, VF already cleared. */
    method DrawRows(x: nat, y: nat, n: nat)
      requires Valid() && x < 16 && y < 16 && n < 16 && V[FLAG] <= 1
      modifies V, gfx
      ensures G.Canvas(V[..], gfx[..]) == G.DrawRows(G.Canvas(old(V[..]), old(gfx[..])), mem[..], index, x, y, 0, n)
    {
      ghost var goal := G.DrawRows(G.Canvas(V[..], gfx[..]), mem[..], index, x, y, 0, n);
      var row: nat := 0;
      while row < n
        invariant row <= n && V[FLAG] <= 1
        invariant G.DrawRows(G.Canvas(V[..], gfx[..]), mem[..], index, x, y, row, n) == goal
      {
        if index + row >= MEM_SIZE {
          break;
        }
        var p := G.SpriteMask(mem[index + row], V[x]);
        var line := V[y] as int + row;
        if line >= G.SCANLINES {
          break;
        }
        DrawRow(x, y, row, p, line);
        row := row + 1;
      }
    }

    /** One row of DXYN that passed both clipping tests. */
    method DrawRow(x: nat, y: nat, row: nat, p: bv64, line: nat)
      requires Valid() && x < 16 && y < 16 && row < 15 && V[FLAG] <= 1
      requires index + row < MEM_SIZE && p == G.SpriteMask(mem[index + row], V[x])
      requires line == V[y] as int + row && line < G.SCANLINES
      modifies V, gfx
      ensures V[FLAG] <= 1
      ensures G.Canvas(V[..], gfx[..]) == G.DrawRow(G.Canvas(old(V[..]), old(gfx[..])), mem[..], index, x, y, row)
    {
      G.DrawRowInside(G.Canvas(V[..], gfx[..]), mem[..], index, x, y, row);
      XorRow(y, row, line, p);
    }

    /** VF records a collision on the scanline, then the mask is XORed into
        the scanline VY + row, VY being read again. */
    method XorRow(y: nat, row: nat, line: nat, p: bv64)
      requires Valid() && y < 16 && line < G.SCANLINES
      requires G.Collide(G.Canvas(V[..], gfx[..]), line, p).v[y] as int + row < G.SCANLINES
      modifies V, gfx
      ensures var c1 := G.Collide(G.Canvas(old(V[..]), old(gfx[..])), line, p);
              G.Canvas(V[..], gfx[..]) == G.Toggle(c1, c1.v[y] as int + row, p)
    {
      V[FLAG] := G.Raise(V[FLAG], G.Overlaps(gfx[line], p));
      var again := V[y] as int + row;
      gfx[again] := G.Xor(gfx[again], p);
    }

    /** Class F, selected by NN. */
    method Misc(x: nat, nn: bv8)
      requires Valid() && x < 16
      modifies this`delay, this`sound, this`index, mem, V
      ensures Abs() == M.Misc(old(Abs()), x, nn)
    {
      if nn == 0x07 {
        V[x] := delay as bv8;
      } else if nn == 0x15 {
        delay := V[x] as int;
      } else if nn == 0x18 {
        sound := V[x] as int;
      } else if nn == 0x1E {
        index := M.AddToIndex(index, V[x]);
      } else if nn == 0x29 {
        index := M.GlyphAddress(V[x]);
      } else if nn == 0x33 {
        StoreBcd(x);
      } else if nn == 0x55 {
        StoreRegisters(x);
      } else if nn == 0x65 {
        LoadRegisters(x);
      }
    }

    /** FX33: the digits of VX at I, I+1 and I+2. */
    method StoreBcd(x: nat)
      requires Valid() && x < 16
      modifies mem
      ensures mem[..] == M.BcdBytes(old(mem[..]), index, V[x])
    {
      var d := A.Bcd(V[x]);
      mem[M.Addr(index, 0)] := d.hundreds;
      mem[M.Addr(index, 1)] := d.tens;
      mem[M.Addr(index, 2)] := d.ones;
    }

    /** FX55: V0..VX stored from I on. */
    method StoreRegisters(x: nat)
      requires Valid() && x < 16
      modifies mem
      ensures mem[..] == M.StoreRegs(old(mem[..]), V[..], index, x + 1)
    {
      for i := 0 to x + 1
        invariant mem[..] == M.StoreRegs(old(mem[..]), V[..], index, i)
      {
        mem[M.Addr(index, i)] := V[i];
      }
    }

    /** FX65: V0..VX loaded from I on. */
    method LoadRegisters(x: nat)
      requires Valid() && x < 16
      modifies V
      ensures V[..] == M.LoadRegs(old(V[..]), mem[..], index, x + 1)
    {
      for i := 0 to x + 1
        invariant V[..] == M.LoadRegs(old(V[..]), mem[..], index, i)
      {
        V[i] := mem[M.Addr(index, i)];
      }
    }

    /** LoadProgram: Reset, then store the file byte by byte from 0x200 on;
        `ok` is false where the source throws, once a byte has been stored at
        the last address of memory. */
    method LoadProgram(file: M.File) returns (ok: bool)
      requires Valid()
      modifies this, mem
      ensures M.Loaded(ok, Abs()) == M.Load(old(Abs()), file)
    {
      Reset();
      ok := StoreImage(M.Image(file));
    }

    /** The loading loop, from PC (0x200 after Reset) on. */
    method StoreImage(image: seq<bv8>) returns (ok: bool)
      requires Valid() && pc == M.PROGRAM_START
      modifies mem
      ensures ok <==> |image| < M.LOAD_ROOM
      ensures mem[..] == M.Write(old(mem[..]), M.PROGRAM_START, if ok then image else image[..M.LOAD_ROOM])
    {
      var pos := pc;
      var i := 0;
      while i < |image|
        invariant i <= |image| && i < M.LOAD_ROOM && pos == M.PROGRAM_START + i
        invariant mem[..] == M.Write(old(mem[..]), M.PROGRAM_START, image[..i])
      {
        M.WriteNext(old(mem[..]), M.PROGRAM_START, image, i);
        mem[pos] := image[i];
        pos := pos + 1;
        i := i + 1;
        if pos >= MEM_SIZE {
          return false;
        }
      }
      return true;
    }

    function CanRedraw(): (b: bool)
      reads this
    {
      redraw
    }

    method ResetRedrawFlag()
      modifies this`redraw
      ensures !redraw
    {
      redraw := false;
    }

    /** The accessors of the host program. */
    function Graphics(): (g: seq<bv64>)
      reads this, gfx
    {
      gfx[..]
    }

    function Memory(): (m: seq<bv8>)
      reads this, mem
    {
      mem[..]
    }

    function IndexRegister(): (i: u16)
      reads this
    {
      index
    }

    function ProgramCounter(): (p: u16)
      reads this
    {
      pc
    }

    /** The 16-bit stack pointer returned through an 8-bit result: its low byte. */
    function StackPointer(): (b: u8)
      reads this
      ensures b == sp % 0x100
    {
      sp % 0x100
    }

    function DelayTimer(): (d: u8)
      reads this
    {
      delay
    }
  }
}

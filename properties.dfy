/** What one step of the machine does, instruction by instruction, stated
    without reference to how module Machine computes it: fetch order, the
    instructions that do nothing, skips, call and return, the flags of the
    arithmetic, the memory-indexed instructions, the timers and the loader. */
module Properties {
  import opened Types
  import D = Decode
  import A = Alu
  import G = Display
  import F = Fonts
  import L = Lcg
  import opened Machine

  /** The word at PC, high byte first. */
  function Fetched(s: State): (w: u16)
    requires Wf(s) && CanFetch(s.pc)
  {
    D.Word(s.mem[s.pc], s.mem[s.pc + 1])
  }

  /** The state once the word at PC has been fetched, before it executes. */
  function Fetch(s: State): (t: State)
    requires Wf(s) && CanFetch(s.pc)
    ensures Wf(t)
  {
    s.(pc := Advance(s.pc), opcode := Fetched(s))
  }

  // ---------------------------------------------------------------------------
  // Fetch

  /** The word is big-endian: its class and X come from the byte at PC, its
      NN from the byte after it; PC moves on by 2 before the word executes,
      and a word cannot be fetched from the last byte of memory. */
  lemma FetchOrder(s: State)
    requires Wf(s)
    ensures Step(s).status == FetchOutOfBounds <==> s.pc >= MEM_SIZE - 1
    ensures Step(s).status == FetchOutOfBounds ==> Step(s).state == s
    ensures CanFetch(s.pc) ==> Step(s) == Execute(Fetch(s), Fetched(s))
    ensures CanFetch(s.pc) ==>
      var w := Fetched(s);
      D.Class(w) == s.mem[s.pc] as int / 16 && D.X(w) == s.mem[s.pc] as int % 16 && D.NN(w) == s.mem[s.pc + 1]
      && Fetch(s).pc == (s.pc + 2) % 0x1_0000 && Fetch(s).opcode == w
  {
    if CanFetch(s.pc) {
      D.WordBytes(s.mem[s.pc], s.mem[s.pc + 1]);
    }
  }

  /** The words the interpreter accepts and ignores: 00E0 (its clearing loop
      is never reached), FX0A (no key wait), and the sub-opcodes of classes 8,
      E and F that have no case. They change nothing beyond the fetch. */
  predicate Ignored(w: u16)
  {
    var c, n, nn := D.Class(w), D.N(w), D.NN(w);
    (c == 0x0 && nn == 0xE0)
    || (c == 0x8 && (0x8 <= n <= 0xD || n == 0xF))
    || (c == 0xE && nn != 0x9E && nn != 0xA1)
    || (c == 0xF && nn != 0x07 && nn != 0x15 && nn != 0x18 && nn != 0x1E && nn != 0x29
                 && nn != 0x33 && nn != 0x55 && nn != 0x65)
  }

  lemma IgnoredWords(s: State, w: u16)
    requires Wf(s) && Ignored(w)
    ensures Execute(s, w) == Result(Running, s)
  {
  }

  /** Any 0NNN word other than 00E0 and 00EE stops the machine, which reports
      the word. */
  lemma UnsupportedWords(s: State, w: u16)
    requires Wf(s) && D.Class(w) == 0 && D.NN(w) != 0xE0 && D.NN(w) != 0xEE
    ensures Execute(s, w) == Result(Unsupported(w), s)
  {
  }

  // ---------------------------------------------------------------------------
  // Skips, jumps, call and return

  /** The condition of a skip instruction, or false for any other word. */
  predicate SkipCondition(s: State, w: u16)
    requires Wf(s)
  {
    var c, vx, vy, nn := D.Class(w), s.v[D.X(w)], s.v[D.Y(w)], D.NN(w);
    if c == 0x3 then vx == nn
    else if c == 0x4 then vx != nn
    else if c == 0x5 then vx == vy
    else if c == 0x9 then vx != vy
    else if c == 0xE && nn == 0x9E then s.keys[vx as int % 16] != 0
    else if c == 0xE && nn == 0xA1 then s.keys[vx as int % 16] == 0
    else false
  }

  predicate IsSkip(w: u16)
  {
    var c := D.Class(w);
    c == 0x3 || c == 0x4 || c == 0x5 || c == 0x9 || (c == 0xE && (D.NN(w) == 0x9E || D.NN(w) == 0xA1))
  }

  /** A skip leaves PC four bytes past the skip when its condition holds and
      two bytes past it otherwise, and changes nothing else. */
  lemma Skips(s: State)
    requires Wf(s) && CanFetch(s.pc) && IsSkip(Fetched(s))
    ensures Step(s).status == Running
    ensures Step(s).state == Fetch(s).(pc := if SkipCondition(s, Fetched(s)) then (s.pc + 4) % 0x1_0000
                                             else (s.pc + 2) % 0x1_0000)
  {
    var w := Fetched(s);
    var vx := s.v[D.X(w)];
    KeyIsLowNibble(vx);
  }

  lemma KeyIsLowNibble(b: bv8)
    ensures KeyOf(b) == b as int % 16
  {
  }

  /** 1NNN, BNNN, 2NNN and 00EE move PC to NNN, NNN + V0, NNN and the popped
      return address; a call stores the address after itself. */
  lemma Jumps(s: State, w: u16)
    requires Wf(s)
    ensures D.Class(w) == 0x1 ==> Execute(s, w) == Result(Running, s.(pc := D.NNN(w)))
    ensures D.Class(w) == 0xB ==> Execute(s, w) == Result(Running, s.(pc := D.NNN(w) + s.v[0] as int))
    ensures D.Class(w) == 0x2 ==>
      Execute(s, w) == Result(Running, s.(stack := s.stack[s.sp % 16 := s.pc], sp := (s.sp + 1) % 0x1_0000, pc := D.NNN(w)))
    ensures D.Class(w) == 0x0 && D.NN(w) == 0xEE ==>
      var sp := (s.sp + 0xFFFF) % 0x1_0000;
      Execute(s, w) == Result(Running, s.(sp := sp, pc := s.stack[sp % 16]))
  {
  }

  /** A call to a subroutine whose first instruction is 00EE comes back to the
      instruction after the call, with SP as it was. */
  lemma CallThenReturn(s: State)
    requires Wf(s) && CanFetch(s.pc) && D.Class(Fetched(s)) == 0x2
    requires var t := Step(s).state; CanFetch(t.pc) && Fetched(t) == 0x00EE
    ensures Run(s, 2).status == Running
    ensures Run(s, 2).state.pc == (s.pc + 2) % 0x1_0000 && Run(s, 2).state.sp == s.sp
  {
    var t := Step(s).state;
    D.WordBytes(s.mem[s.pc], s.mem[s.pc + 1]);
    assert Step(s) == Result(Running, Call(Fetch(s), D.NNN(Fetched(s))));
    RunFirst(s, 1);
    RunFirst(t, 0);
    assert D.Class(0x00EE) == 0 && D.NN(0x00EE) == 0xEE;
    assert Step(t) == Execute(Fetch(t), 0x00EE);
    assert Step(t) == Result(Running, Return(Fetch(t)));
    BumpThenDrop(s.sp);
  }

  /** How many slots on from slot `from` slot `i` lies, going round the
      sixteen slots. */
  function Distance(from: nat, i: nat): (d: nat)
    requires from < 16 && i < 16
    ensures d < 16
  {
    if i >= from then i - from else i + 16 - from
  }

  /** A return undoes the bump of SP made by a call. */
  lemma BumpThenDrop(sp: u16)
    ensures Drop(Bump(sp)) == sp
  {
  }

  /** The stack after k pushes of `ret` starting at SP = sp: the k slots from
      sp & 0xF onwards, going round the sixteen slots, hold `ret`. */
  function Pushed(stack: seq<u16>, sp: u16, k: nat, ret: u16): (r: seq<u16>)
    requires |stack| == 16
    ensures |r| == 16
  {
    seq(16, i requires 0 <= i < 16 => if Distance(sp % 16, i) < k then ret else stack[i])
  }

  /** The state after k calls of a subroutine at `a` that calls itself:
      k return addresses pushed, SP bumped k times. */
  function AfterCalls(s: State, a: u16, k: nat): (t: State)
    requires Wf(s) && a < 0x1000
    ensures Wf(t)
  {
    s.(stack := Pushed(s.stack, s.sp, k, (a + 2) % 0x1_0000), sp := (s.sp + k) % 0x1_0000, opcode := 0x2000 + a)
  }

  /** One call of a subroutine at `a` that calls itself. */
  lemma SelfCall(s: State, a: u16)
    requires Wf(s) && a < 0x1000 && CanFetch(a) && s.pc == a && Fetched(s) == 0x2000 + a
    ensures Step(s) == Result(Running, AfterCalls(s, a, 1))
  {
    var w: u16 := 0x2000 + a;
    assert D.Class(w) == 2 && D.NNN(w) == a;
    var f := Fetch(s);
    assert f.pc == (a + 2) % 0x1_0000;
    assert Step(s) == Execute(f, w);
    assert Execute(f, w) == Result(Running, Call(f, a));
    assert Pushed(s.stack, s.sp, 1, (a + 2) % 0x1_0000) == s.stack[s.sp % 16 := (a + 2) % 0x1_0000];
  }

  /** A subroutine at `a` that calls itself: every step pushes a + 2 and
      bumps SP, and no step fails. */
  lemma {:induction false} SelfCalls(s: State, a: u16, k: nat)
    requires Wf(s) && a < 0x1000 && CanFetch(a) && s.pc == a && Fetched(s) == 0x2000 + a && k >= 1
    ensures Run(s, k) == Result(Running, AfterCalls(s, a, k))
    decreases k
  {
    SelfCall(s, a);
    RunFirst(s, k - 1);
    if k > 1 {
      var t := AfterCalls(s, a, 1);
      SelfCalls(t, a, k - 1);
      CallsCompose(s, a, k - 1);
    }
  }

  /** One call and then k more are k + 1 calls. */
  lemma CallsCompose(s: State, a: u16, k: nat)
    requires Wf(s) && a < 0x1000
    ensures AfterCalls(AfterCalls(s, a, 1), a, k) == AfterCalls(s, a, k + 1)
  {
    var ret := (a + 2) % 0x1_0000;
    assert Pushed(s.stack, s.sp, 1, ret) == s.stack[s.sp % 16 := ret];
    PushOnce(s.stack, s.sp, k, ret);
    SpAdd(s.sp, k);
  }

  /** One push followed by k more is k + 1 pushes. */
  lemma PushOnce(stack: seq<u16>, sp: u16, k: nat, ret: u16)
    requires |stack| == 16
    ensures Pushed(stack[sp % 16 := ret], (sp + 1) % 0x1_0000, k, ret) == Pushed(stack, sp, k + 1, ret)
  {
    SlotShift(sp);
    var next := (sp + 1) % 0x1_0000;
    var p1, p2 := Pushed(stack[sp % 16 := ret], next, k, ret), Pushed(stack, sp, k + 1, ret);
    forall i | 0 <= i < 16
      ensures p1[i] == p2[i]
    {
      if i != sp % 16 {
        assert Distance(next % 16, i) + 1 == Distance(sp % 16, i);
      }
    }
    assert p1 == p2;
  }

  lemma SpAdd(sp: u16, j: nat)
    ensures ((sp + 1) % 0x1_0000 + j) % 0x1_0000 == (sp + j + 1) % 0x1_0000
  {
    if sp == 0xFFFF {
      assert sp + j + 1 == 0x1_0000 + j;
    }
  }

  /** Running k + 1 steps is one step and then k more, unless the first
      step stops the machine. */
  lemma RunFirst(s: State, k: nat)
    requires Wf(s)
    ensures Run(s, k + 1) == if Step(s).status != Running then Step(s) else Run(Step(s).state, k)
  {
  }

  /** Reducing SP modulo 2^16 keeps its slot. */
  lemma SlotOfWrapped(n: nat)
    ensures n % 0x1_0000 % 16 == n % 16
  {
    var q, r := n / 0x1_0000, n % 0x1_0000;
    assert n == 16 * (0x1000 * q) + r;
  }

  /** Bumping SP moves its slot one place on, round the sixteen slots. */
  lemma SlotShift(sp: u16)
    ensures (sp + 1) % 0x1_0000 % 16 == (sp % 16 + 1) % 16
  {
    if sp < 0xFFFF {
      assert (sp + 1) % 0x1_0000 == sp + 1;
    }
  }

  /** Nested calls never raise an error: from the sixteenth on, every slot
      holds the return address, and SP has gone round the slots k times
      modulo 16, so the seventeenth call reuses the slot of the first. */
  lemma NestedCalls(s: State, a: u16, k: nat)
    requires Wf(s) && a < 0x1000 && CanFetch(a) && s.pc == a && Fetched(s) == 0x2000 + a && k >= 16
    ensures Run(s, k).status == Running
    ensures Run(s, k).state.stack == seq(16, _ => (a + 2) % 0x1_0000)
    ensures Run(s, k).state.sp % 16 == (s.sp + k) % 16
  {
    SelfCalls(s, a, k);
    SlotOfWrapped(s.sp + k);
    PushedAll(s.stack, s.sp, k, (a + 2) % 0x1_0000);
  }

  /** Sixteen pushes or more fill every slot. */
  lemma PushedAll(stack: seq<u16>, sp: u16, k: nat, ret: u16)
    requires |stack| == 16 && k >= 16
    ensures Pushed(stack, sp, k, ret) == seq(16, _ => ret)
  {
  }

  // ---------------------------------------------------------------------------
  // Registers

  /** Registers other than VX and VF keep their values. */
  predicate OthersKept(v: seq<bv8>, v': seq<bv8>, x: nat)
    requires |v| == 16 && |v'| == 16
  {
    forall i :: 0 <= i < 16 && i != x && i != FLAG ==> v'[i] == v[i]
  }

  /** 6XNN loads NN into VX and 7XNN adds NN to VX modulo 256; neither
      touches VF (unless X is F) nor anything but VX. */
  lemma LoadAndAddImmediate(s: State, w: u16)
    requires Wf(s) && (D.Class(w) == 0x6 || D.Class(w) == 0x7)
    ensures var x, nn, r := D.X(w), D.NN(w), Execute(s, w);
      r.status == Running && r.state == s.(v := r.state.v) && |r.state.v| == 16
      && r.state.v[x] as bv16 == (if D.Class(w) == 0x6 then nn as bv16 else (s.v[x] as bv16 + nn as bv16) % 256)
      && OthersKept(s.v, r.state.v, x) && (x != FLAG ==> r.state.v[FLAG] == s.v[FLAG])
  {
  }

  /** 8XY4: VX gets the sum modulo 256 and VF is 1 exactly when the sum
      exceeds 255. VF is written last, so when X is F the flag is what
      remains. */
  lemma AddRegisters(s: State, w: u16)
    requires Wf(s) && D.Class(w) == 0x8 && D.N(w) == 0x4
    ensures var x, y, r := D.X(w), D.Y(w), Execute(s, w);
      var sum := s.v[x] as bv16 + s.v[y] as bv16;
      r.status == Running && r.state == s.(v := r.state.v) && |r.state.v| == 16
      && r.state.v[FLAG] == (if sum > 255 then 1 else 0)
      && (x != FLAG ==> r.state.v[x] as bv16 == sum % 256)
      && OthersKept(s.v, r.state.v, x)
  {
  }

  /** 8XY5: VX gets VX - VY modulo 256 and VF is 1 exactly when VX >= VY (no
      borrow); VF is written last. */
  lemma SubtractRegisters(s: State, w: u16)
    requires Wf(s) && D.Class(w) == 0x8 && D.N(w) == 0x5
    ensures var x, y, r := D.X(w), D.Y(w), Execute(s, w);
      r.status == Running && r.state == s.(v := r.state.v) && |r.state.v| == 16
      && r.state.v[FLAG] == (if s.v[x] >= s.v[y] then 1 else 0)
      && (x != FLAG ==> r.state.v[x] as bv16 == (s.v[x] as bv16 + 256 - s.v[y] as bv16) % 256)
      && OthersKept(s.v, r.state.v, x)
  {
  }

  /** 8XY7: the same with the operands swapped: VY - VX, and VF is 1 exactly
      when VY >= VX. */
  lemma SubtractReversed(s: State, w: u16)
    requires Wf(s) && D.Class(w) == 0x8 && D.N(w) == 0x7
    ensures var x, y, r := D.X(w), D.Y(w), Execute(s, w);
      r.status == Running && r.state == s.(v := r.state.v) && |r.state.v| == 16
      && r.state.v[FLAG] == (if s.v[y] >= s.v[x] then 1 else 0)
      && (x != FLAG ==> r.state.v[x] as bv16 == (s.v[y] as bv16 + 256 - s.v[x] as bv16) % 256)
      && OthersKept(s.v, r.state.v, x)
  {
    var x, y := D.X(w), D.Y(w);
    var d := A.SubNoBorrow(s.v[y], s.v[x]);
    assert Execute(s, w) == Result(Running, ResultThenFlag(s, x, d));
  }

  /** 8XY0 to 8XY3 copy VY, or combine it into VX with OR, AND or XOR, and
      leave every other register, VF included, alone. */
  lemma BitwiseRegisters(s: State, w: u16)
    requires Wf(s) && D.Class(w) == 0x8 && D.N(w) <= 0x3
    ensures var x, y, n, r := D.X(w), D.Y(w), D.N(w), Execute(s, w);
      var vx, vy := s.v[x], s.v[y];
      r.status == Running && r.state == s.(v := r.state.v) && |r.state.v| == 16
      && r.state.v[x] == (if n == 0 then vy else if n == 1 then vx | vy else if n == 2 then vx & vy else vx ^ vy)
      && OthersKept(s.v, r.state.v, x) && (x != FLAG ==> r.state.v[FLAG] == s.v[FLAG])
  {
  }

  /** 8XY3 twice with X different from Y gives VX back. */
  lemma XorTwiceRestores(s: State, w: u16)
    requires Wf(s) && D.Class(w) == 0x8 && D.N(w) == 0x3 && D.X(w) != D.Y(w)
    ensures Execute(Execute(s, w).state, w).state == s
  {
    XorStep(s, w);
    XorStep(Execute(s, w).state, w);
    XorUndo(s, D.X(w), D.Y(w));
  }

  /** 8XY3 writes VX ^ VY into VX. */
  lemma XorStep(s: State, w: u16)
    requires Wf(s) && D.Class(w) == 0x8 && D.N(w) == 0x3
    ensures Execute(s, w).state == SetReg(s, D.X(w), s.v[D.X(w)] ^ s.v[D.Y(w)])
  {
    assert !IsControl(8);
    assert Execute(s, w) == Result(Running, Compute(s, w));
    assert Compute(s, w) == Arith(s, D.X(w), D.Y(w), 3);
  }

  /** On the registers: VX ^= VY twice, with X different from Y, is no change. */
  lemma XorUndo(s: State, x: nat, y: nat)
    requires Wf(s) && x < 16 && y < 16 && x != y
    ensures var t := SetReg(s, x, s.v[x] ^ s.v[y]); SetReg(t, x, t.v[x] ^ t.v[y]) == s
  {
    XorBack(s.v[x], s.v[y]);
  }

  lemma XorBack(a: bv8, b: bv8)
    ensures (a ^ b) ^ b == a
  {
  }

  /** 8XY6 and 8XYE shift VY, not VX: VF gets the bit shifted out, then VX
      gets VY shifted by one (VY read again after VF is written). So when X
      is F (and Y is not) the shifted value is what remains in VF, and when
      Y is F (and X is not) VX gets the shifted flag: 0 for 8XF6, 0 or 2 for
      8XFE. When both are F, VF ends as that shifted flag. */
  lemma ShiftRegisters(s: State, w: u16)
    requires Wf(s) && D.Class(w) == 0x8 && (D.N(w) == 0x6 || D.N(w) == 0xE)
    ensures var x, y, r := D.X(w), D.Y(w), Execute(s, w);
      var left, vy := D.N(w) == 0xE, s.v[y];
      var flag: bv8 := if left then vy >> 7 else vy & 1;
      var shifted: bv8 := if left then vy << 1 else vy >> 1;
      r.status == Running && r.state == s.(v := r.state.v) && |r.state.v| == 16
      && OthersKept(s.v, r.state.v, x)
      && (x != FLAG && y != FLAG ==> r.state.v[FLAG] == flag && r.state.v[x] == shifted)
      && (x == FLAG && y != FLAG ==> r.state.v[FLAG] == shifted)
      && (x != FLAG && y == FLAG ==> r.state.v[FLAG] == flag && r.state.v[x] == (if left then flag * 2 else 0))
      && (x == FLAG && y == FLAG ==> r.state.v[FLAG] == (if left then (vy >> 7) * 2 else 0))
  {
    var x, y, left := D.X(w), D.Y(w), D.N(w) == 0xE;
    var f := A.Shift(left, s.v[y]).flag;
    assert Execute(s, w).state == s.(v := s.v[FLAG := f][x := A.Shift(left, s.v[FLAG := f][y]).value]);
    ShiftedFlag(left, s.v[y]);
  }

  lemma ShiftedFlag(left: bool, b: bv8)
    ensures A.Shift(left, b).flag == if left then b >> 7 else b & 1
    ensures A.Shift(left, A.Shift(left, b).flag).value == if left then (b >> 7) * 2 else 0
  {
  }

  /** CXNN: VX gets the next byte of the generator's stream masked by NN,
      and the generator moves on by one. */
  lemma RandomRegister(s: State, w: u16)
    requires Wf(s) && D.Class(w) == 0xC
    ensures var x, r := D.X(w), Execute(s, w);
      r.status == Running && r.state == s.(v := r.state.v, lcg := L.After(s.lcg, 1)) && |r.state.v| == 16
      && r.state.v == s.v[x := L.Bytes(s.lcg, 1)[0] & D.NN(w)]
  {
  }

  // ---------------------------------------------------------------------------
  // The screen

  /** DXYN with neither X nor Y equal to F: VF reports whether some drawn row
      overlapped a lit pixel, the rows that survive clipping are XORed in from
      scanline VY down, and the redraw flag is raised; nothing else changes. */
  lemma DrawInstruction(s: State, w: u16)
    requires Wf(s) && D.Class(w) == 0xD && D.X(w) != FLAG && D.Y(w) != FLAG
    ensures var vx, vy, r := s.v[D.X(w)], s.v[D.Y(w)], Execute(s, w);
      var ms := G.Masks(s.mem, s.index, vx, G.Limit(s.index, vy, D.N(w)));
      r.status == Running
      && r.state == s.(v := s.v[FLAG := G.FlagOf(G.Collides(s.gfx, ms, vy as int, 0))],
                       gfx := G.Toggled(s.gfx, ms, vy as int, 0), redraw := true)
  {
    G.DrawEffect(G.Canvas(s.v, s.gfx), s.mem, s.index, D.X(w), D.Y(w), D.N(w));
  }

  /** Drawing the same sprite twice (neither X nor Y being F) restores the
      framebuffer. */
  lemma DrawTwiceRestores(s: State, w: u16)
    requires Wf(s) && D.Class(w) == 0xD && D.X(w) != FLAG && D.Y(w) != FLAG
    ensures Execute(Execute(s, w).state, w).state.gfx == s.gfx
  {
    var c := G.Canvas(s.v, s.gfx);
    var c1 := G.Draw(c, s.mem, s.index, D.X(w), D.Y(w), D.N(w));
    assert Execute(s, w).state == s.(v := c1.v, gfx := c1.gfx, redraw := true);
    G.DrawTwice(c, s.mem, s.index, D.X(w), D.Y(w), D.N(w));
  }

  /** Only DXYN raises the redraw flag, and no instruction lowers it. */
  lemma RedrawOnlyByDraw(s: State, w: u16)
    requires Wf(s)
    ensures Execute(s, w).state.redraw == (s.redraw || D.Class(w) == 0xD)
  {
  }

  // ---------------------------------------------------------------------------
  // Memory

  /** FX33: the three decimal digits of VX, most significant first, land at
      I, I+1 and I+2 (each modulo 4096); no other byte and nothing else
      changes. */
  lemma StoreDigits(s: State, w: u16)
    requires Wf(s) && D.Class(w) == 0xF && D.NN(w) == 0x33
    ensures var r := Execute(s, w);
      r.status == Running && r.state == s.(mem := r.state.mem) && Digits(s.mem, r.state.mem, s.index, s.v[D.X(w)])
  {
    var x := D.X(w);
    assert Execute(s, w).state == s.(mem := BcdBytes(s.mem, s.index, s.v[x]));
    BcdBytesDigits(s.mem, s.index, s.v[x]);
  }
  /** FX55 stores V0..VX at I, I+1, ... modulo 4096 and changes nothing but
      memory; the bytes past VX's address, going round memory, are kept. */
  lemma StoreRegsStep(s: State, w: u16)
    requires Wf(s) && D.Class(w) == 0xF && D.NN(w) == 0x55
    ensures var x, r := D.X(w), Execute(s, w);
      r.status == Running && r.state == s.(mem := r.state.mem) && |r.state.mem| == MEM_SIZE
      && (forall i :: 0 <= i <= x ==> r.state.mem[(s.index + i) % MEM_SIZE] == s.v[i])
      && (forall a :: 0 <= a < MEM_SIZE && (a - s.index) % MEM_SIZE > x ==> r.state.mem[a] == s.mem[a])
  {
    var x := D.X(w);
    MiscStep(s, w);
    StoreRegsContents(s.mem, s.v, s.index, x + 1);
  }

  /** FX65 loads V0..VX from I, I+1, ... modulo 4096, keeps the registers past
      VX and changes nothing else; in particular I is not moved. */
  lemma LoadRegsStep(s: State, w: u16)
    requires Wf(s) && D.Class(w) == 0xF && D.NN(w) == 0x65
    ensures var x, r := D.X(w), Execute(s, w);
      r.status == Running && r.state == s.(v := r.state.v) && |r.state.v| == 16
      && (forall i :: 0 <= i <= x ==> r.state.v[i] == s.mem[(s.index + i) % MEM_SIZE])
      && (forall i :: x < i < 16 ==> r.state.v[i] == s.v[i])
  {
    var x := D.X(w);
    MiscStep(s, w);
    LoadRegsContents(s.v, s.mem, s.index, x + 1);
  }


  /** Memory m holds at I, I+1 and I+2 (modulo 4096) the decimal digits of
      vx, most significant first, and agrees with `mem` elsewhere. */
  predicate Digits(mem: seq<bv8>, m: seq<bv8>, index: u16, vx: bv8)
    requires |mem| == MEM_SIZE
  {
    |m| == MEM_SIZE
    && var (a0, a1, a2) := (index % MEM_SIZE, (index + 1) % MEM_SIZE, (index + 2) % MEM_SIZE);
    m[a0] < 10 && m[a1] < 10 && m[a2] < 10
    && m[a0] as bv16 * 100 + m[a1] as bv16 * 10 + m[a2] as bv16 == vx as bv16
    && forall a :: 0 <= a < MEM_SIZE && a != a0 && a != a1 && a != a2 ==> m[a] == mem[a]
  }

  lemma BcdBytesDigits(mem: seq<bv8>, index: u16, vx: bv8)
    requires |mem| == MEM_SIZE
    ensures Digits(mem, BcdBytes(mem, index, vx), index, vx)
  {
    DistinctAddresses(index, 0, 1);
    DistinctAddresses(index, 0, 2);
    DistinctAddresses(index, 1, 2);
    var d := A.Bcd(vx);
    var m := BcdBytes(mem, index, vx);
    assert m[Addr(index, 0)] == d.hundreds && m[Addr(index, 1)] == d.tens && m[Addr(index, 2)] == d.ones;
  }

  /** The memory FX55 leaves: V0..V(k-1) at I..I+k-1 (modulo 4096), every
      other byte as it was. */
  lemma {:induction false} StoreRegsContents(mem: seq<bv8>, v: seq<bv8>, index: u16, k: nat)
    requires |mem| == MEM_SIZE && |v| == 16 && k <= 16
    ensures forall i :: 0 <= i < k ==> StoreRegs(mem, v, index, k)[(index + i) % MEM_SIZE] == v[i]
    ensures forall a :: 0 <= a < MEM_SIZE && (a - index) % MEM_SIZE >= k ==> StoreRegs(mem, v, index, k)[a] == mem[a]
  {
    if k > 0 {
      StoreRegsContents(mem, v, index, k - 1);
      EarlierAddresses(index, k - 1);
      OffsetOf(index, k - 1);
      forall a | 0 <= a < MEM_SIZE && (a - index) % MEM_SIZE >= k
        ensures StoreRegs(mem, v, index, k)[a] == mem[a]
      {
        assert a != Addr(index, k - 1);
      }
    }
  }

  /** The address of the next store differs from those of the earlier ones. */
  lemma EarlierAddresses(index: u16, k: nat)
    requires k < MEM_SIZE
    ensures forall i :: 0 <= i < k ==> Addr(index, i) != Addr(index, k)
  {
    forall i | 0 <= i < k
      ensures Addr(index, i) != Addr(index, k)
    {
      DistinctAddresses(index, i, k);
    }
  }

  /** The address I + i modulo 4096 lies i bytes on from I, going round memory. */
  lemma OffsetOf(index: u16, i: nat)
    requires i < MEM_SIZE
    ensures (Addr(index, i) - index) % MEM_SIZE == i
  {
    var q := (index + i) / MEM_SIZE;
    assert Addr(index, i) - index == i - q * MEM_SIZE;
  }

  /** Addresses I + i and I + j modulo 4096 differ for distinct small i, j. */
  lemma DistinctAddresses(index: u16, i: nat, j: nat)
    requires i < j < MEM_SIZE
    ensures Addr(index, i) != Addr(index, j)
  {
  }

  /** The registers FX65 leaves: V0..V(k-1) from I..I+k-1 (modulo 4096),
      the others as they were. */
  lemma {:induction false} LoadRegsContents(v: seq<bv8>, mem: seq<bv8>, index: u16, k: nat)
    requires |mem| == MEM_SIZE && |v| == 16 && k <= 16
    ensures forall i :: 0 <= i < k ==> LoadRegs(v, mem, index, k)[i] == mem[(index + i) % MEM_SIZE]
    ensures forall i :: k <= i < 16 ==> LoadRegs(v, mem, index, k)[i] == v[i]
  {
    if k > 0 {
      LoadRegsContents(v, mem, index, k - 1);
    }
  }

  /** FX55 then FX65 with the same X: the registers come back unchanged, and
      neither instruction moves I. */
  lemma StoreThenLoad(s: State, store: u16, load: u16)
    requires Wf(s) && D.Class(store) == 0xF && D.NN(store) == 0x55
    requires D.Class(load) == 0xF && D.NN(load) == 0x65 && D.X(load) == D.X(store)
    ensures Execute(s, store).state.index == s.index
    ensures Execute(Execute(s, store).state, load) == Execute(s, store)
  {
    var k := D.X(store) + 1;
    var m := StoreRegs(s.mem, s.v, s.index, k);
    assert Execute(s, store).state == s.(mem := m);
    StoreRegsContents(s.mem, s.v, s.index, k);
    LoadRegsContents(s.v, m, s.index, k);
    assert LoadRegs(s.v, m, s.index, k) == s.v;
  }

  /** ANNN sets I to NNN and changes nothing else. */
  lemma SetIndex(s: State, w: u16)
    requires Wf(s) && D.Class(w) == 0xA
    ensures Execute(s, w) == Result(Running, s.(index := D.NNN(w)))
  {
  }

  /** FX1E adds VX to I modulo 2^16 and leaves VF alone; FX29 points I at the
      glyph for VX, 5 * VX; FX07 copies the delay timer to VX; FX15 and FX18
      set the delay and sound timers from VX. */
  lemma IndexAndTimers(s: State, w: u16)
    requires Wf(s) && D.Class(w) == 0xF
    ensures var x, nn, r := D.X(w), D.NN(w), Execute(s, w);
      var vx := s.v[x];
      r.status == Running
      && (nn == 0x1E ==> r.state == s.(index := (s.index + vx as int) % 0x1_0000))
      && (nn == 0x29 ==> r.state == s.(index := 5 * vx as int))
      && (nn == 0x07 ==> r.state == s.(v := s.v[x := s.delay as bv8]))
      && (nn == 0x15 ==> r.state == s.(delay := vx as int))
      && (nn == 0x18 ==> r.state == s.(sound := vx as int))
  {
    MiscStep(s, w);
  }

  /** A class-F word runs the FX group on VX. */
  lemma MiscStep(s: State, w: u16)
    requires Wf(s) && D.Class(w) == 0xF
    ensures Execute(s, w) == Result(Running, Misc(s, D.X(w), D.NN(w)))
  {
    assert !IsControl(0xF);
  }

  /** With the font in place, FX29 on a digit d leaves I at the five rows of
      the glyph for d. */
  lemma GlyphAddressed(s: State, w: u16)
    requires Wf(s) && D.Class(w) == 0xF && D.NN(w) == 0x29 && s.v[D.X(w)] < 16
    requires s.mem[..FONT_BYTES] == F.FONT
    ensures var t := Execute(s, w).state;
      t.index + F.GLYPH_ROWS <= MEM_SIZE && t.mem[t.index .. t.index + F.GLYPH_ROWS] == F.Glyph(s.v[D.X(w)] as int)
  {
    var d := s.v[D.X(w)] as int;
    GlyphStep(s, w);
    SliceOfPrefix(s.mem, FONT_BYTES, 5 * d, 5 * d + 5);
  }

  lemma GlyphStep(s: State, w: u16)
    requires Wf(s) && D.Class(w) == 0xF && D.NN(w) == 0x29
    ensures Execute(s, w).state == s.(index := 5 * s.v[D.X(w)] as int)
  {
    assert Execute(s, w) == Result(Running, Compute(s, w));
    assert Compute(s, w) == Misc(s, D.X(w), 0x29);
  }

  lemma SliceOfPrefix(m: seq<bv8>, k: nat, a: nat, b: nat)
    requires a <= b <= k <= |m|
    ensures m[a..b] == m[..k][a..b]
  {
  }

  /** CXNN on the generator's seed yields 0xC2 masked by NN, the first byte
      of the stream. */
  lemma FirstRandom(s: State, w: u16)
    requires Wf(s) && D.Class(w) == 0xC && s.lcg == L.SEED
    ensures Execute(s, w).state.v[D.X(w)] == 0xC2 & D.NN(w)
  {
    L.FirstBytes();
    assert L.Bytes(L.SEED, 6)[0] == L.Bytes(L.SEED, 1)[0];
  }

  // ---------------------------------------------------------------------------
  // Timers

  /** One tick lowers each running timer by exactly one and leaves a stopped
      one at 0; it beeps exactly when the sound timer goes from 1 to 0, and
      nothing else changes. */
  lemma TickEffect(s: State)
    ensures var r := Tick(s);
      r.state == s.(delay := r.state.delay, sound := r.state.sound)
      && r.state.delay == (if s.delay > 0 then s.delay - 1 else 0)
      && r.state.sound == (if s.sound > 0 then s.sound - 1 else 0)
      && (r.beep <==> s.sound == 1)
  {
  }

  /** The state after k ticks. */
  function Ticks(s: State, k: nat): (t: State)
    decreases k
  {
    if k == 0 then s else Ticks(Tick(s).state, k - 1)
  }

  /** After k ticks a timer that started at t reads t - k, or 0 once it has
      run out, and nothing else has changed. */
  lemma {:induction false} TimersRunDown(s: State, k: nat)
    ensures var t := Ticks(s, k);
      t == s.(delay := t.delay, sound := t.sound)
      && t.delay == (if s.delay >= k then s.delay - k else 0)
      && t.sound == (if s.sound >= k then s.sound - k else 0)
    decreases k
  {
    if k > 0 {
      TimersRunDown(Tick(s).state, k - 1);
    }
  }

  // ---------------------------------------------------------------------------
  // Reset, power-on and loading

  /** Reset installs the font at 0..79, puts PC at 0x200 and clears SP and
      the timers; the rest of memory and every other component are kept.
      Doing it twice is doing it once. */
  lemma ResetEffect(s: State)
    requires Wf(s)
    ensures var t := Reset(s);
      t.mem[..FONT_BYTES] == F.FONT && t.mem[FONT_BYTES..] == s.mem[FONT_BYTES..]
      && t == s.(mem := t.mem, pc := 0x200, sp := 0, delay := 0, sound := 0)
    ensures Reset(Reset(s)) == Reset(s)
  {
    var t := Reset(s);
    assert t.mem[..FONT_BYTES] == F.FONT;
    assert t.mem[FONT_BYTES..] == s.mem[FONT_BYTES..];
    assert F.FONT + t.mem[FONT_BYTES..] == t.mem;
  }

  /** A new interpreter: PC at 0x200, the font at 0..79 and zero bytes after
      it, blank screen, registers, stack and keys zero, the generator at its
      seed. */
  lemma PowerOnState()
    ensures var s := PowerOn();
      s.pc == 0x200 && s.sp == 0 && s.index == 0 && s.delay == 0 && s.sound == 0 && !s.redraw
      && s.lcg == L.SEED && s.mem[..FONT_BYTES] == F.FONT
      && (forall a :: FONT_BYTES <= a < MEM_SIZE ==> s.mem[a] == 0)
      && (forall i :: 0 <= i < 16 ==> s.v[i] == 0 && s.stack[i] == 0 && s.keys[i] == 0)
      && (forall l :: 0 <= l < G.SCANLINES ==> s.gfx[l] == 0)
  {
    var s := PowerOn();
    assert s.mem == F.FONT + seq(MEM_SIZE, _ => 0)[FONT_BYTES..];
  }

  /** Loading an unreadable file is a Reset and succeeds. */
  lemma LoadUnreadable(s: State)
    requires Wf(s)
    ensures Load(s, Unreadable) == Loaded(true, Reset(s))
  {
    var t := Reset(s);
    assert Write(t.mem, PROGRAM_START as int, []) == t.mem;
  }

  /** Loading a file of n bytes succeeds exactly when n <= 3582, that is,
      when the bytes and the end-of-file marker 0xFF fit below the last
      address. It resets the machine, then the bytes land from 0x200 on and
      the marker after them; the font and every other byte stay as Reset
      left them. A file that is too long fills 0x200..0xFFF with its first
      3584 bytes (or its bytes and the marker) and reports failure. */
  lemma LoadBytes(s: State, data: seq<bv8>)
    requires Wf(s)
    ensures var r, t := Load(s, Bytes(data)), Reset(s);
      var n := |data|;
      (r.ok <==> n <= 3582)
      && r.state == t.(mem := r.state.mem) && |r.state.mem| == MEM_SIZE
      && r.state.mem[..PROGRAM_START] == t.mem[..PROGRAM_START]
      && (r.ok ==> r.state.mem[PROGRAM_START .. PROGRAM_START + n] == data
                   && r.state.mem[PROGRAM_START + n] == 0xFF
                   && r.state.mem[PROGRAM_START + n + 1 ..] == t.mem[PROGRAM_START + n + 1 ..])
      && (!r.ok ==> r.state.mem[PROGRAM_START..] == (data + [0xFF])[..LOAD_ROOM])
  {
    var t := Reset(s);
    var image := Image(Bytes(data));
    assert image == data + [0xFF];
    if |image| < LOAD_ROOM {
      var m := Write(t.mem, PROGRAM_START as int, image);
      assert m[PROGRAM_START .. PROGRAM_START + |data|] == data;
    } else {
      var m := Write(t.mem, PROGRAM_START as int, image[..LOAD_ROOM]);
      assert m[PROGRAM_START..] == image[..LOAD_ROOM];
    }
  }
}

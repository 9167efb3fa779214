/** The framebuffer and the sprite-drawing loop of DXYN (include/chip8.hpp:302-311).
    The screen is 32 scanlines of 64 bits; bit 63 of a scanline is its leftmost
    pixel. Drawing XORs one sprite byte per row into successive scanlines and
    reports in VF whether a lit pixel was hit. */
module Display {
  import opened Types

  const SCANLINES := 32

  /** Pixel j (0 = leftmost) of a scanline is lit iff bit 63 - j is set; this is
      how the host unpacks a scanline for rendering (src/main.cpp:21-32). */
  predicate Lit(line: bv64, j: bv8)
    requires j < 64
  {
    (line >> (63 - j)) & 1 == 1
  }

  /** Bit k of a sprite byte, counted from its most significant bit. */
  predicate SpriteBit(b: bv8, k: bv8)
    requires k < 8
  {
    (b >> (7 - k)) & 1 == 1
  }

  /** The row mask of a sprite byte drawn at column VX: the byte at the top of
      the word, shifted right by VX, so that bits pushed past the right edge are
      dropped. A shift by 64 or more is undefined in the source; here it yields
      an empty mask. */
  function SpriteMask(b: bv8, vx: bv8): (m: bv64)
    ensures vx >= 64 ==> m == 0
  {
    if vx < 64 then ((b as bv64) << 56) >> vx else 0
  }

  /** The sprite lands where it should: inside the eight columns starting at VX,
      pixel j of the mask is lit iff the matching sprite bit is set ... */
  lemma MaskInside(b: bv8, vx: bv8, j: bv8)
    requires vx < 64 && j < 64 && vx <= j && j - vx < 8
    ensures Lit(SpriteMask(b, vx), j) <==> SpriteBit(b, j - vx)
  {
  }

  /** ... and every other pixel of the mask is dark: bits pushed past the right
      edge are dropped, not wrapped round to the left. */
  lemma MaskOutside(b: bv8, vx: bv8, j: bv8)
    requires vx < 64 && j < 64 && !(vx <= j && j - vx < 8)
    ensures !Lit(SpriteMask(b, vx), j)
  {
  }

  /** The two parts of the state a draw changes: the registers (only VF, unless
      X or Y is F) and the framebuffer. */
  datatype Canvas = Canvas(v: seq<bv8>, gfx: seq<bv64>)

  predicate Fits(c: Canvas)
  {
    |c.v| == 16 && |c.gfx| == SCANLINES
  }

  function FlagOf(b: bool): bv8 { if b then 1 else 0 }

  /** VF after a row: set if it was set or the row collided. */
  function Raise(f: bv8, hit: bool): bv8 { f | FlagOf(hit) }

  /** A scanline with a row mask XORed in. */
  function Xor(line: bv64, mask: bv64): bv64 { line ^ mask }

  /** A row mask overlaps a lit pixel of a scanline. */
  predicate Overlaps(line: bv64, mask: bv64)
  {
    line & mask != 0
  }

  /** The first half of a row of the sprite loop: VF |= (the mask hits a lit
      pixel of the scanline). */
  function Collide(c: Canvas, line: nat, mask: bv64): (r: Canvas)
    requires Fits(c) && line < SCANLINES
    ensures Fits(r) && r.gfx == c.gfx
    ensures forall i :: 0 <= i < 16 && i != FLAG ==> r.v[i] == c.v[i]
  {
    Canvas(c.v[FLAG := Raise(c.v[FLAG], Overlaps(c.gfx[line], mask))], c.gfx)
  }

  /** The second half: the mask is XORed into the scanline. */
  function Toggle(c: Canvas, line: nat, mask: bv64): (r: Canvas)
    requires Fits(c) && line < SCANLINES
    ensures Fits(r) && r.v == c.v
  {
    Canvas(c.v, c.gfx[line := Xor(c.gfx[line], mask)])
  }

  /** One row of the sprite loop on a fixed scanline: VF |= (the mask hits a
      lit pixel), then the mask is XORed into the scanline. */
  function PlotRow(c: Canvas, line: nat, mask: bv64): (r: Canvas)
    requires Fits(c) && line < SCANLINES
    ensures Fits(r)
  {
    Canvas(c.v[FLAG := Raise(c.v[FLAG], Overlaps(c.gfx[line], mask))],
           c.gfx[line := Xor(c.gfx[line], mask)])
  }

  /** One row of the sprite loop that passed both clipping tests: VF records
      whether the mask hits a lit pixel of scanline VY + row, then the mask is
      XORed into scanline VY + row with VY read again, since Y may be F. (That
      scanline is always on screen: it differs from the tested one only when Y
      is F, and then VF is at most 1 and the row at most 14; the guard below
      only keeps the function total.) */
  function DrawRow(c: Canvas, mem: seq<bv8>, index: u16, x: nat, y: nat, row: nat): (r: Canvas)
    requires Fits(c) && |mem| == MEM_SIZE && x < 16 && y < 16
    requires index + row < MEM_SIZE && c.v[y] as int + row < SCANLINES
    ensures Fits(r)
  {
    var mask := SpriteMask(mem[index + row], c.v[x]);
    var c1 := Collide(c, c.v[y] as int + row, mask);
    var again := c1.v[y] as int + row;
    if again < SCANLINES then Toggle(c1, again, mask) else c1
  }

  /** Rows `row` to `n - 1` of the sprite loop, as the source runs them: a row
      stops the loop when its source byte lies past the end of memory or its
      target scanline lies below the bottom of the screen. VX and VY are read
      again for every row, since either may be VF, which the loop updates. */
  function DrawRows(c: Canvas, mem: seq<bv8>, index: u16, x: nat, y: nat, row: nat, n: nat): (r: Canvas)
    requires Fits(c) && |mem| == MEM_SIZE && x < 16 && y < 16
    ensures Fits(r)
    decreases n - row
  {
    if row >= n || index + row >= MEM_SIZE || c.v[y] as int + row >= SCANLINES then c
    else DrawRows(DrawRow(c, mem, index, x, y, row), mem, index, x, y, row + 1, n)
  }

  /** A row drawn while VF is at most 1, in a sprite of fewer than 16 rows:
      the scanline toggled is on screen, and VF stays at most 1. */
  lemma DrawRowInside(c: Canvas, mem: seq<bv8>, index: u16, x: nat, y: nat, row: nat)
    requires Fits(c) && |mem| == MEM_SIZE && x < 16 && y < 16 && row < 15
    requires index + row < MEM_SIZE && c.v[y] as int + row < SCANLINES && c.v[FLAG] <= 1
    ensures var mask, line := SpriteMask(mem[index + row], c.v[x]), c.v[y] as int + row;
      var c1 := Collide(c, line, mask);
      c1.v[FLAG] <= 1 && c1.v[y] as int + row < SCANLINES
      && DrawRow(c, mem, index, x, y, row) == Toggle(c1, c1.v[y] as int + row, mask)
  {
    CollideKeepsBit(c, c.v[y] as int + row, SpriteMask(mem[index + row], c.v[x]));
  }

  /** The collision test leaves VF at most 1 if it was. */
  lemma CollideKeepsBit(c: Canvas, line: nat, mask: bv64)
    requires Fits(c) && line < SCANLINES && c.v[FLAG] <= 1
    ensures Collide(c, line, mask).v[FLAG] <= 1
  {
    RaiseAtMostOne(c.v[FLAG], Overlaps(c.gfx[line], mask));
  }

  lemma RaiseAtMostOne(f: bv8, hit: bool)
    requires f <= 1
    ensures Raise(f, hit) <= 1
  {
  }

  /** DXYN on the registers and the framebuffer: VF is cleared, then the rows run. */
  function Draw(c: Canvas, mem: seq<bv8>, index: u16, x: nat, y: nat, n: nat): (r: Canvas)
    requires Fits(c) && |mem| == MEM_SIZE && x < 16 && y < 16
    ensures Fits(r)
  {
    DrawRows(Canvas(c.v[FLAG := 0], c.gfx), mem, index, x, y, 0, n)
  }

  // ---------------------------------------------------------------------------
  // What a draw does, when neither coordinate register is VF: the sprite rows
  // that survive clipping, as a list of masks, swept onto the screen from
  // scanline VY down.

  function Min(a: nat, b: nat): nat { if a <= b then a else b }

  /** Room left between `start` and `bound`. */
  function Room(bound: nat, start: nat): (r: nat)
    ensures r > 0 ==> start + r == bound
  {
    if start < bound then bound - start else 0
  }

  /** The number of rows a draw of height n actually draws before one of the
      two clipping tests stops it. */
  function Limit(index: u16, vy: bv8, n: nat): (k: nat)
    ensures k <= n && k <= Room(MEM_SIZE, index) && k <= Room(SCANLINES, vy as int)
    ensures k < n ==> index + k >= MEM_SIZE || vy as int + k >= SCANLINES
  {
    Min(n, Min(Room(MEM_SIZE, index), Room(SCANLINES, vy as int)))
  }

  /** The masks of the first k sprite rows, read from memory at I. */
  function Masks(mem: seq<bv8>, index: u16, vx: bv8, k: nat): (ms: seq<bv64>)
    requires |mem| == MEM_SIZE && k <= Room(MEM_SIZE, index)
    ensures |ms| == k
    ensures forall r :: 0 <= r < k ==> ms[r] == SpriteMask(mem[index + r], vx)
  {
    seq(k, r requires 0 <= r < k => SpriteMask(mem[index + r], vx))
  }

  /** Masks lo..|ms|-1 swept onto scanlines top + lo and below. */
  function Sweep(c: Canvas, ms: seq<bv64>, top: nat, lo: nat): (r: Canvas)
    requires Fits(c) && |ms| <= Room(SCANLINES, top)
    ensures Fits(r)
    decreases |ms| - lo
  {
    if lo >= |ms| then c
    else Sweep(PlotRow(c, top + lo, ms[lo]), ms, top, lo + 1)
  }

  /** Some mask among lo..|ms|-1 overlaps a pixel already lit on its scanline. */
  predicate Collides(gfx: seq<bv64>, ms: seq<bv64>, top: nat, lo: nat)
    requires |gfx| == SCANLINES && |ms| <= Room(SCANLINES, top)
    decreases |ms| - lo
  {
    lo < |ms| && (Overlaps(gfx[top + lo], ms[lo]) || Collides(gfx, ms, top, lo + 1))
  }

  /** The framebuffer with masks lo..|ms|-1 XORed in. */
  function Toggled(gfx: seq<bv64>, ms: seq<bv64>, top: nat, lo: nat): (g: seq<bv64>)
    requires |gfx| == SCANLINES && |ms| <= Room(SCANLINES, top)
    ensures |g| == SCANLINES
    decreases |ms| - lo
  {
    if lo >= |ms| then gfx
    else Toggled(gfx[top + lo := Xor(gfx[top + lo], ms[lo])], ms, top, lo + 1)
  }

  // ---------------------------------------------------------------------------
  // Lemmas

  /** Toggled, one scanline at a time: the scanlines of the band are XORed with
      their mask, every other scanline is untouched. */
  lemma {:induction false} ToggledAt(gfx: seq<bv64>, ms: seq<bv64>, top: nat, lo: nat, l: nat)
    requires |gfx| == SCANLINES && |ms| <= Room(SCANLINES, top) && l < SCANLINES
    ensures Toggled(gfx, ms, top, lo)[l]
         == if top + lo <= l < top + |ms| then Xor(gfx[l], ms[l - top]) else gfx[l]
    decreases |ms| - lo
  {
    if lo < |ms| {
      ToggledAt(gfx[top + lo := Xor(gfx[top + lo], ms[lo])], ms, top, lo + 1, l);
    }
  }

  /** Collides only looks at the scanlines of the band it is asked about. */
  lemma {:induction false} CollidesFrame(g1: seq<bv64>, g2: seq<bv64>, ms: seq<bv64>, top: nat, lo: nat)
    requires |g1| == SCANLINES && |g2| == SCANLINES && |ms| <= Room(SCANLINES, top)
    requires forall l :: top + lo <= l < top + |ms| ==> g1[l] == g2[l]
    ensures Collides(g1, ms, top, lo) == Collides(g2, ms, top, lo)
    decreases |ms| - lo
  {
    if lo < |ms| {
      CollidesFrame(g1, g2, ms, top, lo + 1);
    }
  }

  /** Two rows' worth of VF updates are one update with the disjunction. */
  lemma RaiseTwice(v: seq<bv8>, v1: seq<bv8>, p: bool, q: bool, r: bool)
    requires |v| == 16 && v1 == v[FLAG := Raise(v[FLAG], p)] && r == (p || q)
    ensures v1[FLAG := Raise(v1[FLAG], q)] == v[FLAG := Raise(v[FLAG], r)]
  {
  }

  /** A sweep sets VF iff some mask overlaps a lit pixel, leaves the other
      registers alone, and XORs every mask into its scanline. */
  lemma {:induction false} SweepEffect(c: Canvas, ms: seq<bv64>, top: nat, lo: nat)
    requires Fits(c) && |ms| <= Room(SCANLINES, top)
    ensures Sweep(c, ms, top, lo)
         == Canvas(c.v[FLAG := Raise(c.v[FLAG], Collides(c.gfx, ms, top, lo))], Toggled(c.gfx, ms, top, lo))
    decreases |ms| - lo
  {
    if lo >= |ms| {
      assert Raise(c.v[FLAG], false) == c.v[FLAG];
    } else {
      SweepStep(c, ms, top, lo);
      var c1 := PlotRow(c, top + lo, ms[lo]);
      SweepEffect(c1, ms, top, lo + 1);
      CollidesFrame(c1.gfx, c.gfx, ms, top, lo + 1);
      RaiseTwice(c.v, c1.v, Overlaps(c.gfx[top + lo], ms[lo]), Collides(c1.gfx, ms, top, lo + 1), Collides(c.gfx, ms, top, lo));
    }
  }

  /** One more mask of a sweep. */
  lemma SweepStep(c: Canvas, ms: seq<bv64>, top: nat, lo: nat)
    requires Fits(c) && |ms| <= Room(SCANLINES, top) && lo < |ms|
    ensures top + lo < SCANLINES
    ensures Sweep(c, ms, top, lo) == Sweep(PlotRow(c, top + lo, ms[lo]), ms, top, lo + 1)
  {
  }

  /** One more row of the loop, when the row is inside the clipping limit. */
  lemma DrawRowsStep(c: Canvas, mem: seq<bv8>, index: u16, x: nat, y: nat, row: nat, n: nat,
                     vx: bv8, vy: bv8, ms: seq<bv64>)
    requires Fits(c) && |mem| == MEM_SIZE && x < 16 && y < 16 && y != FLAG
    requires c.v[x] == vx && c.v[y] == vy
    requires ms == Masks(mem, index, vx, Limit(index, vy, n)) && row < |ms|
    ensures vy as int + row < SCANLINES
    ensures DrawRows(c, mem, index, x, y, row, n)
         == DrawRows(PlotRow(c, vy as int + row, ms[row]), mem, index, x, y, row + 1, n)
  {
    DrawRowPlain(c, mem, index, x, y, row);
  }

  /** With Y other than F, a row is tested and toggled on the same scanline. */
  lemma DrawRowPlain(c: Canvas, mem: seq<bv8>, index: u16, x: nat, y: nat, row: nat)
    requires Fits(c) && |mem| == MEM_SIZE && x < 16 && y < 16 && y != FLAG
    requires index + row < MEM_SIZE && c.v[y] as int + row < SCANLINES
    ensures DrawRow(c, mem, index, x, y, row)
         == PlotRow(c, c.v[y] as int + row, SpriteMask(mem[index + row], c.v[x]))
  {
  }

  /** The loop stops at the clipping limit. */
  lemma DrawRowsStop(c: Canvas, mem: seq<bv8>, index: u16, x: nat, y: nat, row: nat, n: nat)
    requires Fits(c) && |mem| == MEM_SIZE && x < 16 && y < 16
    requires row == Limit(index, c.v[y], n)
    ensures DrawRows(c, mem, index, x, y, row, n) == c
  {
  }

  /** The setting of a sweep: neither X nor Y is F, they hold vx and vy, and
      ms are the masks of the rows that survive clipping. */
  predicate Plain(c: Canvas, mem: seq<bv8>, index: u16, x: nat, y: nat, n: nat, vx: bv8, vy: bv8, ms: seq<bv64>)
  {
    Fits(c) && |mem| == MEM_SIZE && x < 16 && y < 16 && x != FLAG && y != FLAG
    && c.v[x] == vx && c.v[y] == vy && ms == Masks(mem, index, vx, Limit(index, vy, n))
  }

  /** When neither X nor Y is F, the sprite loop is the sweep of the masks of
      the rows that survive clipping. */
  lemma {:induction false} DrawRowsSweep(c: Canvas, mem: seq<bv8>, index: u16, x: nat, y: nat, row: nat, n: nat,
                                         vx: bv8, vy: bv8, ms: seq<bv64>)
    requires Plain(c, mem, index, x, y, n, vx, vy, ms) && row <= |ms|
    ensures DrawRows(c, mem, index, x, y, row, n) == Sweep(c, ms, vy as int, row)
    decreases n - row
  {
    if row == |ms| {
      DrawRowsStop(c, mem, index, x, y, row, n);
    } else {
      var c1 := PlotRow(c, vy as int + row, ms[row]);
      SweepBoth(c, mem, index, x, y, row, n, vx, vy, ms);
      DrawRowsSweep(c1, mem, index, x, y, row + 1, n, vx, vy, ms);
    }
  }

  /** One row of the loop is one mask of the sweep, and keeps the setting. */
  lemma SweepBoth(c: Canvas, mem: seq<bv8>, index: u16, x: nat, y: nat, row: nat, n: nat,
                  vx: bv8, vy: bv8, ms: seq<bv64>)
    requires Plain(c, mem, index, x, y, n, vx, vy, ms) && row < |ms|
    ensures vy as int + row < SCANLINES
    ensures Plain(PlotRow(c, vy as int + row, ms[row]), mem, index, x, y, n, vx, vy, ms)
    ensures DrawRows(c, mem, index, x, y, row, n)
         == DrawRows(PlotRow(c, vy as int + row, ms[row]), mem, index, x, y, row + 1, n)
    ensures Sweep(c, ms, vy as int, row) == Sweep(PlotRow(c, vy as int + row, ms[row]), ms, vy as int, row + 1)
  {
    DrawRowsStep(c, mem, index, x, y, row, n, vx, vy, ms);
    SweepStep(c, ms, vy as int, row);
  }

  /** DXYN with neither X nor Y equal to F: VF is 1 iff some drawn row overlaps
      a lit pixel, the other registers keep their values, and the framebuffer
      gains the XOR of the rows that survive clipping. */
  lemma DrawEffect(c: Canvas, mem: seq<bv8>, index: u16, x: nat, y: nat, n: nat)
    requires Fits(c) && |mem| == MEM_SIZE && x < 16 && y < 16
    requires x != FLAG && y != FLAG
    ensures var ms := Masks(mem, index, c.v[x], Limit(index, c.v[y], n));
      Draw(c, mem, index, x, y, n)
      == Canvas(c.v[FLAG := FlagOf(Collides(c.gfx, ms, c.v[y] as int, 0))], Toggled(c.gfx, ms, c.v[y] as int, 0))
  {
    var ms := Masks(mem, index, c.v[x], Limit(index, c.v[y], n));
    var c0 := Canvas(c.v[FLAG := 0], c.gfx);
    assert Plain(c0, mem, index, x, y, n, c.v[x], c.v[y], ms);
    DrawRowsSweep(c0, mem, index, x, y, 0, n, c.v[x], c.v[y], ms);
    SweepEffect(c0, ms, c.v[y] as int, 0);
    assert c0.v[FLAG := Raise(0, Collides(c.gfx, ms, c.v[y] as int, 0))]
        == c.v[FLAG := FlagOf(Collides(c.gfx, ms, c.v[y] as int, 0))];
  }

  /** DXYN with Y equal to F and a one-row sprite: VF is cleared before VY is
      read, so the collision is tested against scanline 0, but the mask is then
      XORed into scanline VF, which is 1 when that test found a lit pixel. */
  lemma DrawWithFlagAsY(c: Canvas, mem: seq<bv8>, index: u16, x: nat)
    requires Fits(c) && |mem| == MEM_SIZE && x < 16 && x != FLAG && index < MEM_SIZE
    ensures var mask := SpriteMask(mem[index], c.v[x]);
      var f := FlagOf(Overlaps(c.gfx[0], mask));
      Draw(c, mem, index, x, FLAG, 1)
      == Canvas(c.v[FLAG := f], c.gfx[f as int := Xor(c.gfx[f as int], mask)])
  {
    var mask := SpriteMask(mem[index], c.v[x]);
    var c0 := Canvas(c.v[FLAG := 0], c.gfx);
    var c1 := Collide(c0, 0, mask);
    assert c1.v[FLAG] == FlagOf(Overlaps(c.gfx[0], mask));
    assert DrawRows(c0, mem, index, x, FLAG, 0, 1) == DrawRows(Toggle(c1, c1.v[FLAG] as int, mask), mem, index, x, FLAG, 1, 1);
  }

  lemma XorTwice(a: bv64, m: bv64)
    ensures Xor(Xor(a, m), m) == a
  {
  }

  /** Toggling the same masks twice gives the framebuffer back. */
  lemma ToggledTwice(gfx: seq<bv64>, ms: seq<bv64>, top: nat)
    requires |gfx| == SCANLINES && |ms| <= Room(SCANLINES, top)
    ensures Toggled(Toggled(gfx, ms, top, 0), ms, top, 0) == gfx
  {
    var g1 := Toggled(gfx, ms, top, 0);
    var g2 := Toggled(g1, ms, top, 0);
    forall l | 0 <= l < SCANLINES
      ensures g2[l] == gfx[l]
    {
      ToggledAt(gfx, ms, top, 0, l);
      ToggledAt(g1, ms, top, 0, l);
      if top <= l < top + |ms| {
        XorTwice(gfx[l], ms[l - top]);
      }
    }
  }

  /** Drawing the same sprite at the same place twice erases it: the framebuffer
      is back to what it was (the usual way CHIP-8 programs move a sprite). */
  lemma DrawTwice(c: Canvas, mem: seq<bv8>, index: u16, x: nat, y: nat, n: nat)
    requires Fits(c) && |mem| == MEM_SIZE && x < 16 && y < 16
    requires x != FLAG && y != FLAG
    ensures Draw(Draw(c, mem, index, x, y, n), mem, index, x, y, n).gfx == c.gfx
  {
    var ms := Masks(mem, index, c.v[x], Limit(index, c.v[y], n));
    DrawEffect(c, mem, index, x, y, n);
    var c1 := Draw(c, mem, index, x, y, n);
    assert c1.v[x] == c.v[x] && c1.v[y] == c.v[y];
    DrawEffect(c1, mem, index, x, y, n);
    ToggledTwice(c.gfx, ms, c.v[y] as int);
  }

  /** On a blank screen nothing collides, so VF ends up 0. */
  lemma {:induction false} BlankNoCollision(ms: seq<bv64>, top: nat, lo: nat)
    requires |ms| <= Room(SCANLINES, top)
    ensures !Collides(seq(SCANLINES, _ => 0), ms, top, lo)
    decreases |ms| - lo
  {
    if lo < |ms| {
      BlankNoCollision(ms, top, lo + 1);
    }
  }

  /** Collides, stated directly: some mask overlaps a lit pixel of its scanline. */
  lemma {:induction false} CollidesIff(gfx: seq<bv64>, ms: seq<bv64>, top: nat, lo: nat)
    requires |gfx| == SCANLINES && |ms| <= Room(SCANLINES, top)
    ensures Collides(gfx, ms, top, lo) <==> exists r :: lo <= r < |ms| && Overlaps(gfx[top + r], ms[r])
    decreases |ms| - lo
  {
    if lo < |ms| {
      CollidesIff(gfx, ms, top, lo + 1);
    }
  }

  lemma XorLights(line: bv64, mask: bv64)
    requires !Overlaps(line, mask) && mask != 0
    ensures Overlaps(Xor(line, mask), mask)
  {
  }

  /** A sweep that hit nothing, repeated, hits its own pixels as soon as one
      mask is not empty. */
  lemma SweepAgainCollides(gfx: seq<bv64>, ms: seq<bv64>, top: nat, r: nat)
    requires |gfx| == SCANLINES && |ms| <= Room(SCANLINES, top)
    requires !Collides(gfx, ms, top, 0) && r < |ms| && ms[r] != 0
    ensures Collides(Toggled(gfx, ms, top, 0), ms, top, 0)
  {
    CollidesIff(gfx, ms, top, 0);
    assert !Overlaps(gfx[top + r], ms[r]);
    ToggledAt(gfx, ms, top, 0, top + r);
    XorLights(gfx[top + r], ms[r]);
    CollidesIff(Toggled(gfx, ms, top, 0), ms, top, 0);
  }

  /** The second of two identical draws reports a collision when the first did
      not and one of the drawn rows has a lit pixel. */
  lemma DrawTwiceCollides(c: Canvas, mem: seq<bv8>, index: u16, x: nat, y: nat, n: nat, r: nat)
    requires Fits(c) && |mem| == MEM_SIZE && x < 16 && y < 16
    requires x != FLAG && y != FLAG
    requires Draw(c, mem, index, x, y, n).v[FLAG] == 0
    requires r < Limit(index, c.v[y], n) && SpriteMask(mem[index + r], c.v[x]) != 0
    ensures Draw(Draw(c, mem, index, x, y, n), mem, index, x, y, n).v[FLAG] == 1
  {
    var ms := Masks(mem, index, c.v[x], Limit(index, c.v[y], n));
    DrawEffect(c, mem, index, x, y, n);
    var c1 := Draw(c, mem, index, x, y, n);
    assert c1.v[x] == c.v[x] && c1.v[y] == c.v[y];
    DrawEffect(c1, mem, index, x, y, n);
    SweepAgainCollides(c.gfx, ms, c.v[y] as int, r);
  }
}

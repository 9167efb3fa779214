/** The pseudo-random generator behind CXNN (include/chip8.hpp:53-57): a linear
    congruential generator on a 32-bit unsigned state, seeded with a fixed
    constant, whose output byte is bits 24-31 of the new state. */
module Lcg {

  const SEED: bv32 := 1103515245
  const MULTIPLIER: bv32 := 1103515245
  const INCREMENT: bv32 := 12345

  /** One step of the generator; `bv32` arithmetic is the source's `uint32_t` wrap-around. */
  function Next(x: bv32): bv32
  {
    x * MULTIPLIER + INCREMENT
  }

  /** The byte a state yields: its top eight bits. */
  function Output(x: bv32): (b: bv8)
    ensures b as bv32 << 24 == x & 0xFF00_0000
  {
    ((x >> 24) & 0xFF) as bv8
  }

  /** The bytes of the next k calls of `Random` from state x. */
  function Bytes(x: bv32, k: nat): (r: seq<bv8>)
    ensures |r| == k
    ensures k > 0 ==> r[0] == Output(Next(x))
    decreases k
  {
    if k == 0 then [] else [Output(Next(x))] + Bytes(Next(x), k - 1)
  }

  /** The state after k calls of `Random` from state x. */
  function After(x: bv32, k: nat): bv32
    decreases k
  {
    if k == 0 then x else After(Next(x), k - 1)
  }

  /** Splitting a run of calls: the bytes of i + j calls are those of the first
      i calls followed by those of j calls from the state the first i leave. */
  lemma {:induction false} BytesSplit(x: bv32, i: nat, j: nat)
    ensures Bytes(x, i + j) == Bytes(x, i) + Bytes(After(x, i), j)
    decreases i
  {
    if i > 0 {
      BytesSplit(Next(x), i - 1, j);
      Associative([Output(Next(x))], Bytes(Next(x), i - 1), Bytes(After(Next(x), i - 1), j));
    }
  }

  lemma Associative(a: seq<bv8>, b: seq<bv8>, c: seq<bv8>)
    ensures a + (b + c) == (a + b) + c
  {
  }

  /** The fixed seed makes the stream reproducible: these are its first six bytes. */
  lemma FirstBytes()
    ensures Bytes(SEED, 6) == [0xC2, 0x54, 0x95, 0xC2, 0xE1, 0x5D]
  {
    var s1 := Next(SEED);
    assert s1 == 0xC2A2_CAA2;
    var s2 := Next(s1);
    assert s2 == 0x5459_D333;
    var s3 := Next(s2);
    assert s3 == 0x950A_A6F0;
    var s4 := Next(s3);
    assert s4 == 0xC206_6469;
    var s5 := Next(s4);
    assert s5 == 0xE186_EEEE;
    var s6 := Next(s5);
    assert s6 == 0x5D54_6F8F;
    assert Bytes(s6, 0) == [];
    assert Bytes(s5, 1) == [0x5D];
    assert Bytes(s4, 2) == [0xE1, 0x5D];
    assert Bytes(s3, 3) == [0xC2, 0xE1, 0x5D];
    assert Bytes(s2, 4) == [0x95, 0xC2, 0xE1, 0x5D];
    assert Bytes(s1, 5) == [0x54, 0x95, 0xC2, 0xE1, 0x5D];
  }
}

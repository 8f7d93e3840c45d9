/** The 128-bit block of the protocol and the XOR algebra every layer rests on.

A block is its bits, least significant first: bit `i` is bit `i % 8` of byte `i / 8`.
The source masks a block with an all-ones or all-zeros block chosen by a bit
(`select_block(bit).and(x)`); that is `Select(bit, x)` here. */
module Blocks {
  const BLOCK_BITS: nat := 128

  datatype Role = Alice | Bob

  function NoBits(n: nat): (r: seq<bool>)
    ensures |r| == n && forall i :: 0 <= i < n ==> !r[i]
  {
    seq(n, _ => false)
  }

  type Block = s: seq<bool> | |s| == BLOCK_BITS witness NoBits(BLOCK_BITS)

  const ZERO: Block := NoBits(BLOCK_BITS)

  /** bit0_mask */
  const BIT0: Block := NoBits(BLOCK_BITS)[0 := true]

  function Xor(a: Block, b: Block): Block {
    seq(BLOCK_BITS, i requires 0 <= i < BLOCK_BITS => a[i] != b[i])
  }

  function Select(bit: bool, x: Block): Block {
    if bit then x else ZERO
  }

  /** block_lsb: bit 0, the share carried by a MAC. */
  predicate Lsb(x: Block) { x[0] }

  /** block_lsb1: bit 1, which only Alice's Δ sets. */
  predicate Lsb1(x: Block) { x[1] }

  lemma XorGroup(a: Block, b: Block, c: Block)
    ensures Xor(a, b) == Xor(b, a)
    ensures Xor(Xor(a, b), c) == Xor(a, Xor(b, c))
    ensures Xor(a, ZERO) == a && Xor(ZERO, a) == a
    ensures Xor(a, a) == ZERO
  {
    assert forall i | 0 <= i < BLOCK_BITS :: Xor(Xor(a, b), c)[i] == Xor(a, Xor(b, c))[i];
  }

  /** XOR-ing the same block twice gives the first one back, on either side. */
  lemma XorCancel(a: Block, b: Block)
    ensures Xor(Xor(a, b), b) == a
    ensures Xor(b, Xor(b, a)) == a
    ensures Xor(a, b) == ZERO <==> a == b
  {
    if Xor(a, b) == ZERO {
      forall i | 0 <= i < BLOCK_BITS ensures a[i] == b[i] {
        assert Xor(a, b)[i] == ZERO[i];
      }
    }
  }

  /** (a + b) + (c + d) == (a + c) + (b + d) */
  lemma XorSwap(a: Block, b: Block, c: Block, d: Block)
    ensures Xor(Xor(a, b), Xor(c, d)) == Xor(Xor(a, c), Xor(b, d))
  {
    assert forall i | 0 <= i < BLOCK_BITS ::
      Xor(Xor(a, b), Xor(c, d))[i] == Xor(Xor(a, c), Xor(b, d))[i];
  }

  lemma SelectLinear(p: bool, q: bool, x: Block, y: Block)
    ensures Xor(Select(p, x), Select(q, x)) == Select(p != q, x)
    ensures Xor(Select(p, x), Select(p, y)) == Select(p, Xor(x, y))
    ensures Select(p, Select(q, x)) == Select(p && q, x)
  {
    XorGroup(x, y, y);
    XorGroup(ZERO, x, x);
  }
}

/** BOLT #3 per-commitment secrets. A value is 32 bytes, held as its bits, least significant first in each byte. */
module Shachain {
  import opened Blocks
  import opened Masks

  const VALUE_BITS: nat := 256
  const INDEX_BITS: nat := 48
  const MAX_INDEX: nat := 0xffff_ffff_ffff

  type Value = s: seq<bool> | |s| == VALUE_BITS witness NoBits(VALUE_BITS)

  /** p[b / 8] ^= 1 << (b % 8) */
  function Flip(v: Value, b: nat): Value
    requires b < VALUE_BITS
  {
    v[b := !v[b]]
  }

  /** Hashing down `bits` from `v`, in order. */
  function Chain(hash: Value -> Value, v: Value, bits: seq<nat>): Value
    requires forall i :: 0 <= i < |bits| ==> bits[i] < VALUE_BITS
  {
    if bits == [] then v
    else hash(Flip(Chain(hash, v, bits[..|bits| - 1]), bits[|bits| - 1]))
  }

  lemma IndexWidth()
    ensures Pow2(INDEX_BITS) == MAX_INDEX + 1
  {
    assert Pow2(8) == 0x100;
    assert Pow2(16) == 0x1_0000;
    assert Pow2(24) == 0x100_0000;
    assert Pow2(32) == 0x1_0000_0000;
    assert Pow2(40) == 0x100_0000_0000;
  }

  predicate Indices(bits: seq<nat>) {
    forall i :: 0 <= i < |bits| ==> bits[i] < INDEX_BITS
  }

  lemma IndexBits(index: nat)
    requires index <= MAX_INDEX
    ensures BitsBelow(index, INDEX_BITS) == SetBits(index) && Indices(SetBits(index))
  {
    IndexWidth();
    CountdownFindsBits(index, INDEX_BITS);
    BitsBelowBound(index, INDEX_BITS);
  }

  /** The secret of an index: its set bits flipped and hashed from the highest down. */
  function Secret(hash: Value -> Value, seed: Value, index: nat): Value
    requires index <= MAX_INDEX
  {
    IndexBits(index);
    Chain(hash, seed, SetBits(index))
  }

  lemma ChainStep(hash: Value -> Value, v: Value, bits: seq<nat>, b: nat)
    requires b < VALUE_BITS && forall i :: 0 <= i < |bits| ==> bits[i] < VALUE_BITS
    ensures forall i :: 0 <= i < |bits + [b]| ==> (bits + [b])[i] < VALUE_BITS
    ensures Chain(hash, v, bits + [b]) == hash(Flip(Chain(hash, v, bits), b))
  {
    assert (bits + [b])[..|bits|] == bits;
  }

  /** The bits a countdown has passed when it is about to look at bit `b`. */
  ghost predicate Passed(index: nat, b: nat, done: seq<nat>) {
    b <= INDEX_BITS && Indices(done) && done + BitsBelow(index, b) == BitsBelow(index, INDEX_BITS)
  }

  lemma PassOne(index: nat, b: nat, done: seq<nat>)
    requires Passed(index, b + 1, done)
    ensures Passed(index, b, if Bit(index, b) then done + [b] else done)
  {
    if Bit(index, b) {
      assert done + ([b] + BitsBelow(index, b)) == (done + [b]) + BitsBelow(index, b);
    } else {
      assert [] + BitsBelow(index, b) == BitsBelow(index, b);
    }
  }

  /** generate_from_seed */
  method GenerateFromSeed(hash: Value -> Value, seed: Value, index: nat) returns (p: Value)
    requires index <= MAX_INDEX
    ensures p == Secret(hash, seed, index)
  {
    hide SetBits, BitsBelow, Bit, Flip;
    p := seed;
    ghost var done: seq<nat> := [];
    assert [] + BitsBelow(index, INDEX_BITS) == BitsBelow(index, INDEX_BITS);
    for b := INDEX_BITS downto 0
      invariant Passed(index, b, done) && p == Chain(hash, seed, done)
    {
      PassOne(index, b, done);
      if Bit(index, b) {
        ChainStep(hash, seed, done, b);
        p := hash(Flip(p, b));
        done := done + [b];
      }
    }
    IndexBits(index);
    NothingBelow(index);
    assert done + [] == done;
  }

  /** set_bits_desc */
  method SetBitsDesc(n: nat) returns (bits: seq<nat>)
    requires n <= MAX_INDEX
    ensures bits == SetBits(n) && Indices(bits) && |bits| <= INDEX_BITS
  {
    hide SetBits, BitsBelow, Bit;
    bits := [];
    assert [] + BitsBelow(n, INDEX_BITS) == BitsBelow(n, INDEX_BITS);
    for b := INDEX_BITS downto 0
      invariant Passed(n, b, bits) && |bits| <= INDEX_BITS - b
    {
      PassOne(n, b, bits);
      if Bit(n, b) {
        bits := bits + [b];
      }
    }
    IndexBits(n);
    NothingBelow(n);
    assert bits + [] == bits;
  }

  lemma NothingBelow(index: nat)
    ensures BitsBelow(index, 0) == []
  {
  }

  /** Hashing down two runs of bits is hashing down one after the other. */
  lemma {:induction false} ChainAppend(hash: Value -> Value, v: Value, a: seq<nat>, b: seq<nat>)
    requires forall i :: 0 <= i < |a| ==> a[i] < VALUE_BITS
    requires forall i :: 0 <= i < |b| ==> b[i] < VALUE_BITS
    ensures forall i :: 0 <= i < |a + b| ==> (a + b)[i] < VALUE_BITS
    ensures Chain(hash, v, a + b) == Chain(hash, Chain(hash, v, a), b)
  {
    if b == [] {
      assert a + b == a;
    } else {
      var m := |b| - 1;
      ChainAppend(hash, v, a, b[..m]);
      assert (a + b)[..|a + b| - 1] == a + b[..m];
    }
  }

  /** A secret follows from the one whose index lacks its lowest set bit. */
  lemma SecretFromParent(hash: Value -> Value, seed: Value, index: nat)
    requires 0 < index <= MAX_INDEX
    ensures Tz(index) < INDEX_BITS
    ensures Secret(hash, seed, index) == hash(Flip(Secret(hash, seed, ClearLow(index)), Tz(index)))
  {
    IndexWidth();
    TzBound(index, INDEX_BITS);
    IndexBits(index);
    var bits := SetBits(index);
    assert bits[..|bits| - 1] == SetBits(ClearLow(index));
  }
}

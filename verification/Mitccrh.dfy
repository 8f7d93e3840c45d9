/** The batched circular-correlation-robust hash.

Its key schedule renews eight slots at a time. */
module Mitccrh {
  import opened Blocks

  /** Mitccrh8: each renewal schedules eight key slots, all derived from one bucket number.
  `cipher(b, x)` stands for AES under the key of bucket `b` applied to `x`, XOR `x`;
  `sigma` is the linear orthomorphism applied first in the circular form. */
  class Mitccrh8 {
    const cipher: (nat, Block) -> Block
    const sigma: Block -> Block
    var gid: nat
    var keyUsed: nat
    var bucket: nat
    /** Key slots handed out so far. */
    ghost var drawn: nat

    /** Every slot drawn is accounted for. */
    ghost predicate Counted()
      reads this
    {
      && gid % 8 == 0
      && drawn + 8 == gid + keyUsed
      && (if gid > 0 then bucket == gid / 8 - 1 else keyUsed == 8)
    }

    /** ... and no call has run past the end of a bucket. */
    ghost predicate Valid()
      reads this
    {
      Counted() && keyUsed <= 8
    }

    constructor (cipher: (nat, Block) -> Block, sigma: Block -> Block)
      ensures Valid() && drawn == 0
      ensures this.cipher == cipher && this.sigma == sigma
    {
      this.cipher, this.sigma := cipher, sigma;
      gid, keyUsed, bucket := 0, 8, 0;
      drawn := 0;
    }

    /** renew_ks: the first and last of the eight slots always fall into one bucket. */
    method RenewKeys()
      requires Valid() && keyUsed == 8
      modifies this`gid, this`bucket, this`keyUsed
      ensures Valid() && keyUsed == 0 && gid == old(gid) + 8 && drawn == old(drawn)
    {
      var first, last := gid / 8, (gid + 7) / 8;
      assert first == last;
      bucket := first;
      gid := gid + 8;
      keyUsed := 0;
    }

    /** hash_inner, whatever `k` the earlier calls had. The counter is compared with 8 for equality only: a call that
    starts inside a bucket and runs past its end is the last one to be followed by a renewal, and every later call is
    hashed under the same bucket for good. Up to there each call gets the bucket of its first slot. */
    method HashInner(blocks: seq<Block>, k: nat, h: nat, cir: bool) returns (out: seq<Block>)
      requires Counted() && DividesEight(k) && |blocks| == k * h
      modifies this
      ensures Counted() && drawn == old(drawn) + k && |out| == |blocks|
      ensures forall i :: 0 <= i < |blocks| ==>
        out[i] == cipher(if old(Valid()) then old(drawn) / 8 else old(bucket), if cir then sigma(blocks[i]) else blocks[i])
      ensures Valid() <==> old(Valid()) && old(drawn) % 8 + k <= 8
      ensures !old(Valid()) ==> bucket == old(bucket)
    {
      if keyUsed == 8 {
        RenewKeys();
      }
      out := blocks;
      for i := 0 to |blocks|
        invariant |out| == |blocks|
        invariant forall j :: 0 <= j < i ==>
          out[j] == cipher(bucket, if cir then sigma(blocks[j]) else blocks[j])
        invariant forall j :: i <= j < |blocks| ==> out[j] == blocks[j]
      {
        var input := if cir then sigma(out[i]) else out[i];
        out := out[i := cipher(bucket, input)];
      }
      keyUsed := keyUsed + k;
      drawn := drawn + k;
    }

    /** hash and hash_cir with a fixed `k`: the call that starts at key slot `d`
    hashes every block with the key of bucket `d / 8`, and no call ever runs past a bucket. */
    method Hash(blocks: seq<Block>, k: nat, h: nat, cir: bool) returns (out: seq<Block>)
      requires Valid() && DividesEight(k) && |blocks| == k * h
      requires Multiple(drawn, k)
      modifies this
      ensures Valid() && drawn == old(drawn) + k && Multiple(drawn, k)
      ensures |out| == |blocks|
      ensures forall i :: 0 <= i < |blocks| ==>
        out[i] == cipher(old(drawn) / 8, if cir then sigma(blocks[i]) else blocks[i])
    {
      Room(gid, keyUsed, drawn, k);
      out := HashInner(blocks, k, h, cir);
    }

    /** A call never straddles two buckets when every call uses the same divisor of 8. */
    static lemma Room(gid: nat, keyUsed: nat, drawn: nat, k: nat)
      requires DividesEight(k) && keyUsed <= 8 && gid % 8 == 0 && drawn + 8 == gid + keyUsed && Multiple(drawn, k)
      ensures drawn % 8 + k <= 8
      ensures Multiple(drawn + k, k)
    {
      var group := gid / 8;
      match k
      case 1 =>
      case 2 => RoomForTwo(group, keyUsed, drawn);
      case 4 => RoomForFour(group, keyUsed, drawn);
      case 8 => RoomForEight(group, keyUsed, drawn);
    }
  }

  /** One slot, then eight: the second call runs past the first bucket, and a third one that starts at slot 9 is still
  hashed under bucket 0. */
  method MixedCallsStopRenewal(cipher: (nat, Block) -> Block, sigma: Block -> Block, x: Block) returns (out: seq<Block>)
    ensures out == [cipher(0, x)]
  {
    var m := new Mitccrh8(cipher, sigma);
    out := m.HashInner([x], 1, 1, false);
    out := m.HashInner([x, x, x, x, x, x, x, x], 8, 1, false);
    assert m.drawn == 9 && !m.Valid();
    out := m.HashInner([x], 1, 1, false);
  }

  lemma RoomForTwo(group: nat, keyUsed: nat, drawn: nat)
    requires keyUsed <= 8 && drawn + 8 == 8 * group + keyUsed && drawn % 2 == 0
    ensures keyUsed <= 6 || keyUsed == 8
    ensures (drawn + 2) % 2 == 0
  {
    assert keyUsed == 2 * (drawn / 2 + 4 - 4 * group);
  }

  lemma RoomForFour(group: nat, keyUsed: nat, drawn: nat)
    requires keyUsed <= 8 && drawn + 8 == 8 * group + keyUsed && drawn % 4 == 0
    ensures keyUsed <= 4 || keyUsed == 8
    ensures (drawn + 4) % 4 == 0
  {
    assert keyUsed == 4 * (drawn / 4 + 2 - 2 * group);
  }

  lemma RoomForEight(group: nat, keyUsed: nat, drawn: nat)
    requires keyUsed <= 8 && drawn + 8 == 8 * group + keyUsed && drawn % 8 == 0
    ensures keyUsed == 0 || keyUsed == 8
    ensures (drawn + 8) % 8 == 0
  {
    assert keyUsed == 8 * (drawn / 8 + 1 - group);
  }

  /** The hash asserts that `k` divides the eight key slots. */
  predicate DividesEight(k: nat) {
    k == 1 || k == 2 || k == 4 || k == 8
  }

  /** `n` is a multiple of one of those `k`. */
  predicate Multiple(n: nat, k: nat) {
    if k == 2 then n % 2 == 0 else if k == 4 then n % 4 == 0 else if k == 8 then n % 8 == 0 else true
  }
}

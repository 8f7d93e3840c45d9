/** Cutting one derivation into circuits: chunks of hash steps run one after the other. */
module DerivationPlans {
  import opened Masks
  import opened Shachain
  import opened Circuits
  import opened ChainCircuits

  function Flatten(groups: seq<seq<nat>>): seq<nat> {
    if groups == [] then [] else Flatten(groups[..|groups| - 1]) + groups[|groups| - 1]
  }

  /** `groups` cut into runs of `size` bits; only the last one may be shorter. */
  predicate Cut(groups: seq<seq<nat>>, size: nat) {
    && groups != [] && |groups[|groups| - 1]| <= size
    && (forall i :: 0 <= i < |groups| - 1 ==> |groups[i]| == size)
    && (|groups| > 1 ==> groups[|groups| - 1] != [])
  }

  datatype Split = Groups(groups: seq<seq<nat>>) | BadChunkSize | IndexTooLarge

  lemma FlattenPush(groups: seq<seq<nat>>, bit: nat)
    requires groups != []
    ensures Flatten(groups + [[bit]]) == Flatten(groups) + [bit]
    ensures var m := |groups| - 1; Flatten(groups[m := groups[m] + [bit]]) == Flatten(groups) + [bit]
  {
    var m := |groups| - 1;
    assert (groups + [[bit]])[..m + 1] == groups;
    assert groups[m := groups[m] + [bit]][..m] == groups[..m];
    assert Flatten(groups[..m]) + (groups[m] + [bit]) == (Flatten(groups[..m]) + groups[m]) + [bit];
  }

  /** split_chain_bits: every set bit once, in the order of the derivation, `size` to a group. */
  method SplitChainBits(index: nat, size: nat) returns (r: Split)
    ensures size < 1 ==> r == BadChunkSize
    ensures size >= 1 && index > MAX_INDEX ==> r == IndexTooLarge
    ensures size >= 1 && index <= MAX_INDEX ==> r.Groups? && Cut(r.groups, size) && Flatten(r.groups) == SetBits(index)
  {
    if size < 1 {
      return BadChunkSize;
    }
    if index > MAX_INDEX {
      return IndexTooLarge;
    }
    hide SetBits, BitsBelow, Bit, Flatten;
    var groups: seq<seq<nat>> := [[]];
    EmptyFlat();
    assert [] + BitsBelow(index, INDEX_BITS) == BitsBelow(index, INDEX_BITS);
    for bit := INDEX_BITS downto 0
      invariant Cut(groups, size) && Passed(index, bit, Flatten(groups))
    {
      PassOne(index, bit, Flatten(groups));
      if Bit(index, bit) {
        FlattenPush(groups, bit);
        var m := |groups| - 1;
        if groups[m] != [] && |groups[m]| == size {
          groups := groups + [[bit]];
        } else {
          groups := groups[m := groups[m] + [bit]];
        }
      }
    }
    IndexBits(index);
    NothingBelow(index);
    assert Flatten(groups) + [] == Flatten(groups);
    return Groups(groups);
  }

  lemma EmptyFlat()
    ensures Flatten([[]]) == []
  {
    var groups: seq<seq<nat>> := [[]];
    assert groups[..0] == [];
  }

  /** The number of groups: as few as hold the index's bits, and one for an index without any. */
  lemma {:induction false} GroupCount(groups: seq<seq<nat>>, size: nat)
    requires Cut(groups, size)
    ensures |Flatten(groups)| == (|groups| - 1) * size + |groups[|groups| - 1]|
  {
    var m := |groups| - 1;
    if m > 0 {
      FullGroups(groups[..m], size);
    } else {
      assert groups[..0] == [];
    }
  }

  /** How many chunks of `size` bits hold so many. */
  function ChunkCount(bits: nat, size: nat): nat
    requires size > 0
  {
    if bits == 0 then 1 else (bits + size - 1) / size
  }

  lemma CountedGroups(groups: seq<seq<nat>>, size: nat)
    requires Cut(groups, size) && size > 0
    ensures |groups| == ChunkCount(|Flatten(groups)|, size)
  {
    hide Flatten;
    GroupCount(groups, size);
    var n, last := |groups|, |groups[|groups| - 1]|;
    if last > 0 {
      RoundedUp(n - 1, last, size);
    }
  }

  lemma RoundedUp(full: nat, rest: nat, size: nat)
    requires 0 < rest <= size
    ensures (full * size + rest + size - 1) / size == full + 1
  {
    assert full * size + rest + size - 1 == (full + 1) * size + (rest - 1);
    QuotientIs((full + 1) * size + (rest - 1), full + 1, rest - 1, size);
  }

  lemma QuotientIs(x: nat, q: nat, r: nat, size: nat)
    requires r < size && x == q * size + r
    ensures x / size == q
  {
    var p, s := x / size, x % size;
    assert x == p * size + s;
    assert p < q ==> (p + 1) * size <= q * size;
    assert q < p ==> (q + 1) * size <= p * size;
  }

  lemma {:induction false} FullGroups(groups: seq<seq<nat>>, size: nat)
    requires forall i :: 0 <= i < |groups| ==> |groups[i]| == size
    ensures |Flatten(groups)| == |groups| * size
  {
    if groups != [] {
      FullGroups(groups[..|groups| - 1], size);
    }
  }

  lemma {:induction false} GroupIndices(groups: seq<seq<nat>>, i: nat)
    requires Indices(Flatten(groups)) && i < |groups|
    ensures Indices(groups[i]) && Indices(Flatten(groups[..|groups| - 1]))
  {
    var m := |groups| - 1;
    var head := Flatten(groups[..m]);
    forall k | 0 <= k < |groups[m]|
      ensures groups[m][k] < INDEX_BITS
    {
      assert Flatten(groups)[|head| + k] == groups[m][k];
    }
    assert forall k :: 0 <= k < |head| ==> head[k] == Flatten(groups)[k];
    if i < m {
      GroupIndices(groups[..m], i);
    }
  }

  /** Running the chunk circuits one after the other: the first one on the two shares. */
  function RunChunks(sha: Circuit, groups: seq<seq<nat>>, x: seq<bool>): (out: seq<bool>)
    requires IsGadget(sha) && groups != [] && Indices(Flatten(groups)) && |x| == 2 * VALUE_BITS
    ensures |out| == VALUE_BITS
  {
    var m := |groups| - 1;
    GroupIndices(groups, m);
    GadgetInRange(sha);
    ChunkSound(sha, groups[m], m == 0);
    if m == 0 then Circuits.Eval(ChunkCircuit(sha, groups[0], true), x)
    else Circuits.Eval(ChunkCircuit(sha, groups[m], false), RunChunks(sha, groups[..m], x))
  }

  /** Chained chunk circuits compute the whole chain, however the bits are cut. */
  lemma {:induction false} ChunksCompute(sha: Circuit, groups: seq<seq<nat>>, x: seq<bool>)
    requires IsGadget(sha) && groups != [] && Indices(Flatten(groups)) && |x| == 2 * VALUE_BITS
    ensures RunChunks(sha, groups, x) == MsbFirst(Chain(GadgetHash(sha), Combined(x, true), Flatten(groups)))
  {
    hide ChunkCircuit, GadgetHash, MsbFirst, Chain, IsGadget, Circuits.Eval, XorHalves;
    var m := |groups| - 1;
    GroupIndices(groups, m);
    GadgetInRange(sha);
    if m == 0 {
      ChunkComputes(sha, groups[0], true, x);
      assert groups[..0] == [];
      assert [] + groups[0] == groups[0];
    } else {
      var y := RunChunks(sha, groups[..m], x);
      ChunksCompute(sha, groups[..m], x);
      ChunkComputes(sha, groups[m], false, y);
      var head := Flatten(groups[..m]);
      MsbFirstTwice(Chain(GadgetHash(sha), Combined(x, true), head));
      ChainAppend(GadgetHash(sha), Combined(x, true), head, groups[m]);
    }
  }

  /** The wires of the two seed shares, as a derivation's input. */
  function ShareWires(a: Value, b: Value): (x: seq<bool>)
    ensures |x| == 2 * VALUE_BITS
  {
    MsbFirst(a) + MsbFirst(b)
  }

  /** combine */
  function Combine(a: Value, b: Value): Value {
    seq(VALUE_BITS, i requires 0 <= i < VALUE_BITS => a[i] != b[i])
  }

  lemma CombinedShares(a: Value, b: Value)
    ensures Combined(ShareWires(a, b), true) == Combine(a, b)
  {
    var x := ShareWires(a, b);
    assert XorHalves(x) == MsbFirst(Combine(a, b)) by {
      assert forall i :: 0 <= i < VALUE_BITS ==> XorHalves(x)[i] == MsbFirst(Combine(a, b))[i];
    }
    MsbFirstTwice(Combine(a, b));
  }

  /** However an index is split, its chunk circuits turn the two shares of the seed into the secret. */
  lemma SplitComputesSecret(sha: Circuit, index: nat, groups: seq<seq<nat>>, a: Value, b: Value)
    requires IsGadget(sha) && index <= MAX_INDEX && groups != [] && Flatten(groups) == SetBits(index)
    ensures Indices(Flatten(groups))
    ensures RunChunks(sha, groups, ShareWires(a, b)) == MsbFirst(Secret(GadgetHash(sha), Combine(a, b), index))
  {
    hide ShareWires, Combine, Combined, SetBits, Chain, IsGadget, GadgetHash, MsbFirst;
    IndexBits(index);
    GadgetInRange(sha);
    ChunksCompute(sha, groups, ShareWires(a, b));
    CombinedShares(a, b);
  }

  /** So does the single circuit of build_derivation_circuit. */
  lemma DerivationComputesSecret(sha: Circuit, index: nat, a: Value, b: Value)
    requires IsGadget(sha) && index <= MAX_INDEX
    ensures Indices(SetBits(index)) && ChunkCircuit(sha, SetBits(index), true).InRange()
    ensures Circuits.Eval(ChunkCircuit(sha, SetBits(index), true), ShareWires(a, b)) ==
      MsbFirst(Secret(GadgetHash(sha), Combine(a, b), index))
  {
    hide ShareWires, Combine, Combined, SetBits, Chain, IsGadget, GadgetHash, MsbFirst, ChunkCircuit;
    IndexBits(index);
    GadgetInRange(sha);
    ChunkComputes(sha, SetBits(index), true, ShareWires(a, b));
    CombinedShares(a, b);
  }
}

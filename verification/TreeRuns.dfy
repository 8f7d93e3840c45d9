/** Whole ranges from a shared trunk, run as programs: branches from the trunk, or a tree of tiles below it. */
module TreeRuns {
  import opened Masks
  import opened Shachain
  import opened Prefixes
  import opened DerivationPlans
  import opened CircuitRuns
  import opened RangeCovers
  import opened Nodes

  datatype Cover = Covered(alice: seq<Value>, bob: seq<Value>) | EmptySet | IndexOver48 | BadRange | BadFanout | NoSharedTrunk

  /** The chunk size asked for, or all of an index's steps at once. */
  function ChunkSteps(asked: int): (size: nat)
    ensures size > 0
  {
    if asked > 0 then asked else INDEX_BITS
  }

  /** The programs of a trunk. */
  function TrunkRuns(base: nat, trunkChunk: int): nat {
    ChunkCount(|SetBits(base)|, ChunkSteps(trunkChunk))
  }

  /** The split is right above the highest bit in which two of the indices differ. */
  predicate SplitsAt(indices: seq<nat>, split: nat)
    requires indices != []
  {
    && split <= INDEX_BITS && (forall i :: 0 <= i < |indices| ==> Shr(indices[i], split) == Shr(indices[0], split))
    && (split > 0 ==> exists i :: 0 <= i < |indices| && Bit(indices[i], split - 1) != Bit(indices[0], split - 1))
  }

  predicate AllSecrets(hash: Value -> Value, seed: Value, indices: seq<nat>, values: seq<Value>)
    requires forall i :: 0 <= i < |indices| ==> indices[i] <= MAX_INDEX
  {
    |values| == |indices| && forall i :: 0 <= i < |indices| ==> values[i] == Secret(hash, seed, indices[i])
  }

  /** Indices with the same trunk. */
  ghost predicate Below(indices: seq<nat>, split: nat, base: nat) {
    base <= MAX_INDEX && forall i :: 0 <= i < |indices| ==> indices[i] <= MAX_INDEX && Trunk(indices[i], split) == base
  }

  lemma SameBelow(indices: seq<nat>, split: nat)
    requires indices != [] && forall i :: 0 <= i < |indices| ==> indices[i] <= MAX_INDEX && Shr(indices[i], split) == Shr(indices[0], split)
    ensures Below(indices, split, Trunk(indices[0], split))
  {
    hide Shr, Pow2;
    TrunkBound(indices[0], split);
  }

  /** The hash steps of branches: one for every bit below the trunk. */
  function BranchHashes(indices: seq<nat>, split: nat): nat {
    if indices == [] then 0
    else BranchHashes(indices[..|indices| - 1], split) + |SetBits(Low(indices[|indices| - 1], split))|
  }

  /** One branch per index, all run before any is revealed. */
  method Branches<D(==)>(e: Engine<D>, t: Node, indices: seq<nat>, split: nat, ghost base: nat, ghost seed: Value)
    returns (outs: seq<Node>, ghost values: seq<Value>)
    requires e.Valid() && Below(indices, split, base) && e.Holds(t, Secret(e.hash, seed, base))
    modifies e`runs, e`hashes, e.alice, e.bob
    ensures e.Valid() && e.AllShow(outs, values) && AllSecrets(e.hash, seed, indices, values)
    ensures e.runs == old(e.runs) + |indices| && e.hashes == old(e.hashes) + BranchHashes(indices, split)
  {
    hide Secret, SetBits, Chain, Low, Trunk, Engine.Valid, Engine.ChunkYields, Engine.TileYields, Engine.TrunkYields, Engine.Holds, Engine.Shows;
    outs, values := [], [];
    for i := 0 to |indices|
      invariant e.Valid() && |values| == i && e.AllShow(outs, values) && e.runs == old(e.runs) + i
      invariant e.hashes == old(e.hashes) + BranchHashes(indices[..i], split)
      invariant forall j :: 0 <= j < i ==> values[j] == Secret(e.hash, seed, indices[j])
    {
      BranchSecret(e.hash, seed, indices[i], split);
      var bits := SetBitsDesc(Low(indices[i], split));
      var out := e.Next(t, bits, Secret(e.hash, seed, base));
      assert indices[..i + 1][..i] == indices[..i];
      outs, values := outs + [out], values + [Secret(e.hash, seed, indices[i])];
    }
    assert indices[..|indices|] == indices;
  }

  /** The tree over a set of indices in range. */
  method TreeCover<D(==)>(e: Engine<D>, shareA: Value, shareB: Value, indices: seq<nat>, trunkChunk: int) returns (r: Cover, split: nat)
    requires e.Valid() && indices != [] && forall i :: 0 <= i < |indices| ==> indices[i] <= MAX_INDEX
    modifies e`runs, e`hashes, e`at, e.alice, e.bob
    ensures e.Valid() && SplitsAt(indices, split)
    ensures if Trunk(indices[0], split) == 0 then r == NoSharedTrunk
            else r.Covered? && r.alice == r.bob && AllSecrets(e.hash, Combine(shareA, shareB), indices, r.alice)
    ensures e.runs == old(e.runs) + if r.Covered? then TrunkRuns(Trunk(indices[0], split), trunkChunk) + |indices| else 0
    ensures e.hashes == old(e.hashes) + if r.Covered? then |SetBits(Trunk(indices[0], split))| + BranchHashes(indices, split) else 0
  {
    hide Secret, SetBits, Chain, Low, Trunk, Shr, Bit, Combine, Engine.Valid, Engine.ChunkYields, Engine.TileYields, Engine.TrunkYields, Engine.Holds, Engine.HoldsShares, Engine.AllShow;
    split := SplitDepth(indices);
    SameBelow(indices, split);
    var seed := e.Seed(shareA, shareB);
    var base := Trunk(indices[0], split);
    if base == 0 {
      return NoSharedTrunk, split;
    }
    var t := e.Trunk(seed, base, ChunkSteps(trunkChunk), shareA, shareB);
    var outs;
    ghost var values;
    outs, values := Branches(e, t, indices, split, base, Combine(shareA, shareB));
    var alice, bob := e.RevealAll(outs, values);
    r := Covered(alice, bob);
  }

  /** RunDerivationTree: any set of indices, one branch each from the shared trunk. Both parties learn every secret, and
  the programs run are the trunk's chunks and one per index. */
  method DerivationTree<D(==)>(e: Engine<D>, shareA: Value, shareB: Value, indices: seq<nat>, trunkChunk: int) returns (r: Cover, split: nat)
    requires e.Valid()
    modifies e`runs, e`hashes, e`at, e.alice, e.bob
    ensures e.Valid()
    ensures r == EmptySet <==> indices == []
    ensures r == IndexOver48 <==> exists i :: 0 <= i < |indices| && indices[i] > MAX_INDEX
    ensures indices != [] && (forall i :: 0 <= i < |indices| ==> indices[i] <= MAX_INDEX) ==>
      && SplitsAt(indices, split)
      && if Trunk(indices[0], split) == 0 then r == NoSharedTrunk
         else r.Covered? && r.alice == r.bob && AllSecrets(e.hash, Combine(shareA, shareB), indices, r.alice)
    ensures e.runs == old(e.runs) + if r.Covered? then TrunkRuns(Trunk(indices[0], split), trunkChunk) + |indices| else 0
    ensures e.hashes == old(e.hashes) + if r.Covered? then |SetBits(Trunk(indices[0], split))| + BranchHashes(indices, split) else 0
  {
    hide *;
    split := 0;
    if indices == [] {
      return EmptySet, 0;
    }
    for i := 0 to |indices|
      invariant forall j :: 0 <= j < i ==> indices[j] <= MAX_INDEX
    {
      if indices[i] > MAX_INDEX {
        return IndexOver48, 0;
      }
    }
    r, split := TreeCover(e, shareA, shareB, indices, trunkChunk);
  }

  // ---- tiles ----

  /** RunInnerTileLevel: one tile per root, all arms appended. */
  method TileStep<D(==)>(e: Engine<D>, roots: seq<Node>, level: TileLevel, ghost values: seq<Value>, ghost trunk: Value, ghost depth: nat)
    returns (next: seq<Node>, ghost nextValues: seq<Value>)
    requires e.Valid() && e.AllHold(roots, values) && 1 <= level.height <= MAX_HEIGHT
    requires level.bitOffset + level.height <= depth <= INDEX_BITS
    requires RootsAt(e.hash, trunk, values, level.bitOffset + level.height, depth)
    modifies e`runs, e`hashes, e.alice, e.bob
    ensures e.Valid() && e.AllHold(next, nextValues) && RootsAt(e.hash, trunk, nextValues, level.bitOffset, depth)
    ensures e.runs == old(e.runs) + |roots| && |next| == |roots| * Pow2(level.height)
    ensures e.hashes == old(e.hashes) + |roots| * (Pow2(level.height) - 1)
  {
    hide TileArms, RootsAt, Pow2, Engine.Valid, Engine.ChunkYields, Engine.TileYields, Engine.TrunkYields, Engine.Holds;
    next := [];
    for i := 0 to |roots|
      invariant e.Valid() && e.AllHold(next, AllArms(e.hash, values, level.bitOffset, level.height, i)) && e.runs == old(e.runs) + i
      invariant e.hashes == old(e.hashes) + i * (Pow2(level.height) - 1)
    {
      var arms := e.Tile(roots[i], level.bitOffset, level.height, values[i]);
      next := next + arms;
    }
    nextValues := AllArms(e.hash, values, level.bitOffset, level.height, |values|);
    ArmsAreRoots(e.hash, values, level, trunk, depth);
    ArmCount(e.hash, values, level.bitOffset, level.height, |values|);
  }

  lemma {:induction false} ArmCount(hash: Value -> Value, roots: seq<Value>, offset: nat, height: nat, n: nat)
    requires offset + height <= INDEX_BITS && n <= |roots|
    ensures |AllArms(hash, roots, offset, height, n)| == n * Pow2(height)
  {
    if n > 0 {
      ArmCount(hash, roots, offset, height, n - 1);
    }
  }

  lemma RootCount(hash: Value -> Value, trunk: Value, roots: seq<Value>, offset: nat, depth: nat)
    requires RootsAt(hash, trunk, roots, offset, depth)
    ensures offset <= depth && |roots| == Pow2(depth - offset) && (offset == depth ==> |roots| == 1)
  {
  }

  lemma Expanded(roots: nat, arms: nat)
    requires arms > 0
    ensures roots - 1 + roots * (arms - 1) == roots * arms - 1
  {
  }

  /** The recursive tile cover of an aligned subtree: every leaf, in order, held by both parties. Each node below the
  trunk is hashed once, whatever the height of the tiles. */
  method TileCover<D(==)>(e: Engine<D>, trunk: Node, depth: nat, height: nat, ghost v: Value) returns (leaves: seq<Node>)
    requires e.Valid() && e.Holds(trunk, v) && 1 <= height <= MAX_HEIGHT && height <= depth <= INDEX_BITS
    modifies e`runs, e`hashes, e.alice, e.bob
    ensures e.Valid() && |leaves| == Pow2(depth) && e.hashes == old(e.hashes) + Pow2(depth) - 1 && e.runs == old(e.runs) + TilesFor(depth, height)
    ensures forall s :: 0 <= s < Pow2(depth) ==> Indices(SetBits(s)) && e.Holds(leaves[s], Chain(e.hash, v, SetBits(s)))
  {
    hide Chain, SetBits, RootsAt, Pow2, TilesFor, Engine.Valid, Engine.ChunkYields, Engine.TileYields, Engine.TrunkYields, Engine.Holds;
    var plan := PlanTileLevels(depth, height);
    var levels := plan.levels;
    leaves := [trunk];
    ghost var values := [v];
    OneRoot(e.hash, v, depth);
    for i := 0 to |levels|
      invariant e.Valid() && e.AllHold(leaves, values) && e.hashes == old(e.hashes) + |leaves| - 1
      invariant i > 0 ==> levels[i - 1].bitOffset < depth
      invariant e.runs == old(e.runs) + if i == 0 then 0 else TilesFor(depth - levels[i - 1].bitOffset, height)
      invariant RootsAt(e.hash, v, values, if i == 0 then depth else levels[i - 1].bitOffset, depth)
      invariant i < |levels| ==> levels[i].bitOffset + levels[i].height == if i == 0 then depth else levels[i - 1].bitOffset
    {
      var roots := |leaves|;
      RootCount(e.hash, v, values, levels[i].bitOffset + levels[i].height, depth);
      if i == 0 {
        OneTile(levels[0].height, height);
      } else {
        OneLevelMore(depth - levels[i - 1].bitOffset, height);
      }
      leaves, values := TileStep(e, leaves, levels[i], values, v, depth);
      PowPositive(levels[i].height);
      Expanded(roots, Pow2(levels[i].height));
    }
    LeavesAre(e.hash, v, values, depth);
  }

  lemma LeavesAre(hash: Value -> Value, v: Value, values: seq<Value>, depth: nat)
    requires depth <= INDEX_BITS && RootsAt(hash, v, values, 0, depth)
    ensures |values| == Pow2(depth) && forall s :: 0 <= s < Pow2(depth) ==> Indices(SetBits(s)) && values[s] == Chain(hash, v, SetBits(s))
  {
    hide Chain, SetBits;
    forall s | 0 <= s < Pow2(depth)
      ensures Indices(SetBits(s)) && values[s] == Chain(hash, v, SetBits(s))
    {
      assert RootAt(hash, v, values, 0, depth, s);
      assert Shift(SetBits(s), 0) == SetBits(s);
      WindowBits(s, 0, depth);
    }
  }
}

/** The descending cache over a range, run as programs, with and without full tiles, and the choice between covers. */
module CacheRuns {
  import opened Masks
  import opened Shachain
  import opened Prefixes
  import opened DerivationPlans
  import opened RangeCovers
  import opened StackCache
  import opened Nodes
  import opened TreeRuns

  /** The nodes along the set bits of one index, the trunk first: each is made from the one before by the program of a
  single hash step. */
  class PrefixStack<!D(==)> {
    const e: Engine<D>
    ghost const trunk: Value
    var bits: seq<nat>
    var nodes: seq<Node>
    ghost var values: seq<Value>

    ghost predicate Valid()
      reads this`bits, this`nodes, this`values
    {
      && NodesOn(e.hash, trunk, bits, values) && e.AllHold(nodes, values)
      && Linked(bits, nodes)
    }

    ghost predicate Linked(bits: seq<nat>, nodes: seq<Node>) {
      |nodes| == |bits| + 1 && forall k :: 0 <= k < |bits| ==> e.Edge(bits[k], nodes[k], nodes[k + 1])
    }

    constructor (e: Engine<D>, t: Node, ghost trunk: Value)
      requires e.Holds(t, trunk)
      ensures Valid() && bits == [] && this.e == e && this.trunk == trunk
    {
      this.e, this.trunk, bits, nodes, values := e, trunk, [], [t], [trunk];
    }

    /** align_stack: keep the common prefix, push the rest; one program per push. */
    method Align(target: seq<nat>) returns (top: Node)
      requires Valid() && e.Valid() && Indices(target)
      modifies this`bits, this`nodes, this`values, e`runs, e`hashes, e.alice, e.bob
      ensures Valid() && e.Valid() && bits == target && e.Holds(top, Chain(e.hash, trunk, target))
      ensures e.hashes == old(e.hashes) + |target| - Common(old(bits), target) && e.runs - e.hashes == old(e.runs - e.hashes)
    {
      hide Flip, Chain, NodesOn, Engine.Valid, Engine.ChunkYields, Engine.TileYields, Engine.TrunkYields, Engine.Holds;
      StackShape();
      var p := SharedPart(bits, target);
      NodesCut(e.hash, trunk, bits, values, p);
      bits, nodes, values := bits[..p], nodes[..p + 1], values[..p + 1];
      for j := p to |target|
        invariant Valid() && e.Valid() && bits == target[..j] && e.hashes == old(e.hashes) + j - p && e.runs == old(e.runs) + j - p
      {
        Push(target[j]);
      }
      StackShape();
      top := nodes[|nodes| - 1];
    }

    method Push(bit: nat)
      requires Valid() && e.Valid() && bit < INDEX_BITS
      modifies this`bits, this`nodes, this`values, e`runs, e`hashes, e.alice, e.bob
      ensures Valid() && e.Valid() && bits == old(bits) + [bit] && e.hashes == old(e.hashes) + 1 && e.runs == old(e.runs) + 1
    {
      hide Flip, Chain, NodesOn, Engine.Valid, Engine.ChunkYields, Engine.TileYields, Engine.TrunkYields, Engine.Holds;
      StackShape();
      var last := |nodes| - 1;
      NodesPush(e.hash, trunk, bits, values, bit);
      ChainStep(e.hash, values[last], [], bit);
      NoChain(e.hash, values[last]);
      assert [] + [bit] == [bit];
      var child := e.Next(nodes[last], [bit], values[last]);
      values := values + [e.hash(Flip(values[last], bit))];
      assert e.Made([bit], false, old(e.runs), nodes[last], child);
      nodes, bits := nodes + [child], bits + [bit];
    }

    lemma StackShape()
      requires Valid()
      ensures Indices(bits) && |nodes| == |values| == |bits| + 1 && values[|bits|] == Chain(e.hash, trunk, bits)
      ensures e.Holds(nodes[|bits|], values[|bits|])
    {
      hide Engine.Holds, Chain;
      assert bits[..|bits|] == bits;
    }
  }

  lemma NoChain(hash: Value -> Value, v: Value)
    ensures Chain(hash, v, []) == v
  {
  }

  method SharedPart(a: seq<nat>, b: seq<nat>) returns (p: nat)
    ensures p == Common(a, b)
  {
    hide Common;
    p := 0;
    while p < |a| && p < |b| && a[p] == b[p]
      invariant p <= |a| && p <= |b| && a[..p] == b[..p]
    {
      p := p + 1;
    }
    CommonUnique(a, b, p);
  }

  // ---- the descending walk ----

  datatype Outputs = Outputs(tiles: map<nat, seq<Node>>, singles: map<nat, Node>) {
    predicate Has(index: nat) {
      if TileBase(index) in tiles then |tiles[TileBase(index)]| == TILE_LEAVES else index in singles
    }

    function At(index: nat): Node
      requires Has(index)
    {
      if TileBase(index) in tiles then tiles[TileBase(index)][index % TILE_LEAVES] else singles[index]
    }
  }

  /** Every index from `x` on has a node that holds its value. */
  ghost predicate Found<D>(e: Engine<D>, trunk: Value, base: nat, out: Outputs, x: nat, hi: nat)
    requires base <= x && hi <= base + MAX_INDEX
  {
    && (forall i :: x <= i <= hi ==> FoundAt(e, trunk, base, out, i))
    && forall b :: b in out.tiles ==> x <= b
  }

  ghost predicate FoundAt<D>(e: Engine<D>, trunk: Value, base: nat, out: Outputs, i: nat)
    requires base <= i <= base + MAX_INDEX
  {
    out.Has(i) && e.Holds(out.At(i), Wanted(e.hash, trunk, base, i))
  }

  lemma NothingFound<D>(e: Engine<D>, trunk: Value, base: nat, out: Outputs, hi: nat)
    requires base <= hi <= base + MAX_INDEX && out == Outputs(map[], map[])
    ensures Found(e, trunk, base, out, hi + 1, hi)
  {
  }

  lemma AddSingle<D>(e: Engine<D>, trunk: Value, base: nat, out: Outputs, x: nat, hi: nat, n: Node)
    requires base <= x <= hi <= base + MAX_INDEX && Found(e, trunk, base, out, x + 1, hi) && e.Holds(n, Wanted(e.hash, trunk, base, x))
    ensures Found(e, trunk, base, Outputs(out.tiles, out.singles[x := n]), x, hi)
  {
    hide Wanted, Engine.Holds;
    var after := Outputs(out.tiles, out.singles[x := n]);
    forall i | x <= i <= hi
      ensures FoundAt(e, trunk, base, after, i)
    {
      if i > x {
        assert FoundAt(e, trunk, base, out, i);
      }
    }
  }

  lemma AddTile<D>(e: Engine<D>, trunk: Value, base: nat, out: Outputs, b: nat, hi: nat, arms: seq<Node>)
    requires base <= b && b + 15 <= hi <= base + MAX_INDEX && b % TILE_LEAVES == 0 && Found(e, trunk, base, out, b + 16, hi)
    requires |arms| == TILE_LEAVES && forall s :: 0 <= s < TILE_LEAVES ==> e.Holds(arms[s], Wanted(e.hash, trunk, base, b + s))
    ensures Found(e, trunk, base, Outputs(out.tiles[b := arms], out.singles), b, hi)
  {
    hide Wanted, Engine.Holds;
    var after := Outputs(out.tiles[b := arms], out.singles);
    forall i | b <= i <= hi
      ensures FoundAt(e, trunk, base, after, i)
    {
      if i >= b + 16 {
        assert FoundAt(e, trunk, base, out, i);
      } else {
        assert TileBase(i) == b && i % TILE_LEAVES == i - b;
        assert e.Holds(arms[i - b], Wanted(e.hash, trunk, base, b + (i - b)));
      }
    }
  }

  /** The programs of the walk down: one per hash, but for a full tile one in place of fifteen. */
  function WalkPrograms(hashes: nat, lo: nat, hi: nat, canTile: bool): int {
    hashes - if canTile then (TILE_LEAVES - 2) * FullTiles(lo, hi) else 0
  }

  /** The loop from the highest index down: full tiles where allowed, single nodes otherwise. Every index gets a node
  that holds its value. With or without tiles there is one hash for every nonzero prefix that occurs below the trunk;
  what tiles save is programs, fourteen for every full tile in the range. */
  method Descend<D(==)>(e: Engine<D>, t: Node, base: nat, lo: nat, hi: nat, canTile: bool, ghost trunk: Value)
    returns (out: Outputs, hashes: nat)
    requires e.Valid() && e.Holds(t, trunk) && base <= lo <= hi <= base + MAX_INDEX && (canTile ==> base % TILE_LEAVES == 0)
    modifies e`runs, e`hashes, e.alice, e.bob
    ensures e.Valid() && Found(e, trunk, base, out, lo, hi)
    ensures hashes == |Seen(lo - base, hi - base)| && e.hashes == old(e.hashes) + hashes && e.runs == old(e.runs) + WalkPrograms(hashes, lo, hi, canTile)
  {
    hide FullTiles, AtTileTop, Common, SetBits, Chain, Found, NodesOn, Counted, Seen, Engine.Valid, Engine.ChunkYields, Engine.TileYields, Engine.TrunkYields, Engine.Holds, Engine.AllHold;
    var stack := new PrefixStack(e, t, trunk);
    out := Outputs(map[], map[]);
    var next, start := hi + 1, e.hashes;
    NothingFound(e, trunk, base, out, hi);
    NothingCounted(hi - base);
    NoTilesYet(hi);
    StartsAtTop(lo, hi);
    while next > lo
      invariant fresh(stack) && stack.Valid() && e.Valid() && stack.e == e && stack.trunk == trunk && lo <= next <= hi + 1
      invariant Found(e, trunk, base, out, next, hi)
      invariant Counted(stack.bits, e.hashes - start, next - base, hi - base) && e.hashes >= start
      invariant e.runs == old(e.runs) + WalkPrograms(e.hashes - start, next, hi, canTile) && (canTile ==> AtTileTop(next, lo, hi))
    {
      var i := next - 1;
      var b := TileBase(i);
      if canTile && i % TILE_LEAVES == TILE_LEAVES - 1 && b >= lo && b + TILE_LEAVES - 1 <= hi {
        OneTileMore(b, hi);
        TileLeft(b, lo, hi);
        out := TileAt(stack, base, b, hi, out, start);
        next := b;
      } else {
        if canTile {
          SingleTaken(i, lo, hi);
        }
        out := NodeAt(stack, base, i, hi, out, start);
        next := i;
      }
    }
    hashes := e.hashes - start;
    FinalCount(stack.bits, hashes, lo - base, hi - base);
  }

  /** One single index. */
  method NodeAt<D(==)>(stack: PrefixStack<D>, base: nat, i: nat, hi: nat, out: Outputs, ghost start: nat) returns (after: Outputs)
    requires stack.Valid() && stack.e.Valid() && base <= i <= hi <= base + MAX_INDEX
    requires Found(stack.e, stack.trunk, base, out, i + 1, hi)
    modifies stack, stack.e`runs, stack.e`hashes, stack.e.alice, stack.e.bob
    ensures stack.Valid() && stack.e.Valid() && Found(stack.e, stack.trunk, base, after, i, hi)
    ensures old(Counted(stack.bits, stack.e.hashes - start, i + 1 - base, hi - base)) ==> Counted(stack.bits, stack.e.hashes - start, i - base, hi - base)
    ensures stack.e.runs - stack.e.hashes == old(stack.e.runs - stack.e.hashes) && stack.e.hashes >= old(stack.e.hashes)
  {
    hide Common, SetBits, Chain, Found, NodesOn, Wanted, Engine.Valid, Engine.ChunkYields, Engine.TileYields, Engine.TrunkYields, Engine.Holds, Engine.AllHold, PrefixStack.Valid, Counted;
    var low := SetBitsDesc(i - base);
    ghost var was := stack.bits;
    var top := stack.Align(low);
    WantedIs(stack.e.hash, stack.trunk, base, i);
    AddSingle(stack.e, stack.trunk, base, out, i, hi, top);
    after := Outputs(out.tiles, out.singles[i := top]);
    CountedStep(i - base, hi - base, was, old(stack.e.hashes) - start, stack.e.hashes - start);
  }

  /** One full tile. */
  method TileAt<D(==)>(stack: PrefixStack<D>, base: nat, b: nat, hi: nat, out: Outputs, ghost start: nat) returns (after: Outputs)
    requires stack.Valid() && stack.e.Valid() && base <= b && b + 15 <= hi <= base + MAX_INDEX && b % TILE_LEAVES == 0 && base % TILE_LEAVES == 0
    requires Found(stack.e, stack.trunk, base, out, b + 16, hi)
    modifies stack, stack.e`runs, stack.e`hashes, stack.e.alice, stack.e.bob
    ensures stack.Valid() && stack.e.Valid() && Found(stack.e, stack.trunk, base, after, b, hi)
    ensures old(Counted(stack.bits, stack.e.hashes - start, b + TILE_LEAVES - base, hi - base)) ==> Counted(stack.bits, stack.e.hashes - start, b - base, hi - base)
    ensures stack.e.runs - stack.e.hashes == old(stack.e.runs - stack.e.hashes) - (TILE_LEAVES - 2) && stack.e.hashes >= old(stack.e.hashes)
  {
    hide Counted, Common, SetBits, Chain, Found, TileArms, Wanted, NodesOn, Engine.Valid, Engine.ChunkYields, Engine.TileYields, Engine.TrunkYields, Engine.Holds, PrefixStack.Valid;
    var low := SetBitsDesc(b - base);
    ghost var was := stack.bits;
    var root := stack.Align(low);
    WantedIs(stack.e.hash, stack.trunk, base, b);
    ghost var v := Wanted(stack.e.hash, stack.trunk, base, b);
    var arms := stack.e.Tile(root, 0, TILE_HEIGHT, v);
    SixteenLeaves();
    forall s | 0 <= s < TILE_LEAVES
      ensures stack.e.Holds(arms[s], Wanted(stack.e.hash, stack.trunk, base, b + s))
    {
      TileWanted(stack.e.hash, stack.trunk, base, b, v, s);
    }
    CountedTile(b - base, hi - base, was, old(stack.e.hashes) - start, stack.e.hashes - start);
    AddTile(stack.e, stack.trunk, base, out, b, hi, arms);
    after := Outputs(out.tiles[b := arms], out.singles);
  }

  // ---- the whole cover ----

  predicate GoodFanout(fanout: nat) {
    fanout == 1 || fanout == 2 || fanout == 4 || fanout == 8 || fanout == 16
  }

  function HeightOf(fanout: nat): (height: nat)
    requires GoodFanout(fanout)
    ensures height <= TILE_HEIGHT && Pow2(height) == fanout
  {
    assert Pow2(1) == 2 && Pow2(2) == 4 && Pow2(3) == 8 && Pow2(4) == 16;
    if fanout == 1 then 0 else if fanout == 2 then 1 else if fanout == 4 then 2 else if fanout == 8 then 3 else 4
  }

  /** The height of a tile with `fanout` leaves, if that is a power of two up to 16. */
  method TileHeight(fanout: nat) returns (ok: bool, height: nat)
    ensures ok <==> GoodFanout(fanout)
    ensures ok ==> height == HeightOf(fanout)
  {
    height := 0;
    while Pow2(height) < fanout && height < 5
      invariant height <= 5 && (height > 0 ==> Pow2(height - 1) < fanout)
    {
      height := height + 1;
    }
    assert Pow2(1) == 2 && Pow2(2) == 4 && Pow2(3) == 8 && Pow2(4) == 16 && Pow2(5) == 32;
    ok := height <= 4 && Pow2(height) == fanout;
  }

  /** Is the range a whole subtree, to be covered by a tree of tiles? */
  predicate Treed(lo: nat, hi: nat, d: nat, height: nat) {
    height >= 1 && d >= 1 && lo == Trunk(lo, d) && hi == lo + Pow2(d) - 1 && d >= height
  }

  /** The programs run below the trunk for a cover that hashes so often. */
  function CoverPrograms(hashes: nat, lo: nat, hi: nat, d: nat, fanout: nat): int
    requires GoodFanout(fanout)
  {
    if Treed(lo, hi, d, HeightOf(fanout)) then TilesFor(d, HeightOf(fanout)) else WalkPrograms(hashes, lo, hi, fanout >= 2 && d >= TILE_HEIGHT)
  }

  /** The split of a range: the number of low bits from the highest one in which its ends differ. */
  method RangeSplit(lo: nat, hi: nat) returns (d: nat)
    requires lo <= MAX_INDEX && hi <= MAX_INDEX
    ensures d <= INDEX_BITS && Shr(lo, d) == Shr(hi, d) && (d > 0 ==> Bit(lo, d - 1) != Bit(hi, d - 1))
  {
    hide Shr, Bit;
    var ends := [lo, hi];
    d := SplitDepth(ends);
    assert ends[1] == hi && Shr(ends[1], d) == Shr(ends[0], d);
  }

  /** The secrets of a range, in order. */
  predicate RangeSecrets(hash: Value -> Value, seed: Value, lo: nat, hi: nat, values: seq<Value>)
    requires lo <= hi <= MAX_INDEX
  {
    |values| == hi - lo + 1 && forall i :: lo <= i <= hi ==> values[i - lo] == Secret(hash, seed, i)
  }

  /** RunDerivationCache: for every range with a shared trunk and every fanout, both parties learn every index's secret.
  Whatever the fanout, the hashes below the trunk are exactly the nonzero low-bit prefixes that occur in the range; the
  fanout decides how many programs they take. */
  method DerivationCache<D(==)>(e: Engine<D>, shareA: Value, shareB: Value, lo: nat, hi: nat, trunkChunk: int, fanout: nat)
    returns (r: Cover, hashes: nat, split: nat)
    requires e.Valid()
    modifies e`runs, e`hashes, e`at, e.alice, e.bob
    ensures e.Valid()
    ensures lo > hi ==> r == BadRange
    ensures lo <= hi && hi > MAX_INDEX ==> r == IndexOver48
    ensures lo <= hi <= MAX_INDEX && !GoodFanout(fanout) ==> r == BadFanout
    ensures lo <= hi <= MAX_INDEX && GoodFanout(fanout) ==>
      && split <= INDEX_BITS && Shr(lo, split) == Shr(hi, split) && (split > 0 ==> Bit(lo, split - 1) != Bit(hi, split - 1))
      && if Trunk(lo, split) == 0 then r == NoSharedTrunk
         else r.Covered? && r.alice == r.bob && RangeSecrets(e.hash, Combine(shareA, shareB), lo, hi, r.alice)
    ensures r.Covered? ==> GoodFanout(fanout) && hashes == |Seen(Low(lo, split), Low(hi, split))|
    ensures e.hashes == old(e.hashes) + if r.Covered? then |SetBits(Trunk(lo, split))| + hashes else 0
    ensures e.runs == old(e.runs) + if r.Covered? then TrunkRuns(Trunk(lo, split), trunkChunk) + CoverPrograms(hashes, lo, hi, split, fanout) else 0
  {
    hide *;
    hashes, split := 0, 0;
    if lo > hi {
      return BadRange, 0, 0;
    }
    if hi > MAX_INDEX {
      return IndexOver48, 0, 0;
    }
    var ok, height := TileHeight(fanout);
    if !ok {
      return BadFanout, 0, 0;
    }
    split := RangeSplit(lo, hi);
    r, hashes := CoverRange(e, shareA, shareB, lo, hi, split, trunkChunk, fanout, height);
  }

  /** Trunk and cover of a range in order. */
  method CoverRange<D(==)>(e: Engine<D>, shareA: Value, shareB: Value, lo: nat, hi: nat, d: nat, trunkChunk: int, fanout: nat, height: nat)
    returns (r: Cover, hashes: nat)
    requires e.Valid() && lo <= hi <= MAX_INDEX && d <= INDEX_BITS && Shr(lo, d) == Shr(hi, d)
    requires GoodFanout(fanout) && height == HeightOf(fanout)
    modifies e`runs, e`hashes, e`at, e.alice, e.bob
    ensures e.Valid()
    ensures if Trunk(lo, d) == 0 then r == NoSharedTrunk
            else r.Covered? && r.alice == r.bob && RangeSecrets(e.hash, Combine(shareA, shareB), lo, hi, r.alice)
    ensures r.Covered? ==> hashes == |Seen(Low(lo, d), Low(hi, d))|
    ensures e.hashes == old(e.hashes) + if r.Covered? then |SetBits(Trunk(lo, d))| + hashes else 0
    ensures e.runs == old(e.runs) + if r.Covered? then TrunkRuns(Trunk(lo, d), trunkChunk) + CoverPrograms(hashes, lo, hi, d, fanout) else 0
  {
    hide *;
    hashes := 0;
    var seed := e.Seed(shareA, shareB);
    var base := Trunk(lo, d);
    TrunkBound(lo, d);
    if base == 0 {
      return NoSharedTrunk, 0;
    }
    var t := e.Trunk(seed, base, ChunkSteps(trunkChunk), shareA, shareB);
    TrunkRunsIs(base, trunkChunk);
    var alice, bob;
    alice, bob, hashes := CoverBelow(e, t, lo, hi, d, fanout, height, Combine(shareA, shareB));
    r := Covered(alice, bob);
  }

  lemma TrunkRunsIs(base: nat, trunkChunk: int)
    ensures TrunkRuns(base, trunkChunk) == ChunkCount(|SetBits(base)|, ChunkSteps(trunkChunk))
  {
  }

  /** The choice between the two covers below the trunk. */
  method CoverBelow<D(==)>(e: Engine<D>, t: Node, lo: nat, hi: nat, d: nat, fanout: nat, height: nat, ghost seed: Value)
    returns (alice: seq<Value>, bob: seq<Value>, hashes: nat)
    requires e.Valid() && lo <= hi <= MAX_INDEX && d <= INDEX_BITS && Shr(lo, d) == Shr(hi, d)
    requires GoodFanout(fanout) && height == HeightOf(fanout)
    requires Trunk(lo, d) <= MAX_INDEX && e.Holds(t, Secret(e.hash, seed, Trunk(lo, d)))
    modifies e`runs, e`hashes, e.alice, e.bob
    ensures e.Valid() && alice == bob && RangeSecrets(e.hash, seed, lo, hi, alice)
    ensures hashes == |Seen(Low(lo, d), Low(hi, d))| && e.hashes == old(e.hashes) + hashes && e.runs == old(e.runs) + CoverPrograms(hashes, lo, hi, d, fanout)
  {
    hide WalkPrograms, TilesFor, Secret, SetBits, Chain, Trunk, Shr, Seen, Pow2, RangeSecrets, Engine.Valid, Engine.ChunkYields, Engine.TileYields, Engine.TrunkYields, Engine.Holds;
    TrunkBound(lo, d);
    var base := Trunk(lo, d);
    if height >= 1 && d >= 1 && lo == base && hi == base + Pow2(d) - 1 && d >= height {
      alice, bob, hashes := AlignedCover(e, t, lo, hi, d, height, seed);
    } else {
      alice, bob, hashes := StackCover(e, t, lo, hi, d, fanout >= 2 && d >= TILE_HEIGHT, seed);
    }
  }

  function SecretsFrom(hash: Value -> Value, seed: Value, lo: nat, count: nat): (values: seq<Value>)
    requires lo + count <= MAX_INDEX + 1
    ensures |values| == count && forall s :: 0 <= s < count ==> values[s] == Secret(hash, seed, lo + s)
  {
    if count == 0 then [] else SecretsFrom(hash, seed, lo, count - 1) + [Secret(hash, seed, lo + count - 1)]
  }

  /** The recursive tile cover of an aligned range. */
  method AlignedCover<D(==)>(e: Engine<D>, t: Node, lo: nat, hi: nat, d: nat, height: nat, ghost seed: Value)
    returns (alice: seq<Value>, bob: seq<Value>, hashes: nat)
    requires e.Valid() && lo <= hi <= MAX_INDEX && 1 <= height <= TILE_HEIGHT && height <= d <= INDEX_BITS && Shr(lo, d) == Shr(hi, d)
    requires lo == Trunk(lo, d) && hi == lo + Pow2(d) - 1 && e.Holds(t, Secret(e.hash, seed, lo))
    modifies e`runs, e`hashes, e.alice, e.bob
    ensures e.Valid() && alice == bob && RangeSecrets(e.hash, seed, lo, hi, alice)
    ensures hashes == |Seen(Low(lo, d), Low(hi, d))| && e.hashes == old(e.hashes) + hashes && e.runs == old(e.runs) + TilesFor(d, height)
  {
    hide Secret, SetBits, Chain, Trunk, Shr, Pow2, Seen, TilesFor, Engine.Valid, Engine.ChunkYields, Engine.TileYields, Engine.TrunkYields, Engine.Holds, Engine.Shows;
    hashes := e.hashes;
    var leaves := TileCover(e, t, d, height, Secret(e.hash, seed, lo));
    hashes := e.hashes - hashes;
    WholeSeen(lo, hi, d);
    ghost var values := SecretsFrom(e.hash, seed, lo, |leaves|);
    forall s | 0 <= s < |leaves|
      ensures e.Shows(leaves[s], values[s])
    {
      LowInRange(e.hash, seed, lo, lo + s, hi, d);
      assert lo + s - lo == s;
      e.HeldShows(leaves[s], values[s]);
    }
    alice, bob := e.RevealAll(leaves, values);
    forall i | lo <= i <= hi
      ensures alice[i - lo] == Secret(e.hash, seed, i)
    {
      assert lo + (i - lo) == i;
    }
  }

  /** A whole subtree: every number of its low bits but zero is a prefix that occurs. */
  lemma WholeSeen(lo: nat, hi: nat, d: nat)
    requires lo == Trunk(lo, d) && hi == lo + Pow2(d) - 1 && lo <= hi && Shr(lo, d) == Shr(hi, d)
    ensures |Seen(Low(lo, d), Low(hi, d))| == Pow2(d) - 1
  {
    hide Shr, Pow2, Seen;
    AllSeen(Pow2(d) - 1);
  }

  /** The stack cache over any range. */
  method StackCover<D(==)>(e: Engine<D>, t: Node, lo: nat, hi: nat, d: nat, canTile: bool, ghost seed: Value)
    returns (alice: seq<Value>, bob: seq<Value>, hashes: nat)
    requires e.Valid() && lo <= hi <= MAX_INDEX && d <= INDEX_BITS && Shr(lo, d) == Shr(hi, d) && (canTile ==> d >= TILE_HEIGHT)
    requires Trunk(lo, d) <= lo && e.Holds(t, Secret(e.hash, seed, Trunk(lo, d)))
    modifies e`runs, e`hashes, e.alice, e.bob
    ensures e.Valid() && alice == bob && RangeSecrets(e.hash, seed, lo, hi, alice)
    ensures hashes == |Seen(Low(lo, d), Low(hi, d))| && e.hashes == old(e.hashes) + hashes && e.runs == old(e.runs) + WalkPrograms(hashes, lo, hi, canTile)
  {
    hide WalkPrograms, Secret, SetBits, Chain, Trunk, Shr, Pow2, Seen, Found, Wanted, Engine.Valid, Engine.ChunkYields, Engine.TileYields, Engine.TrunkYields, Engine.Holds;
    var base := Trunk(lo, d);
    if canTile {
      AlignedBase(lo, d);
    }
    SharedTrunk(hi, lo, d);
    ghost var trunk := Secret(e.hash, seed, base);
    var out;
    out, hashes := Descend(e, t, base, lo, hi, canTile, trunk);
    alice, bob := Collect(e, out, lo, hi, trunk, base);
    forall i | lo <= i <= hi
      ensures alice[i - lo] == Secret(e.hash, seed, i)
    {
      LowInRange(e.hash, seed, lo, i, hi, d);
      WantedIs(e.hash, trunk, base, i);
    }
  }

  /** The reveal loop: every index from its tile or its node. */
  method Collect<D(==)>(e: Engine<D>, out: Outputs, lo: nat, hi: nat, ghost trunk: Value, ghost base: nat)
    returns (alice: seq<Value>, bob: seq<Value>)
    requires base <= lo <= hi <= base + MAX_INDEX && Found(e, trunk, base, out, lo, hi)
    ensures alice == bob && |alice| == hi - lo + 1 && forall i :: lo <= i <= hi ==> alice[i - lo] == Wanted(e.hash, trunk, base, i)
  {
    hide Wanted, Engine.Holds, Engine.Shows;
    alice, bob := [], [];
    for i := lo to hi + 1
      invariant |alice| == i - lo && alice == bob && forall k :: lo <= k < i ==> alice[k - lo] == Wanted(e.hash, trunk, base, k)
    {
      assert FoundAt(e, trunk, base, out, i);
      e.HeldShows(out.At(i), Wanted(e.hash, trunk, base, i));
      var a, b := e.Reveal(out.At(i), Wanted(e.hash, trunk, base, i));
      alice, bob := alice + [a], bob + [b];
    }
  }
}

/** The precompute session: chain nodes are run as programs when they are needed and cached as authenticated wires. */
module PrecomputeRuns {
  import opened Masks
  import opened Shachain
  import opened Prefixes
  import opened DerivationPlans
  import opened Reveals
  import opened Precompute
  import opened Nodes

  /** A cached node under key `trailing_zeros(mask)`. */
  datatype Entry = Entry(mask: nat, node: Node)
  type Cache = map<nat, Entry>

  function MasksOf(cache: Cache): Plan {
    map k | k in cache :: cache[k].mask
  }

  /** strip_labels_for_reveal on both sides. */
  function Stripped(n: Node): Node {
    Node(Strip(n.alice), Strip(n.bob))
  }

  class PrecomputeSession<!D(==)> {
    const e: Engine<D>
    /** The authenticated shares of the seed. */
    const inputs: Node
    ghost const shareA: Value
    ghost const shareB: Value
    var cache: Cache
    /** The programs run. */
    var ran: seq<Run>

    /** The secret of an index under the combined shares. */
    ghost function Wanted(index: nat): Value
      requires index <= MAX_INDEX
    {
      Secret(e.hash, Combine(shareA, shareB), index)
    }

    ghost predicate Valid()
      reads this`cache
    {
      && e.HoldsShares(inputs, shareA, shareB) && Keyed(MasksOf(cache))
      && forall k :: k in cache ==> cache[k].mask <= MAX_INDEX && e.Holds(cache[k].node, Wanted(cache[k].mask))
    }

    constructor (e: Engine<D>, inputs: Node, ghost shareA: Value, ghost shareB: Value)
      requires e.HoldsShares(inputs, shareA, shareB)
      ensures Valid() && cache == map[] && ran == [] && this.e == e && this.inputs == inputs && this.shareA == shareA && this.shareB == shareB
    {
      this.e, this.inputs, this.shareA, this.shareB, cache, ran := e, inputs, shareA, shareB, map[], [];
    }

    /** The node a walk from `mask` starts at: the cached one, or the seed's shares. */
    ghost predicate IsStart(mask: nat, node: Node)
      reads this`cache
    {
      if mask == 0 then node == inputs else Tz(mask) in cache && cache[Tz(mask)] == Entry(mask, node)
    }

    /** A run of single hash steps, each a program of its own on the node before it, the first of them run `run`. */
    ghost predicate Path(path: seq<Node>, bits: seq<nat>, seeded: bool, run: nat) {
      && |path| == |bits| + 1
      && forall i :: 0 <= i < |bits| ==> e.Made([bits[i]], i == 0 && seeded, run + i, path[i], path[i + 1])
    }

    lemma PathGrows(path: seq<Node>, bits: seq<nat>, i: nat, seeded: bool, run: nat, n: Node)
      requires i < |bits| && Path(path, bits[..i], seeded, run) && e.Made([bits[i]], i == 0 && seeded, run + i, path[i], n)
      ensures Path(path + [n], bits[..i + 1], seeded, run)
    {
      hide Engine.Made;
    }

    /** best_parent: the mask and its node, or 0 if no cached node derives the target. */
    method BestParent(target: nat) returns (mask: nat, node: Node)
      requires Valid() && target <= MAX_INDEX
      ensures mask == Best(MasksOf(cache), target) && mask <= MAX_INDEX && (mask > 0 ==> e.Holds(node, Wanted(mask)))
      ensures IsStart(mask, node)
    {
      hide Wanted, CanDerive, Engine.Holds;
      mask, node := 0, inputs;
      ghost var plan := MasksOf(cache);
      for k := 0 to INDEX_BITS
        invariant mask == BestBelow(plan, target, k) && mask <= MAX_INDEX && (mask > 0 ==> e.Holds(node, Wanted(mask)))
        invariant IsStart(mask, node)
      {
        if k in cache {
          assert plan[k] == cache[k].mask;
          if cache[k].mask > 0 && CanDerive(cache[k].mask, target) && PopCount(cache[k].mask) >= PopCount(mask) {
            mask, node := cache[k].mask, cache[k].node;
          }
        }
      }
    }

    /** planned_checked_units */
    method PlannedCheckedUnits(target: nat) returns (units: nat)
      requires Valid() && target <= MAX_INDEX
      ensures units == PopCount(Gap(MasksOf(cache), target))
    {
      hide Valid, SetBits, PopCount, Best, MasksOf, CanDerive, Prefix, Wanted;
      var mask, node := BestParent(target);
      BestIsPrefix(MasksOf(cache), target);
      SetBitsCount(target - mask);
      var bits := SetBitsDesc(AndNot(target, mask));
      units := |bits|;
    }

    /** The one-step program below `mask`: on the carried node, or on the seed's shares if there is none. */
    method Edge(mask: nat, node: Node, bit: nat) returns (child: Node)
      requires Valid() && e.Valid() && mask <= MAX_INDEX && (mask > 0 ==> e.Holds(node, Wanted(mask))) && bit < INDEX_BITS
      requires mask + Pow2(bit) <= MAX_INDEX && SetBits(mask + Pow2(bit)) == SetBits(mask) + [bit] && (mask == 0 ==> node == inputs)
      modifies this`ran, e`runs, e`hashes, e.alice, e.bob
      ensures Valid() && e.Valid() && e.Holds(child, Wanted(mask + Pow2(bit)))
      ensures ran == old(ran) + [Run([bit], mask == 0)] && e.runs == old(e.runs) + 1 && e.hashes == old(e.hashes) + 1
      ensures e.Made([bit], mask == 0, old(e.runs), node, child)
    {
      hide Secret, SetBits, Chain, Combine, Engine.Valid, Engine.ChunkYields, Engine.TileYields, Engine.TrunkYields, FreshWires, Engine.Holds, Engine.Shows, Engine.HoldsShares, Keyed, Pow2;
      ghost var seed := Combine(shareA, shareB);
      StepSecret(e.hash, seed, mask, bit);
      OneStepChain(e.hash, Wanted(mask), bit);
      RootSecret(e.hash, seed);
      if mask == 0 {
        child := e.First(node, [bit], shareA, shareB);
      } else {
        child := e.Next(node, [bit], Wanted(mask));
      }
      ran := ran + [Run([bit], mask == 0)];
      assert e.Made([bit], mask == 0, old(e.runs), node, child);
    }

    /** One checked unit: an edge, its node cached if a later target may need it. */
    method Step(target: nat, mask: nat, node: Node, bit: nat) returns (next: nat, child: Node)
      requires Valid() && e.Valid() && mask <= MAX_INDEX && (mask > 0 ==> e.Holds(node, Wanted(mask))) && bit < INDEX_BITS
      requires mask + Pow2(bit) <= MAX_INDEX && SetBits(mask + Pow2(bit)) == SetBits(mask) + [bit] && (mask == 0 ==> node == inputs)
      modifies this`cache, this`ran, e`runs, e`hashes, e.alice, e.bob
      ensures Valid() && e.Valid() && next == mask + Pow2(bit) && next > 0 && e.Holds(child, Wanted(next))
      ensures ran == old(ran) + [Run([bit], mask == 0)] && e.runs == old(e.runs) + 1 && e.hashes == old(e.hashes) + 1
      ensures e.Made([bit], mask == 0, old(e.runs), node, child)
      ensures MasksOf(cache) == if Retained(next, target) then old(MasksOf(cache))[Tz(next) := next] else old(MasksOf(cache))
    {
      hide Secret, SetBits, Chain, Combine, Engine.Valid, Engine.ChunkYields, Engine.TileYields, Engine.TrunkYields, FreshWires, Engine.Holds, Engine.HoldsShares;
      StepSecret(e.hash, Combine(shareA, shareB), mask, bit);
      child := Edge(mask, node, bit);
      next := mask + Pow2(bit);
      ghost var before := MasksOf(cache);
      if Retained(next, target) {
        cache := cache[Tz(next) := Entry(next, child)];
        assert MasksOf(cache) == before[Tz(next) := next];
      }
    }

    /** The loop over the missing bits. */
    method Walk(target: nat, mask: nat, start: Node, missing: nat) returns (node: Node, ghost path: seq<Node>)
      requires Valid() && e.Valid() && 0 < missing && Prefix(mask, mask + missing) && mask + missing == target <= MAX_INDEX
      requires if mask > 0 then e.Holds(start, Wanted(mask)) else start == inputs
      modifies this`cache, this`ran, e`runs, e`hashes, e.alice, e.bob
      ensures Valid() && e.Valid() && e.Holds(node, Wanted(target))
      ensures MasksOf(cache) == Walked(old(MasksOf(cache)), target, mask, SetBits(missing)).0
      ensures ran == old(ran) + StepRuns(SetBits(missing), mask == 0) && e.runs == old(e.runs) + |SetBits(missing)|
      ensures e.hashes == old(e.hashes) + |SetBits(missing)|
      ensures Path(path, SetBits(missing), mask == 0, old(e.runs)) && path[0] == start && path[|path| - 1] == node
    {
      hide Secret, SetBits, Retained, Engine.Valid, Engine.ChunkYields, Engine.TileYields, Engine.TrunkYields, FreshWires, Engine.Holds, Valid, Wanted, MasksOf, Prefix, SumBits, Walked, Pow2;
      var bits := SetBitsDesc(missing);
      node, path := start, [start];
      var at := mask;
      ghost var before, log := MasksOf(cache), ran;
      SumBitsNone(bits[..0]);
      NotWalked(before, target, mask, bits[..0]);
      assert log + StepRuns(bits[..0], mask == 0) == log;
      for i := 0 to |bits|
        invariant Valid() && e.Valid() && at == mask + SumBits(bits[..i]) && at <= MAX_INDEX && (at > 0 ==> e.Holds(node, Wanted(at)))
        invariant i > 0 ==> at > 0
        invariant Walked(before, target, mask, bits[..i]) == (MasksOf(cache), at)
        invariant ran == log + StepRuns(bits[..i], mask == 0) && e.runs == old(e.runs) + i && e.hashes == old(e.hashes) + i
        invariant Path(path, bits[..i], mask == 0, old(e.runs)) && path[0] == start && path[|path| - 1] == node && (at == 0 ==> node == inputs)
      {
        PartialSum(mask, missing, i);
        WalkedOn(before, target, mask, bits, i);
        var next;
        next, node := Step(target, at, node, bits[i]);
        PathGrows(path, bits, i, mask == 0, old(e.runs), node);
        at, path := next, path + [node];
        assert StepRuns(bits[..i + 1], mask == 0) == StepRuns(bits[..i], mask == 0) + [Run([bits[i]], i == 0 && mask == 0)];
      }
      assert bits[..|bits|] == bits;
      AllBitsSum(missing);
    }

    /** precompute_target: a node that shows the target's secret, at the planned cost. */
    method PrecomputeTarget(target: nat) returns (node: Node, ghost path: seq<Node>)
      requires Valid() && e.Valid() && target <= MAX_INDEX
      modifies this`cache, this`ran, e`runs, e`hashes, e.alice, e.bob
      ensures Valid() && e.Valid() && e.Shows(node, Wanted(target))
      ensures MasksOf(cache) == NextPlan(old(MasksOf(cache)), target)
      ensures ran == old(ran) + TargetRuns(old(MasksOf(cache)), target)
      ensures e.runs - |ran| == old(e.runs - |ran|)
      ensures path != [] && node == Stripped(path[|path| - 1])
      ensures target == 0 ==> |path| == 2 && path[0] == inputs && e.Made([], true, old(e.runs), inputs, path[1]) && e.hashes == old(e.hashes)
      ensures target > 0 ==> var plan := old(MasksOf(cache));
        && old(IsStart(Best(plan, target), path[0])) && Path(path, SetBits(Gap(plan, target)), Best(plan, target) == 0, old(e.runs))
        && e.hashes == old(e.hashes) + |SetBits(Gap(plan, target))|
    {
      hide Secret, Retained, Walked, CanDerive, SetBits, Combine, Engine.Valid, Engine.ChunkYields, Engine.TileYields, Engine.TrunkYields, FreshWires, Engine.Holds, Engine.Shows, Valid, MasksOf;
      ghost var plan := MasksOf(cache);
      BestIsPrefix(plan, target);
      if target == 0 {
        node, path := Root();
        return;
      }
      var mask;
      mask, node := BestParent(target);
      if mask == target {
        NoSetBits();
        path := [node];
        assert ran + StepRuns(SetBits(0), mask == 0) == ran;
      } else {
        node, path := Walk(target, mask, node, target - mask);
        Prune(target);
      }
      e.HeldShows(node, Wanted(target));
      StrippedShows(e, node, Wanted(target));
      node := Stripped(node);
    }

    /** Target 0: the XOR of the shares, a program without a hash step. */
    method Root() returns (node: Node, ghost path: seq<Node>)
      requires Valid() && e.Valid()
      modifies this`ran, e`runs, e`hashes, e.alice, e.bob
      ensures Valid() && e.Valid() && e.Shows(node, Wanted(0)) && ran == old(ran) + [Run([], true)] && e.runs == old(e.runs) + 1 && e.hashes == old(e.hashes)
      ensures |path| == 2 && path[0] == inputs && e.Made([], true, old(e.runs), inputs, path[1]) && node == Stripped(path[1])
    {
      hide Secret, Chain, Combine, Engine.Valid, Engine.ChunkYields, Engine.TileYields, Engine.TrunkYields, FreshWires, Engine.Holds, Engine.Shows, Engine.HoldsShares, Keyed;
      RootSecret(e.hash, Combine(shareA, shareB));
      EmptyChain(e.hash, Combine(shareA, shareB));
      node := e.First(inputs, [], shareA, shareB);
      ran := ran + [Run([], true)];
      path := [inputs, node];
      assert e.Made([], true, old(e.runs), inputs, node);
      StrippedShows(e, node, Wanted(0));
      node := Stripped(node);
    }

    /** prune_cache_for_target */
    method Prune(target: nat)
      requires Valid()
      modifies this`cache
      ensures Valid() && MasksOf(cache) == Pruned(old(MasksOf(cache)), target)
    {
      hide Wanted, Retained, Engine.Holds, Engine.HoldsShares;
      ghost var plan := MasksOf(cache);
      assert forall k :: k in cache ==> plan[k] == cache[k].mask;
      cache := map k | k in cache && Retained(cache[k].mask, target) :: cache[k];
      assert MasksOf(cache) == Pruned(plan, target);
    }
  }

  lemma StrippedShows<D>(e: Engine<D>, n: Node, v: Value)
    requires e.Shows(n, v)
    ensures e.Shows(Stripped(n), v)
  {
  }

  lemma EmptyChain(hash: Value -> Value, v: Value)
    ensures Chain(hash, v, []) == v
  {
  }

  lemma OneStepChain(hash: Value -> Value, v: Value, bit: nat)
    requires bit < INDEX_BITS
    ensures Chain(hash, v, [bit]) == hash(Flip(v, bit))
  {
    EmptyChain(hash, v);
    assert [bit][..0] == [];
  }

  /** A session whose inputs are the two parties' shares. */
  method Setup<D(==)>(e: Engine<D>, shareA: Value, shareB: Value) returns (s: PrecomputeSession<D>)
    requires e.Valid()
    modifies e`at, e.alice`pos, e.bob`pos
    ensures fresh(s) && s.e == e && s.Valid() && e.Valid() && s.cache == map[] && s.ran == [] && s.shareA == shareA && s.shareB == shareB
    ensures |s.inputs.alice.bundle| == 2 * VALUE_BITS && FreshWires(s.inputs.alice, s.inputs.bob, e.alice, e.bob, old(e.alice.pos), e.prg, old(e.at))
    ensures e.at == old(e.at) + 2 * VALUE_BITS && e.alice.pos == old(e.alice.pos) + 2 * VALUE_BITS
  {
    hide Engine.Valid, Engine.ChunkYields, Engine.TileYields, Engine.TrunkYields, FreshWires, Engine.HoldsShares;
    var inputs := e.Seed(shareA, shareB);
    s := new PrecomputeSession(e, inputs, shareA, shareB);
  }

  /** Any run of targets. */
  method PrecomputeAll<D(==)>(s: PrecomputeSession<D>, targets: seq<nat>) returns (nodes: seq<Node>)
    requires s.Valid() && s.e.Valid() && forall i :: 0 <= i < |targets| ==> targets[i] <= MAX_INDEX
    modifies s`cache, s`ran, s.e`runs, s.e`hashes, s.e.alice, s.e.bob
    ensures s.Valid() && s.e.Valid() && |nodes| == |targets|
    ensures forall i :: 0 <= i < |targets| ==> s.e.Shows(nodes[i], s.Wanted(targets[i]))
    ensures MasksOf(s.cache) == PlanAfter(old(MasksOf(s.cache)), targets)
    ensures s.ran == old(s.ran) + RunAfter(old(MasksOf(s.cache)), targets)
  {
    hide NextPlan, TargetRuns, MasksOf, PlanAfter, RunAfter, PrecomputeSession.Wanted, PrecomputeSession.Valid, Engine.Valid, Engine.ChunkYields, Engine.TileYields, Engine.TrunkYields, FreshWires, Engine.Shows;
    nodes := [];
    ghost var plan, log := MasksOf(s.cache), s.ran;
    NoTargets(plan, targets[..0]);
    assert log + [] == log;
    for i := 0 to |targets|
      invariant s.Valid() && s.e.Valid() && |nodes| == i && forall j :: 0 <= j < i ==> s.e.Shows(nodes[j], s.Wanted(targets[j]))
      invariant MasksOf(s.cache) == PlanAfter(plan, targets[..i]) && s.ran == log + RunAfter(plan, targets[..i])
    {
      assert targets[..i + 1][..i] == targets[..i];
      OneMoreTarget(plan, targets[..i + 1]);
      var n;
      ghost var path;
      n, path := s.PrecomputeTarget(targets[i]);
      nodes := nodes + [n];
    }
    assert targets[..|targets|] == targets;
  }

  /** Two sessions with the same cached masks, whatever their gadgets, shares and keys, run the same programs for the
  same targets and end with the same masks. */
  method SamePrograms<D(==)>(s: PrecomputeSession<D>, t: PrecomputeSession<D>, targets: seq<nat>)
    requires s.Valid() && s.e.Valid() && t.Valid() && t.e.Valid() && forall i :: 0 <= i < |targets| ==> targets[i] <= MAX_INDEX
    requires {s, s.e, s.e.alice, s.e.bob} !! {t, t.e, t.e.alice, t.e.bob}
    requires MasksOf(s.cache) == MasksOf(t.cache)
    modifies s`cache, s`ran, s.e`runs, s.e`hashes, s.e.alice, s.e.bob, t`cache, t`ran, t.e`runs, t.e`hashes, t.e.alice, t.e.bob
    ensures MasksOf(s.cache) == MasksOf(t.cache)
    ensures |s.ran| - |old(s.ran)| == |t.ran| - |old(t.ran)| >= 0 && s.ran[|old(s.ran)|..] == t.ran[|old(t.ran)|..]
  {
    hide PrecomputeSession.Valid, Engine.Valid, Engine.ChunkYields, Engine.TileYields, Engine.TrunkYields, FreshWires, MasksOf, PlanAfter, RunAfter;
    var a := PrecomputeAll(s, targets);
    var b := PrecomputeAll(t, targets);
  }
}

/** A session as the callers above it use it: chain nodes are held by both parties as authenticated wires, edges and
tiles run as programs, and a reveal opens a node. */
module Nodes {
  import opened Options
  import opened Blocks
  import opened Auth
  import opened Programs
  import opened Masks
  import opened Shachain
  import opened Circuits
  import opened ChainCircuits
  import opened TileCircuits
  import opened DerivationPlans
  import opened Compile
  import opened CircuitRuns
  import opened RangeCovers
  import opened TriplePool
  import opened TripleGeneration
  import opened RunStates
  import opened Sessions
  import opened Reveals
  import EndToEnd

  /** What the two parties hold of a node. */
  datatype Node = Node(alice: SecureWires, bob: SecureWires)

  /** Both parties' ends of a session that runs chunks and tiles of one gadget. */
  class Engine<!D(==)> {
    const alice: Pool
    const bob: Pool
    const sha: Circuit
    /** What the transcript yields for the run with this number. */
    const envs: nat -> Env<D>
    const prg: nat -> Block
    const digest: seq<Block> -> D
    /** The hash the gadget stands for. */
    ghost const hash: Value -> Value
    /** The programs run so far, and the hash steps in them. */
    var runs: nat
    var hashes: nat
    /** Where Alice's label generator stands. */
    var at: nat

    ghost predicate Valid()
      reads alice, bob
    {
      && PoolsPaired(alice, bob) && (forall i :: envs(i).Honest())
      && IsGadget(sha) && HasAnd(sha) && AllFit(sha) && hash == GadgetHash(sha)
    }

    constructor (alice: Pool, bob: Pool, sha: Circuit, envs: nat -> Env<D>, prg: nat -> Block, digest: seq<Block> -> D)
      requires PoolsPaired(alice, bob) && (forall i :: envs(i).Honest()) && IsGadget(sha) && HasAnd(sha) && AllFit(sha)
      ensures Valid() && this.alice == alice && this.bob == bob && this.sha == sha && runs == hashes == 0 && hash == GadgetHash(sha)
    {
      this.alice, this.bob, this.sha, this.envs, this.prg, this.digest := alice, bob, sha, envs, prg, digest;
      hash, runs, hashes, at := GadgetHash(sha), 0, 0, 0;
    }

    /** The node's wires carry the value and can go into further programs. */
    ghost predicate Holds(n: Node, v: Value) {
      CarriesBoth(n.alice, n.bob, MsbFirst(v), alice.delta, bob.delta)
    }

    /** The node's shares stand for the value: enough to reveal it. */
    ghost predicate Shows(n: Node, v: Value) {
      Stands(n.alice, n.bob, MsbFirst(v), alice.delta, bob.delta)
    }

    /** The inputs carry the two shares of the seed. */
    ghost predicate HoldsShares(n: Node, shareA: Value, shareB: Value) {
      CarriesBoth(n.alice, n.bob, ShareWires(shareB, shareA), alice.delta, bob.delta)
    }

    lemma HeldShows(n: Node, v: Value)
      requires Holds(n, v)
      ensures Shows(n, v)
    {
      hide MsbFirst, Related;
      CarriedStands(n.alice, n.bob, MsbFirst(v), alice.delta, bob.delta);
    }

    lemma CarriedShows(n: Node, v: Value)
      requires Carries(n.alice, n.bob, MsbFirst(v), alice.delta, bob.delta)
      ensures Shows(n, v)
    {
      hide MsbFirst, Related;
      CarriedStands(n.alice, n.bob, MsbFirst(v), alice.delta, bob.delta);
    }

    /** The shares the two pools hand out in the current session. */
    ghost function PoolSource(): Source
      reads alice`session
    {
      SourceOf(alice, bob)
    }

    /** `n` is what the session's run `run` of a program yields from `input`, with the pools at `pos` of `source`. */
    ghost predicate Yields(p: Program, run: nat, source: Source, pos: nat, input: Node, n: Node) {
      Outcome(p, envs(run), source, pos, input.alice, input.bob, n.alice, n.bob)
    }

    ghost predicate ChunkYields(bits: seq<nat>, first: bool, run: nat, source: Source, pos: nat, input: Node, n: Node) {
      && IsGadget(sha) && Indices(bits) && HeaderFits(ChunkCircuit(sha, bits, first))
      && Yields(ChunkProgramOf(sha, bits, first), run, source, pos, input, n)
    }

    /** ... wherever the pools stood. */
    ghost predicate Made(bits: seq<nat>, first: bool, run: nat, from: Node, n: Node) {
      exists source, pos :: ChunkYields(bits, first, run, source, pos, from, n)
    }

    /** `n` is one hash step below `from`: some run of that step's program made it. */
    ghost predicate Edge(bit: nat, from: Node, n: Node) {
      exists run :: Made([bit], false, run, from, n)
    }

    /** The arms are cut from what a tile yields. */
    ghost predicate TileYields(off: nat, height: nat, run: nat, source: Source, pos: nat, root: Node, arms: seq<Node>) {
      && IsGadget(sha) && 1 <= height && off + height <= INDEX_BITS && HeaderFits(TileCircuit(sha, off, height))
      && exists whole :: Yields(TileProgramOf(sha, off, height), run, source, pos, root, whole) && CutFrom(whole, arms)
    }

    /** The authenticated seed inputs, on fresh shares and labels. */
    method Seed(shareA: Value, shareB: Value) returns (s: Node)
      requires Valid()
      modifies this`at, alice`pos, bob`pos
      ensures Valid() && HoldsShares(s, shareA, shareB)
      ensures |s.alice.bundle| == 2 * VALUE_BITS && FreshWires(s.alice, s.bob, alice, bob, old(alice.pos), prg, old(at))
      ensures at == old(at) + 2 * VALUE_BITS && alice.pos == old(alice.pos) + 2 * VALUE_BITS
    {
      hide FreshWires, PoolsPaired, CarriesBoth, IsGadget, HasAnd, AllFit, ShareWires;
      var a, b, next := EndToEnd.SeedInputs(alice, bob, shareA, shareB, prg, at, digest);
      at := next;
      s := Node(a, b);
    }

    /** The trunk of an index in chunks of `size` steps: it holds the index's secret. */
    method Trunk(s: Node, index: nat, size: nat, ghost shareA: Value, ghost shareB: Value) returns (t: Node)
      requires Valid() && HoldsShares(s, shareA, shareB) && 0 < index <= MAX_INDEX && size > 0
      modifies this`runs, this`hashes, alice, bob
      ensures Valid() && Holds(t, Secret(hash, Combine(shareA, shareB), index))
      ensures runs == old(runs) + ChunkCount(|SetBits(index)|, size) && hashes == old(hashes) + |SetBits(index)|
      ensures TrunkYields(s, index, size, old(runs), runs, t)
    {
      hide EndToEnd.StagesRun, PoolsPaired, Carries, CarriesBoth, IsGadget, HasAnd, AllFit, ShareWires, Secret, EndToEnd.PlanFits, GadgetHash, MsbFirst, ChunkCount, SetBits;
      GadgetInRange(sha);
      EndToEnd.SmallPlanFits(sha, index, size);
      var done;
      ghost var groups, stages;
      done, groups, stages := EndToEnd.RunPlan(alice, bob, envs, runs, sha, index, size, s.alice, s.bob, shareA, shareB);
      var bits := SetBitsDesc(index);
      runs, hashes := runs + done.runs, hashes + |bits|;
      CountedGroups(groups, size);
      t := Node(done.alice, done.bob);
      assert TrunkRuns(s, index, size, old(runs), runs, groups, stages, t);
    }

    ghost predicate TrunkYields(s: Node, index: nat, size: nat, from: nat, upto: nat, t: Node) {
      exists groups, stages :: TrunkRuns(s, index, size, from, upto, groups, stages, t)
    }

    /** The trunk is the index's chunks run one after the other, each under the keys of its own run. */
    ghost predicate TrunkRuns(s: Node, index: nat, size: nat, from: nat, upto: nat, groups: seq<seq<nat>>, stages: seq<EndToEnd.Stage>, t: Node) {
      && Cut(groups, size) && Flatten(groups) == SetBits(index) && upto == from + |groups|
      && EndToEnd.StagesRun(alice, bob, envs, from, sha, groups, stages)
      && stages[0].a == s.alice && stages[0].b == s.bob && stages[|groups|].a == t.alice && stages[|groups|].b == t.bob
    }

    /** A chunk that starts from the seed's shares. */
    method First(s: Node, bits: seq<nat>, ghost shareA: Value, ghost shareB: Value) returns (n: Node)
      requires Valid() && HoldsShares(s, shareA, shareB) && Indices(bits) && |bits| <= INDEX_BITS
      modifies this`runs, this`hashes, alice, bob
      ensures Valid() && runs == old(runs) + 1 && hashes == old(hashes) + |bits| && Shows(n, Chain(hash, Combine(shareA, shareB), bits))
      ensures bits != [] ==> Holds(n, Chain(hash, Combine(shareA, shareB), bits))
      ensures ChunkYields(bits, true, old(runs), old(PoolSource()), old(alice.pos), s, n)
    {
      hide Outcome, ChunkProgramOf, PoolsPaired, Carries, CarriesBoth, IsGadget, HasAnd, Shows, ShareWires, Combine, Combined, GadgetHash, MsbFirst, Chain, ChunkCircuit, Circuits.Eval, TileCircuit, HeaderFits;
      GadgetInRange(sha);
      ghost var x := ShareWires(shareB, shareA);
      ChunkComputes(sha, bits, true, x);
      CombinedShares(shareB, shareA);
      EndToEnd.CombineSwap(shareA, shareB);
      var run := RunChunk(alice, bob, envs(runs), sha, bits, true, s.alice, s.bob, x);
      runs, hashes := runs + 1, hashes + |bits|;
      n := Node(run.alice, run.bob);
      CarriedShows(n, Chain(hash, Combine(shareA, shareB), bits));
    }

    /** A chunk that starts from a node. */
    method Next(from: Node, bits: seq<nat>, ghost v: Value) returns (n: Node)
      requires Valid() && Holds(from, v) && Indices(bits) && |bits| <= INDEX_BITS
      modifies this`runs, this`hashes, alice, bob
      ensures Valid() && runs == old(runs) + 1 && hashes == old(hashes) + |bits| && Shows(n, Chain(hash, v, bits))
      ensures bits != [] ==> Holds(n, Chain(hash, v, bits))
      ensures ChunkYields(bits, false, old(runs), old(PoolSource()), old(alice.pos), from, n)
    {
      hide Outcome, ChunkProgramOf, PoolsPaired, Carries, CarriesBoth, IsGadget, HasAnd, Shows, GadgetHash, MsbFirst, Chain, ChunkCircuit, Circuits.Eval, TileCircuit, HeaderFits;
      GadgetInRange(sha);
      ChunkComputes(sha, bits, false, MsbFirst(v));
      MsbFirstTwice(v);
      var run := RunChunk(alice, bob, envs(runs), sha, bits, false, from.alice, from.bob, MsbFirst(v));
      runs, hashes := runs + 1, hashes + |bits|;
      n := Node(run.alice, run.bob);
      CarriedShows(n, Chain(hash, v, bits));
    }

    /** A tile below a node, cut into its arms. */
    method Tile(root: Node, off: nat, height: nat, ghost v: Value) returns (arms: seq<Node>)
      requires Valid() && Holds(root, v) && 1 <= height <= MAX_HEIGHT && off + height <= INDEX_BITS
      modifies this`runs, this`hashes, alice, bob
      ensures Valid() && runs == old(runs) + 1 && hashes == old(hashes) + Pow2(height) - 1 && AllHold(arms, RangeCovers.TileArms(hash, v, off, height))
      ensures TileYields(off, height, old(runs), old(PoolSource()), old(alice.pos), root, arms)
    {
      hide Outcome, TileProgramOf, ArmsOf, PoolsPaired, CarriesBoth, IsGadget, HasAnd, GadgetHash, MsbFirst, RangeCovers.TileArms, ChunkCircuit, TileCircuit, HeaderFits;
      GadgetInRange(sha);
      var run;
      ghost var oa, ob;
      run, oa, ob := RunTile(alice, bob, envs(runs), sha, off, height, root.alice, root.bob, v);
      runs, hashes := runs + 1, hashes + Pow2(height) - 1;
      arms := seq(|run.alice|, s requires 0 <= s < |run.alice| => Node(run.alice[s], run.bob[s]));
      assert seq(|arms|, s requires 0 <= s < |arms| => arms[s].alice) == run.alice && seq(|arms|, s requires 0 <= s < |arms| => arms[s].bob) == run.bob;
      assert Yields(TileProgramOf(sha, off, height), old(runs), old(PoolSource()), old(alice.pos), root, Node(oa, ob)) && CutFrom(Node(oa, ob), arms);
    }

    /** The arms are the wires of the tile's output, 256 at a time. */
    ghost predicate CutFrom(whole: Node, arms: seq<Node>) {
      && ArmsOf(whole.alice, seq(|arms|, s requires 0 <= s < |arms| => arms[s].alice))
      && ArmsOf(whole.bob, seq(|arms|, s requires 0 <= s < |arms| => arms[s].bob))
    }

    /** Node by node the values are held. */
    ghost predicate AllHold(nodes: seq<Node>, values: seq<Value>) {
      |nodes| == |values| && forall s :: 0 <= s < |nodes| ==> Holds(nodes[s], values[s])
    }

    ghost predicate AllShow(nodes: seq<Node>, values: seq<Value>) {
      |nodes| == |values| && forall s :: 0 <= s < |nodes| ==> Shows(nodes[s], values[s])
    }

    /** Reveals, one node after the other. */
    method RevealAll(nodes: seq<Node>, ghost values: seq<Value>) returns (a: seq<Value>, b: seq<Value>)
      requires AllShow(nodes, values)
      ensures a == b == values
    {
      hide Shows;
      a, b := [], [];
      for s := 0 to |nodes|
        invariant a == b == values[..s]
      {
        var va, vb := Reveal(nodes[s], values[s]);
        a, b := a + [va], b + [vb];
      }
    }

    /** The public reveal of a node: both parties learn its value. */
    method Reveal(n: Node, ghost v: Value) returns (a: Value, b: Value)
      requires Shows(n, v)
      ensures a == b == v
    {
      hide MsbFirst, Stands;
      MsbFirstTwice(v);
      var ra, rb := RevealPublic(n.alice, n.bob, digest, None, alice.delta, bob.delta, MsbFirst(v));
      a, b := MsbFirst(ra.bits), MsbFirst(rb.bits);
    }
  }
}

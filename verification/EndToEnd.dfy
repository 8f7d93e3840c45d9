/** The whole derivation.

Two shares of a seed go in as authenticated inputs, the index's hash steps run as garbled programs one after
the other, and the public reveal is the BOLT #3 secret. */
module EndToEnd {
  import opened Options
  import opened Blocks
  import opened Auth
  import opened Masks
  import opened Shachain
  import opened Circuits
  import opened ChainCircuits
  import opened TileCircuits
  import opened DerivationPlans
  import opened Compile
  import opened CircuitRuns
  import opened TriplePool
  import opened TripleGeneration
  import opened RunStates
  import opened Sessions
  import opened Reveals
  import SoftSession
  import opened CotShares

  /** The chunk circuits of a plan fit the compiler's wire limit. */
  ghost predicate ChunksFit(sha: Circuit, groups: seq<seq<nat>>)
    requires sha.InRange() && GadgetShape(sha)
  {
    forall i :: 0 <= i < |groups| && Indices(groups[i]) ==> HeaderFits(ChunkCircuit(sha, groups[i], i == 0))
  }

  /** ... and those of the index's plan for a chunk size do, as `SmallPlanFits` shows of any gadget of up to 2^23 wires. */
  ghost predicate PlanFits(sha: Circuit, index: nat, size: nat)
    requires sha.InRange() && GadgetShape(sha)
  {
    forall groups :: Cut(groups, size) && Flatten(groups) == SetBits(index) ==> ChunksFit(sha, groups)
  }

  lemma SmallPlanFits(sha: Circuit, index: nat, size: nat)
    requires IsGadget(sha) && AllFit(sha) && index <= MAX_INDEX
    ensures PlanFits(sha, index, size)
  {
    hide IsGadget, ChunkCircuit, SetBits, Flatten, HeaderFits, Cut;
    GadgetInRange(sha);
    forall groups | Cut(groups, size) && Flatten(groups) == SetBits(index)
      ensures ChunksFit(sha, groups)
    {
      forall i | 0 <= i < |groups| && Indices(groups[i])
        ensures HeaderFits(ChunkCircuit(sha, groups[i], i == 0))
      {
        FlatLength(groups, i);
        FewBits(index);
      }
    }
  }

  lemma {:induction false} FlatLength(groups: seq<seq<nat>>, i: nat)
    requires i < |groups|
    ensures |groups[i]| <= |Flatten(groups)|
  {
    if i < |groups| - 1 {
      FlatLength(groups[..|groups| - 1], i);
    }
  }

  lemma FewBits(index: nat)
    requires index <= MAX_INDEX
    ensures |SetBits(index)| <= INDEX_BITS
  {
    IndexWidth();
    SetBitsCount(index);
    PopBound(index, INDEX_BITS);
  }

  // ---- inputs ----

  function Beside(a: SecureWires, b: SecureWires): SecureWires {
    SecureWires(a.lambda + b.lambda, a.bundle + b.bundle, a.label0 + b.label0, a.eval + b.eval)
  }

  lemma BesideCarries(a1: SecureWires, b1: SecureWires, v1: seq<bool>, a2: SecureWires, b2: SecureWires, v2: seq<bool>, dA: Block, dB: Block)
    requires CarriesBoth(a1, b1, v1, dA, dB) && CarriesBoth(a2, b2, v2, dA, dB)
    ensures CarriesBoth(Beside(a1, a2), Beside(b1, b2), v1 + v2, dA, dB)
  {
    hide GarbledRun.WireInvariant, Related;
  }

  /** authenticate_seed_inputs: Bob's share first, then Alice's, each fed in by its owner; Alice's label generator
  moves on from one call to the next. */
  method SeedInputs<D(==)>(alice: Pool, bob: Pool, shareA: Value, shareB: Value, prg: nat -> Block, at: nat, digest: seq<Block> -> D)
    returns (a: SecureWires, b: SecureWires, next: nat)
    requires PoolsPaired(alice, bob)
    modifies alice`pos, bob`pos
    ensures PoolsPaired(alice, bob) && CarriesBoth(a, b, ShareWires(shareB, shareA), alice.delta, bob.delta)
    ensures next == at + 2 * VALUE_BITS && alice.pos == old(alice.pos) + 2 * VALUE_BITS
    ensures |a.bundle| == 2 * VALUE_BITS && FreshWires(a, b, alice, bob, old(alice.pos), prg, at)
  {
    hide CarriesBoth, PoolsPaired, MsbFirst, Joined, FreshWires;
    PoolsApart(alice, bob);
    var zeros := NoBits(VALUE_BITS);
    NoOffset([zeros]);
    NoOffset([MsbFirst(shareA)]);
    OneGroup(zeros);
    OneGroup(MsbFirst(shareA));
    var first, middle := ProcessInputs(alice, bob, [Bob], [zeros], [MsbFirst(shareB)], prg, at, digest, None);
    var second;
    second, next := ProcessInputs(alice, bob, [Alice], [MsbFirst(shareA)], [zeros], prg, middle, digest, None);
    var a1, b1, a2, b2 := first.alice[0], first.bob[0], second.alice[0], second.bob[0];
    BesideCarries(a1, b1, MsbFirst(shareB), a2, b2, MsbFirst(shareA), alice.delta, bob.delta);
    CarriedShape(a1, b1, MsbFirst(shareB), alice.delta, bob.delta);
    CarriedShape(a2, b2, MsbFirst(shareA), alice.delta, bob.delta);
    BesideFresh(a1, b1, a2, b2, alice, bob, old(alice.pos), prg, at);
    a, b := Beside(a1, a2), Beside(b1, b2);
  }

  lemma CarriedShape(a: SecureWires, b: SecureWires, values: seq<bool>, dA: Block, dB: Block)
    requires CarriesBoth(a, b, values, dA, dB)
    ensures |a.bundle| == |b.bundle| == |a.label0| == |values|
  {
  }

  lemma BesideFresh(a1: SecureWires, b1: SecureWires, a2: SecureWires, b2: SecureWires, alice: Pool, bob: Pool, pos: nat, prg: nat -> Block, at: nat)
    requires FreshWires(a1, b1, alice, bob, pos, prg, at) && FreshWires(a2, b2, alice, bob, pos + |a1.bundle|, prg, at + |a1.bundle|)
    ensures FreshWires(Beside(a1, a2), Beside(b1, b2), alice, bob, pos, prg, at)
  {
    var a, b, n := Beside(a1, a2), Beside(b1, b2), |a1.bundle|;
    forall i | 0 <= i < |a.bundle|
      ensures a.bundle[i] == alice.stream(alice.session, pos + i) && b.bundle[i] == bob.stream(bob.session, pos + i)
      ensures a.label0[i] == prg(at + i)
    {
      if i >= n {
        assert pos + n + (i - n) == pos + i && at + n + (i - n) == at + i;
      }
    }
  }

  lemma OneGroup(bits: seq<bool>)
    ensures |Joined([bits])| == |bits|
  {
    assert [bits][..0] == [];
  }

  lemma PoolsApart(alice: Pool, bob: Pool)
    requires PoolsPaired(alice, bob)
    ensures alice != bob
  {
  }

  // ---- the derivation ----

  datatype Derivation = Revealed(alice: Opening, bob: Opening) | NotRevealed

  datatype Chained = Node(alice: SecureWires, bob: SecureWires, runs: nat) | NoPlan

  /** What both parties hold between two runs, and where their pools stand. */
  datatype Stage = Stage(a: SecureWires, b: SecureWires, session: nat, pos: nat)

  /** One chunk leads from stage `s` to stage `t`. */
  ghost predicate StageRuns<D>(alice: Pool, bob: Pool, env: Env<D>, sha: Circuit, bits: seq<nat>, first: bool, s: Stage, t: Stage) {
    && IsGadget(sha) && Indices(bits) && HeaderFits(ChunkCircuit(sha, bits, first))
    && Outcome(ChunkProgramOf(sha, bits, first), env, Source(alice.stream, bob.stream, s.session, alice.delta, bob.delta), s.pos, s.a, s.b, t.a, t.b)
  }

  /** The groups' chunks lead from each stage to the next; the run of group `i` is the session's run `from + i`. */
  ghost predicate StagesRun<D>(alice: Pool, bob: Pool, envs: nat -> Env<D>, from: nat, sha: Circuit, groups: seq<seq<nat>>, stages: seq<Stage>) {
    |stages| == |groups| + 1 && forall i, j :: 0 <= i < |groups| && j == i + 1 ==>
      StageRuns(alice, bob, envs(from + i), sha, groups[i], i == 0, stages[i], stages[j])
  }

  /** The chunks of an index, one program each, from the seed inputs down: the last outputs carry the index's secret
  of the combined shares. `envs(from + i)` holds what the transcript yields for chunk `i`. */
  method RunPlan<D(==)>(alice: Pool, bob: Pool, envs: nat -> Env<D>, from: nat, sha: Circuit, index: nat, size: nat,
                        ia: SecureWires, ib: SecureWires, ghost shareA: Value, ghost shareB: Value)
    returns (r: Chained, ghost groups: seq<seq<nat>>, ghost stages: seq<Stage>)
    requires PoolsPaired(alice, bob) && (forall i :: envs(i).Honest()) && IsGadget(sha) && HasAnd(sha)
    requires index <= MAX_INDEX && PlanFits(sha, index, size)
    requires CarriesBoth(ia, ib, ShareWires(shareB, shareA), alice.delta, bob.delta)
    modifies alice, bob
    ensures PoolsPaired(alice, bob) && (size == 0 ==> r == NoPlan)
    ensures size > 0 ==>
      r.Node? && Carries(r.alice, r.bob, MsbFirst(Secret(GadgetHash(sha), Combine(shareA, shareB), index)), alice.delta, bob.delta)
    ensures size > 0 && index > 0 ==>
      CarriesBoth(r.alice, r.bob, MsbFirst(Secret(GadgetHash(sha), Combine(shareA, shareB), index)), alice.delta, bob.delta)
    ensures size > 0 ==>
      && Cut(groups, size) && Flatten(groups) == SetBits(index) && r.runs == |groups|
      && StagesRun(alice, bob, envs, from, sha, groups, stages) && stages[0] == Stage(ia, ib, old(alice.session), old(alice.pos))
      && stages[|groups|].a == r.alice && stages[|groups|].b == r.bob
  {
    hide StageRuns, PoolsPaired, Carries, CarriesBoth, IsGadget, HasAnd, ShareWires, Combine, Secret, GadgetHash, MsbFirst, Flatten, SetBits, ChunkCircuit, Circuits.Eval;
    GadgetInRange(sha);
    var split := SplitChainBits(index, size);
    if !split.Groups? {
      r, groups, stages := NoPlan, [], [];
      return;
    }
    groups := split.groups;
    IndexBits(index);
    ghost var x := ShareWires(shareB, shareA);
    GroupsFit(sha, groups, index, size);
    var a, b;
    a, b, stages := RunGroups(alice, bob, envs, from, sha, split.groups, ia, ib, x);
    SplitComputesSecret(sha, index, groups, shareB, shareA);
    CombineSwap(shareA, shareB);
    LastGroup(groups, index, size);
    r := Node(a, b, |split.groups|);
  }

  lemma GroupsFit(sha: Circuit, groups: seq<seq<nat>>, index: nat, size: nat)
    requires sha.InRange() && GadgetShape(sha) && PlanFits(sha, index, size) && size > 0 && Cut(groups, size) && Flatten(groups) == SetBits(index)
    ensures ChunksFit(sha, groups) && forall i :: 0 <= i < |groups| - 1 ==> groups[i] != []
  {
  }

  /** The groups one after the other, each on the wires of the one before. */
  method RunGroups<D(==)>(alice: Pool, bob: Pool, envs: nat -> Env<D>, from: nat, sha: Circuit, groups: seq<seq<nat>>,
                          ia: SecureWires, ib: SecureWires, ghost x: seq<bool>)
    returns (a: SecureWires, b: SecureWires, ghost stages: seq<Stage>)
    requires PoolsPaired(alice, bob) && (forall i :: envs(i).Honest()) && IsGadget(sha) && HasAnd(sha) && ChunksFit(sha, groups)
    requires groups != [] && Indices(Flatten(groups)) && (forall i :: 0 <= i < |groups| - 1 ==> groups[i] != []) && |x| == 2 * VALUE_BITS
    requires CarriesBoth(ia, ib, x, alice.delta, bob.delta)
    modifies alice, bob
    ensures PoolsPaired(alice, bob) && Carries(a, b, RunChunks(sha, groups, x), alice.delta, bob.delta)
    ensures groups[|groups| - 1] != [] ==> CarriesBoth(a, b, RunChunks(sha, groups, x), alice.delta, bob.delta)
    ensures StagesRun(alice, bob, envs, from, sha, groups, stages) && stages[0] == Stage(ia, ib, old(alice.session), old(alice.pos))
    ensures stages[|groups|].a == a && stages[|groups|].b == b
  {
    hide StageRuns, Outcome, PoolsPaired, Carries, CarriesBoth, IsGadget, HasAnd, Flatten, ChunkCircuit, Circuits.Eval, RunChunks, HeaderFits;
    GadgetInRange(sha);
    a, b := ia, ib;
    stages := [Stage(ia, ib, alice.session, alice.pos)];
    for i := 0 to |groups|
      invariant PoolsPaired(alice, bob) && |stages| == i + 1 && stages[i] == Stage(a, b, alice.session, alice.pos)
      invariant stages[0] == Stage(ia, ib, old(alice.session), old(alice.pos))
      invariant forall k, l :: 0 <= k < i && l == k + 1 ==> StageRuns(alice, bob, envs(from + k), sha, groups[k], k == 0, stages[k], stages[l])
      invariant i == 0 ==> CarriesBoth(a, b, x, alice.delta, bob.delta)
      invariant i > 0 ==> Indices(Flatten(groups[..i])) && Carries(a, b, RunChunks(sha, groups[..i], x), alice.delta, bob.delta)
      invariant i > 0 && groups[i - 1] != [] ==> CarriesBoth(a, b, RunChunks(sha, groups[..i], x), alice.delta, bob.delta)
    {
      PrefixIndices(groups, i + 1);
      NextChunk(sha, groups, i, x);
      ghost var input := if i == 0 then x else RunChunks(sha, groups[..i], x);
      var done := RunChunk(alice, bob, envs(from + i), sha, groups[i], i == 0, a, b, input);
      a, b := done.alice, done.bob;
      StageRan(alice, bob, envs(from + i), sha, groups[i], i == 0, stages[i], Stage(a, b, alice.session, alice.pos));
      stages := stages + [Stage(a, b, alice.session, alice.pos)];
    }
    assert groups[..|groups|] == groups;
  }

  lemma StageRan<D>(alice: Pool, bob: Pool, env: Env<D>, sha: Circuit, bits: seq<nat>, first: bool, s: Stage, t: Stage)
    requires IsGadget(sha) && Indices(bits) && HeaderFits(ChunkCircuit(sha, bits, first))
    requires Outcome(ChunkProgramOf(sha, bits, first), env, Source(alice.stream, bob.stream, s.session, alice.delta, bob.delta), s.pos, s.a, s.b, t.a, t.b)
    ensures StageRuns(alice, bob, env, sha, bits, first, s, t)
  {
  }

  /** For every well-formed gadget with an AND gate, every index, every chunk size whose chunks compile, every pair of
  seed shares and any keys and digests of the individual runs, both parties learn exactly the secret BOLT #3 assigns
  to the index under the XOR of the shares. */
  method Derive<D(==)>(alice: Pool, bob: Pool, envs: nat -> Env<D>, digest: seq<Block> -> D, sha: Circuit, index: nat, size: nat,
                       shareA: Value, shareB: Value, prg: nat -> Block) returns (r: Derivation)
    requires PoolsPaired(alice, bob) && (forall i :: envs(i).Honest()) && IsGadget(sha) && HasAnd(sha)
    requires index <= MAX_INDEX && PlanFits(sha, index, size)
    modifies alice, bob
    ensures PoolsPaired(alice, bob) && (size == 0 ==> r == NotRevealed)
    ensures size > 0 ==>
      r.Revealed? && r.alice == r.bob == Bits(MsbFirst(Secret(GadgetHash(sha), Combine(shareA, shareB), index)))
  {
    hide PoolsPaired, Carries, CarriesBoth, IsGadget, HasAnd, ShareWires, Combine, Secret, GadgetHash, MsbFirst, PlanFits;
    GadgetInRange(sha);
    if size == 0 {
      return NotRevealed;
    }
    var a, b, next := SeedInputs(alice, bob, shareA, shareB, prg, 0, digest);
    var node;
    ghost var groups, stages;
    node, groups, stages := RunPlan(alice, bob, envs, 0, sha, index, size, a, b, shareA, shareB);
    ghost var out := MsbFirst(Secret(GadgetHash(sha), Combine(shareA, shareB), index));
    CarriedStands(node.alice, node.bob, out, alice.delta, bob.delta);
    var ra, rb := RevealPublic(Strip(node.alice), Strip(node.bob), digest, None, alice.delta, bob.delta, out);
    return Revealed(ra, rb);
  }

  /** The same from the OT instances up: two pairs of SoftSpoken roles in step open the pools. What the pools then hand
  out is what those roles mint, request by request and session by session (CotShares.GenCotShares, FlushCotCheck). */
  method DeriveFromOts<D(==)>(a1: SoftSession.Cot, b1: SoftSession.Cot, b2: SoftSession.Cot, a2: SoftSession.Cot,
                              w1: SoftSession.World<D>, w2: SoftSession.World<D>,
                              seeds1: nat -> (Block, Block), seeds2: nat -> (Block, Block),
                              envs: nat -> Env<D>, digest: seq<Block> -> D, sha: Circuit, index: nat, size: nat,
                              shareA: Value, shareB: Value, prg: nat -> Block) returns (r: Derivation)
    requires Apart(a1, b1, b2, a2) && SoftSession.InStep(a1, b1) && SoftSession.InStep(b2, a2) && NormalDeltas(a1.delta, b2.delta)
    requires (forall i :: envs(i).Honest()) && IsGadget(sha) && HasAnd(sha)
    requires index <= MAX_INDEX && PlanFits(sha, index, size)
    modifies a1, b1, b2, a2
    ensures size == 0 ==> r == NotRevealed
    ensures size > 0 ==>
      r.Revealed? && r.alice == r.bob == Bits(MsbFirst(Secret(GadgetHash(sha), Combine(shareA, shareB), index)))
  {
    hide SoftSession.InStep, At, PoolsPaired, PlanFits, IsGadget, HasAnd, AliceStream, BobStream, Secret;
    var alice, bob;
    ghost var d1, d2;
    alice, bob, d1, d2 := OpenPools(a1, b1, b2, a2, w1, w2, seeds1, seeds2);
    r := Derive(alice, bob, envs, digest, sha, index, size, shareA, shareB, prg);
  }

  lemma CombineSwap(a: Value, b: Value)
    ensures Combine(a, b) == Combine(b, a)
  {
  }

  /** An index with bits has them in the last group too. */
  lemma LastGroup(groups: seq<seq<nat>>, index: nat, size: nat)
    requires Cut(groups, size) && Flatten(groups) == SetBits(index)
    ensures index > 0 ==> groups[|groups| - 1] != []
  {
    if |groups| == 1 && groups[0] == [] {
      assert groups[..0] == [];
      assert Flatten(groups) == [];
    }
  }

  lemma {:induction false} PrefixIndices(groups: seq<seq<nat>>, k: nat)
    requires Indices(Flatten(groups)) && k <= |groups|
    ensures Indices(Flatten(groups[..k]))
  {
    if k < |groups| {
      GroupIndices(groups, 0);
      var m := |groups| - 1;
      PrefixIndices(groups[..m], k);
      assert groups[..m][..k] == groups[..k];
    } else {
      assert groups[..k] == groups;
    }
  }

  /** One more chunk in the chain of chunk circuits. */
  lemma NextChunk(sha: Circuit, groups: seq<seq<nat>>, i: nat, x: seq<bool>)
    requires IsGadget(sha) && i < |groups| && Indices(Flatten(groups[..i + 1])) && |x| == 2 * VALUE_BITS
    ensures Indices(groups[i]) && (i > 0 ==> Indices(Flatten(groups[..i])))
    ensures sha.InRange() && GadgetShape(sha) && ChunkCircuit(sha, groups[i], i == 0).InRange() && ChunkCircuit(sha, groups[i], i == 0).NumInputs() == ChunkInputs(i == 0)
    ensures RunChunks(sha, groups[..i + 1], x) ==
      Circuits.Eval(ChunkCircuit(sha, groups[i], i == 0), if i == 0 then x else RunChunks(sha, groups[..i], x))
  {
    hide ChunkCircuit, IsGadget, Circuits.Eval;
    var g := groups[..i + 1];
    assert g[..i] == groups[..i];
    GroupIndices(g, i);
    GadgetInRange(sha);
    ChunkSound(sha, groups[i], i == 0);
    ChunkShape(sha, groups[i], i == 0);
  }

  lemma ChunkShape(sha: Circuit, bits: seq<nat>, first: bool)
    requires IsGadget(sha) && Indices(bits)
    ensures var c := ChunkCircuit(sha, bits, first); c.InRange() && c.NumInputs() == ChunkInputs(first) && c.n3 == VALUE_BITS
  {
    hide ChainNet, XorAll, ShareNet;
    ChunkSound(sha, bits, first);
  }
}

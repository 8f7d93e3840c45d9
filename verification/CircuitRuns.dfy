/** Chunk and tile circuits as garbled programs: how large they get, and what running them on both sides gives. */
module CircuitRuns {
  import opened Blocks
  import opened Programs
  import opened Masks
  import opened Shachain
  import opened Circuits
  import opened CircuitBuilder
  import opened ChainCircuits
  import opened TileCircuits
  import opened Compile
  import opened ChunkPrograms
  import TilePrograms
  import opened TriplePool
  import opened TripleGeneration
  import opened RunStates
  import opened Sessions
  import opened Reveals
  import opened RangeCovers

  // ---- sizes ----

  /** Wires one hash step adds: the flip's inverter and the gadget's own. */
  function StepWires(sha: Circuit): nat
    requires sha.InRange() && GadgetShape(sha)
  {
    sha.numWire - BLOCK_WIRES + 1
  }

  lemma {:induction false} ChainSize(b: Net, sha: Circuit, p: seq<int>, bits: seq<nat>, c0: int, c1: int)
    requires sha.InRange() && GadgetShape(sha) && |p| == VALUE_BITS && Indices(bits)
    ensures ChainNet(b, sha, p, bits, c0, c1).0.next == b.next + |bits| * StepWires(sha)
  {
    if bits != [] {
      hide StepOut, StepNet, StepWires;
      var m := |bits| - 1;
      ChainSize(b, sha, p, bits[..m], c0, c1);
      var (c, q) := ChainNet(b, sha, p, bits[..m], c0, c1);
      StepSize(c, sha, q, bits[m], c0, c1);
      OneMoreRun(|bits|, StepWires(sha));
    }
  }

  lemma StepSize(b: Net, sha: Circuit, p: seq<int>, bit: nat, c0: int, c1: int)
    requires sha.InRange() && GadgetShape(sha) && |p| == VALUE_BITS && bit < VALUE_BITS
    ensures StepNet(b, sha, p, bit, c0, c1).next == b.next + StepWires(sha)
  {
  }

  lemma OneMoreRun(k: nat, m: nat)
    requires k > 0
    ensures (k - 1) * m + m == k * m
  {
  }

  /** A chunk circuit has exactly this many wires. */
  lemma ChunkSize(sha: Circuit, bits: seq<nat>, first: bool)
    requires sha.InRange() && GadgetShape(sha) && Indices(bits)
    ensures ChunkCircuit(sha, bits, first).numWire == (if first then 4 else 2) * VALUE_BITS + 2 + |bits| * StepWires(sha)
  {
    hide ChainNet, XorAll, StepWires;
    var (b, p) := ShareNet(first);
    ChainSize(b, sha, p, bits, ChunkInputs(first), ChunkInputs(first) + 1);
  }

  lemma {:induction false} TileSize(b: Net, sha: Circuit, off: nat, leaves: nat, order: seq<nat>, c0: int, c1: int)
    requires sha.InRange() && GadgetShape(sha) && leaves > 0 && Closed(order, leaves) && Window(order, off)
    ensures TileNet(b, sha, off, leaves, order, c0, c1).0.next == b.next + |order| * StepWires(sha)
  {
    hide TileNet, StepOut, Closed, Window;
    TileUnfolds(b, sha, off, leaves, order, c0, c1);
    if order != [] {
      TileSize(b, sha, off, leaves, order[..|order| - 1], c0, c1);
    }
  }

  lemma {:induction false} OfWeightSize(depth: nat, k: nat)
    ensures |OfWeight(depth, k)| <= k
  {
    if k > 1 {
      OfWeightSize(depth, k - 1);
    }
  }

  lemma {:induction false} ByWeightSize(height: nat, depth: nat)
    ensures |ByWeight(height, depth)| <= depth * Pow2(height)
  {
    if depth > 0 {
      hide Pow2, OfWeight;
      ByWeightSize(height, depth - 1);
      OfWeightSize(depth, Pow2(height));
      OneMoreRun(depth, Pow2(height));
    }
  }

  /** The tallest tile the callers use. */
  const MAX_HEIGHT: nat := 4

  /** Every chunk of an index and every tile of up to 16 leaves stays below the compiler's wire limit. */
  ghost predicate AllFit(sha: Circuit)
    requires sha.InRange() && GadgetShape(sha)
  {
    && (forall bits, first :: Indices(bits) && |bits| <= INDEX_BITS ==> HeaderFits(ChunkCircuit(sha, bits, first)))
    && (forall off: nat, height: nat :: 1 <= height <= MAX_HEIGHT && off + height <= INDEX_BITS ==> HeaderFits(TileCircuit(sha, off, height)))
  }

  /** A gadget of up to 2^23 wires is small enough. */
  const SMALL_GADGET: nat := 0x80_0000

  lemma SmallGadgetFits(sha: Circuit)
    requires IsGadget(sha) && sha.numWire <= SMALL_GADGET
    ensures AllFit(sha)
  {
    hide ChunkCircuit, TileCircuit, IsGadget;
    GadgetInRange(sha);
    forall bits, first | Indices(bits) && |bits| <= INDEX_BITS
      ensures HeaderFits(ChunkCircuit(sha, bits, first))
    {
      SmallChunk(sha, bits, first);
    }
    forall off: nat, height: nat | 1 <= height <= MAX_HEIGHT && off + height <= INDEX_BITS
      ensures HeaderFits(TileCircuit(sha, off, height))
    {
      SmallTile(sha, off, height);
    }
  }

  lemma FewSteps(n: nat, m: nat, wires: nat)
    requires n <= m && wires <= SMALL_GADGET
    ensures n * wires <= m * SMALL_GADGET
  {
  }

  lemma SmallChunk(sha: Circuit, bits: seq<nat>, first: bool)
    requires sha.InRange() && GadgetShape(sha) && sha.numWire <= SMALL_GADGET && Indices(bits) && |bits| <= INDEX_BITS
    ensures HeaderFits(ChunkCircuit(sha, bits, first))
  {
    hide ChainNet, XorAll, ShareNet;
    ChunkSize(sha, bits, first);
    FewSteps(|bits|, INDEX_BITS, StepWires(sha));
  }

  lemma SmallTile(sha: Circuit, off: nat, height: nat)
    requires IsGadget(sha) && sha.numWire <= SMALL_GADGET && 1 <= height <= MAX_HEIGHT && off + height <= INDEX_BITS
    ensures HeaderFits(TileCircuit(sha, off, height))
  {
    hide TileNet, XorAll, Closed, Window, ByWeight, IsGadget, Sound, KnownWire, Known, Ready, Concat;
    GadgetInRange(sha);
    FinalReady(sha, off, height);
    var n, leaves, order := VALUE_BITS, Pow2(height), ByWeight(height, height);
    TileSize(Started(n), sha, off, leaves, order, n, n + 1);
    ByWeightSize(height, height);
    SmallHeight(height);
    FewSteps(|order|, 64, StepWires(sha));
  }

  lemma SmallHeight(height: nat)
    requires 1 <= height <= MAX_HEIGHT
    ensures 2 <= Pow2(height) <= 16 && height * Pow2(height) <= 64
  {
    assert Pow2(1) == 2 && Pow2(2) == 4 && Pow2(3) == 8 && Pow2(4) == 16;
  }

  // ---- AND gates ----

  /** A gadget that masks its outputs: at least one AND gate. */
  predicate HasAnd(sha: Circuit) {
    SomeAnd(sha.gates)
  }

  predicate SomeAnd(gates: seq<CGate>) {
    exists i :: 0 <= i < |gates| && gates[i].typ == AND
  }

  lemma SomeAndStays(b: Net, c: Net)
    requires Extends(b, c) && SomeAnd(b.gates)
    ensures SomeAnd(c.gates)
  {
    var i :| 0 <= i < |b.gates| && b.gates[i].typ == AND;
    assert c.gates[i].typ == AND;
  }

  /** One hash step embeds the gadget's AND gates. */
  lemma StepHasAnd(b: Net, sha: Circuit, p: seq<int>, bit: nat, c0: int, c1: int)
    requires sha.InRange() && GadgetShape(sha) && HasAnd(sha) && |p| == VALUE_BITS && bit < VALUE_BITS
    ensures SomeAnd(StepNet(b, sha, p, bit, c0, c1).gates)
  {
    hide Padding;
    var i :| 0 <= i < |sha.gates| && sha.gates[i].typ == AND;
    var b1 := InvGate(b, p[MsbIndex(bit)]);
    var inputs := FlippedWires(b, p, bit) + PadWires(c0, c1);
    var gates := Embed(b1, sha, inputs).gates;
    assert GateInRange(sha.gates[i], sha.numWire);
    assert gates[|b1.gates| + i] == Renamed(sha.gates[i], WireMap(b1, sha, inputs));
  }

  lemma ChunkHasAnd(sha: Circuit, bits: seq<nat>, first: bool)
    requires IsGadget(sha) && HasAnd(sha) && Indices(bits) && bits != []
    ensures SomeAnd(ChunkCircuit(sha, bits, first).gates)
  {
    hide StepNet, StepOut, ShareNet, XorAll, HasAnd, SomeAnd, IsGadget, Ready, Sound, KnownWire;
    GadgetInRange(sha);
    var n := ChunkInputs(first);
    var (b, p) := ShareNet(first);
    ShareReady(first);
    var m := |bits| - 1;
    var (c, q) := ChainNet(b, sha, p, bits[..m], n, n + 1);
    StepHasAnd(c, sha, q, bits[m], n, n + 1);
    ChainReady(n, b, sha, p, bits, n, n + 1);
    var (d, r) := ChainNet(b, sha, p, bits, n, n + 1);
    ReadyParts(n, d, r, n, n + 1);
    RepeatKnown(n, d, n, VALUE_BITS);
    XorAllSound(n, d, r, Repeat(n, VALUE_BITS));
    SomeAndStays(d, XorAll(d, r, Repeat(n, VALUE_BITS)));
  }

  lemma SomeArm(height: nat)
    requires height >= 1
    ensures ByWeight(height, height) != []
  {
    hide ByWeight;
    PopBound(1, height);
    ByWeightMembers(height, height, 1);
  }

  lemma TileHasAnd(sha: Circuit, off: nat, height: nat)
    requires IsGadget(sha) && HasAnd(sha) && 1 <= height && off + height <= INDEX_BITS
    ensures SomeAnd(TileCircuit(sha, off, height).gates)
  {
    hide TileNet, StepNet, StepOut, XorAll, HasAnd, SomeAnd, IsGadget, Ready, Sound, KnownWire, Known, Closed, Window, ByWeight, Pow2, BuiltArm, Concat;
    GadgetInRange(sha);
    FinalReady(sha, off, height);
    var n, leaves, order := VALUE_BITS, Pow2(height), ByWeight(height, height);
    SomeArm(height);
    TileUnfolds(Started(n), sha, off, leaves, order, n, n + 1);
    var m, s := |order| - 1, order[|order| - 1];
    var before := TileNet(Started(n), sha, off, leaves, order[..m], n, n + 1);
    StepHasAnd(before.0, sha, before.1[ClearLow(s)], off + Tz(s), n, n + 1);
    var (c, node) := TileNet(Started(n), sha, off, leaves, order, n, n + 1);
    var out := Concat(node);
    XorAllSound(n, c, out, Repeat(n, |out|));
    SomeAndStays(c, XorAll(c, out, Repeat(n, |out|)));
  }

  /** The compiled program has AND gates where the circuit has. */
  lemma CompiledAnds(c: Circuit)
    requires c.WellFormed() && HeaderFits(c) && SomeAnd(c.gates)
    ensures Accepted(c) && CompiledProgram(c).Topological() && CompiledProgram(c).NumAnds() > 0
  {
    hide NewIndex;
    WellFormedResolves(c);
    SameCompiled(c);
    var p := CompiledProgram(c);
    var i :| 0 <= i < |c.gates| && c.gates[i].typ == AND;
    assert GateResolves(c.n1 + c.n2, c.gates, c.numWire, c.gates[i]);
    assert p.gates[i].typ == AND;
    p.AndsMonotone(i, |p.gates|);
  }

  lemma AllKnown(p: Program, lambda: seq<bool>)
    requires p.Topological() && |lambda| == p.numInputs && p.NumAnds() > 0
    ensures forall j :: 0 <= j < |p.outputs| ==> KnownToAlice(p, lambda, j)
  {
  }

  lemma ProgramShape(c: Circuit)
    requires c.WellFormed() && HeaderFits(c)
    ensures Accepted(c) && CompiledProgram(c).numInputs == c.n1 + c.n2
  {
    SameCompiled(c);
  }

  // ---- runs ----

  lemma CarriesLength(a: SecureWires, b: SecureWires, values: seq<bool>, dA: Block, dB: Block)
    requires Carries(a, b, values, dA, dB)
    ensures |a.lambda| == |b.lambda| == |values|
  {
  }

  lemma CarriedLength(a: SecureWires, b: SecureWires, values: seq<bool>, dA: Block, dB: Block)
    requires CarriesBoth(a, b, values, dA, dB)
    ensures |a.lambda| == |b.lambda| == |values| && Carries(a, b, values, dA, dB)
  {
  }

  lemma BothCarry(a: SecureWires, b: SecureWires, values: seq<bool>, dA: Block, dB: Block)
    requires Carries(a, b, values, dA, dB) && |a.lambda| == |b.lambda| && forall j :: 0 <= j < |a.lambda| ==> a.lambda[j] == b.lambda[j]
    ensures CarriesBoth(a, b, values, dA, dB)
  {
  }

  datatype CircuitRun = Ran(alice: SecureWires, bob: SecureWires) | RunFailed

  /** A compiled circuit on both sides: the outputs carry what the circuit computes, and if it has an AND gate
  both parties know their masked bits, so they can go into another program. */
  method RunCompiled<D(==)>(alice: Pool, bob: Pool, env: Env<D>, ghost circuit: Circuit, p: Program, ia: SecureWires, ib: SecureWires,
                            ghost x: seq<bool>) returns (r: CircuitRun)
    requires PoolsPaired(alice, bob) && env.Honest() && circuit.WellFormed() && HeaderFits(circuit) && Accepted(circuit)
    requires p == CompiledProgram(circuit) && |x| == circuit.NumInputs() && CarriesBoth(ia, ib, x, alice.delta, bob.delta)
    modifies alice, bob
    ensures PoolsPaired(alice, bob) && r.Ran? && OwnLabels(r.alice, Alice) && OwnLabels(r.bob, Bob)
    ensures Carries(r.alice, r.bob, Circuits.Eval(circuit, x), alice.delta, bob.delta)
    ensures SomeAnd(circuit.gates) ==> CarriesBoth(r.alice, r.bob, Circuits.Eval(circuit, x), alice.delta, bob.delta)
    ensures Outcome(p, env, old(SourceOf(alice, bob)), old(alice.pos), ia, ib, r.alice, r.bob)
  {
    hide RunsTo, PoolsPaired, Carries, CarriesBoth, HeaderFits, Circuits.Eval, CompiledProgram, Accepted, SomeAnd, KnownToAlice;
    CompilationPreserves(circuit, x);
    ProgramShape(circuit);
    CarriedLength(ia, ib, x, alice.delta, bob.delta);
    var run;
    ghost var t;
    run, t := RunProgram(alice, bob, p, env, ia, ib, x);
    if !run.Done? {
      return RunFailed;
    }
    if SomeAnd(circuit.gates) {
      CompiledAnds(circuit);
      CarriesLength(run.alice, run.bob, p.Eval(x), alice.delta, bob.delta);
      AllKnown(p, ia.lambda);
      BothCarry(run.alice, run.bob, p.Eval(x), alice.delta, bob.delta);
    }
    return Ran(run.alice, run.bob);
  }

  /** The program that runs a chunk. */
  ghost function ChunkProgramOf(sha: Circuit, bits: seq<nat>, first: bool): Program
    requires IsGadget(sha) && Indices(bits) && HeaderFits(ChunkCircuit(sha, bits, first))
  {
    ChunkSound(sha, bits, first);
    ProgramShape(ChunkCircuit(sha, bits, first));
    CompiledProgram(ChunkCircuit(sha, bits, first))
  }

  /** ... and a tile. */
  ghost function TileProgramOf(sha: Circuit, off: nat, height: nat): Program
    requires IsGadget(sha) && 1 <= height && off + height <= INDEX_BITS && HeaderFits(TileCircuit(sha, off, height))
  {
    TileWellFormed(sha, off, height);
    ProgramShape(TileCircuit(sha, off, height));
    CompiledProgram(TileCircuit(sha, off, height))
  }

  /** Compile a chunk and run it: its outputs carry the chunk circuit's value, and after at least one hash step
  both parties know the masked bits, so the next chunk can take them. */
  method RunChunk<D(==)>(alice: Pool, bob: Pool, env: Env<D>, sha: Circuit, bits: seq<nat>, first: bool, ia: SecureWires, ib: SecureWires,
                         ghost x: seq<bool>) returns (r: CircuitRun)
    requires PoolsPaired(alice, bob) && env.Honest() && IsGadget(sha) && HasAnd(sha) && Indices(bits)
    requires HeaderFits(ChunkCircuit(sha, bits, first)) && |x| == ChunkInputs(first)
    requires CarriesBoth(ia, ib, x, alice.delta, bob.delta)
    modifies alice, bob
    ensures PoolsPaired(alice, bob) && r.Ran? && ChunkCircuit(sha, bits, first).InRange()
    ensures Carries(r.alice, r.bob, Circuits.Eval(ChunkCircuit(sha, bits, first), x), alice.delta, bob.delta)
    ensures bits != [] ==> CarriesBoth(r.alice, r.bob, Circuits.Eval(ChunkCircuit(sha, bits, first), x), alice.delta, bob.delta)
    ensures Outcome(ChunkProgramOf(sha, bits, first), env, old(SourceOf(alice, bob)), old(alice.pos), ia, ib, r.alice, r.bob)
  {
    hide Outcome, PoolsPaired, Carries, CarriesBoth, IsGadget, HasAnd, HeaderFits, Circuits.Eval, ChunkDraft, CompiledProgram, Accepted, SomeAnd;
    GadgetInRange(sha);
    ChunkFromShaIsCompiled(sha, bits, first);
    ChunkSound(sha, bits, first);
    var compiled := ChunkFromSha(sha, bits, first);
    if !compiled.Compiled? {
      return RunFailed;
    }
    if bits != [] {
      ChunkHasAnd(sha, bits, first);
    }
    r := RunCompiled(alice, bob, env, ChunkCircuit(sha, bits, first), compiled.program, ia, ib, x);
  }

  // ---- tiles ----

  /** The arms of a tile's value: what lies on its output wires, 256 at a time. */
  lemma TileOutputs(sha: Circuit, off: nat, height: nat, root: Value, s: nat)
    requires IsGadget(sha) && 1 <= height && off + height <= INDEX_BITS && s < Pow2(height)
    ensures sha.InRange() && TileCircuit(sha, off, height).InRange() && TileCircuit(sha, off, height).NumInputs() == VALUE_BITS
    ensures var out := Circuits.Eval(TileCircuit(sha, off, height), MsbFirst(root));
      && VALUE_BITS * s <= VALUE_BITS * (s + 1) <= |out| == VALUE_BITS * Pow2(height)
      && out[VALUE_BITS * s..VALUE_BITS * (s + 1)] == MsbFirst(RangeCovers.TileArms(GadgetHash(sha), root, off, height)[s])
  {
    hide TileNet, XorAll, IsGadget, MsbFirst, Chain, GadgetHash, Circuits.Eval, SetBits, Shift, Pow2, Concat, Closed, Window, ByWeight;
    GadgetInRange(sha);
    TileWellFormed(sha, off, height);
    MsbFirstTwice(root);
    TileArmComputes(sha, off, height, MsbFirst(root), s);
    WindowBits(s, off, height);
  }

  datatype TileRun = Arms(alice: seq<SecureWires>, bob: seq<SecureWires>) | TileFailed

  /** The arms of a tile are carried one by one. */
  ghost predicate ArmsCarried(alice: seq<SecureWires>, bob: seq<SecureWires>, values: seq<Value>, dA: Block, dB: Block) {
    |alice| == |bob| == |values| && forall s :: 0 <= s < |values| ==> CarriesBoth(alice[s], bob[s], MsbFirst(values[s]), dA, dB)
  }

  /** Compile a tile, run it on its root and cut the outputs into arms: arm by arm they carry the tile's values. */
  method RunTile<D(==)>(alice: Pool, bob: Pool, env: Env<D>, sha: Circuit, off: nat, height: nat, ia: SecureWires, ib: SecureWires,
                        ghost root: Value) returns (r: TileRun, ghost oa: SecureWires, ghost ob: SecureWires)
    requires PoolsPaired(alice, bob) && env.Honest() && IsGadget(sha) && HasAnd(sha)
    requires 1 <= height && off + height <= INDEX_BITS && HeaderFits(TileCircuit(sha, off, height))
    requires CarriesBoth(ia, ib, MsbFirst(root), alice.delta, bob.delta)
    modifies alice, bob
    ensures PoolsPaired(alice, bob) && r.Arms?
    ensures ArmsCarried(r.alice, r.bob, RangeCovers.TileArms(GadgetHash(sha), root, off, height), alice.delta, bob.delta)
    ensures Outcome(TileProgramOf(sha, off, height), env, old(SourceOf(alice, bob)), old(alice.pos), ia, ib, oa, ob)
    ensures ArmsOf(oa, r.alice) && ArmsOf(ob, r.bob) && |r.alice| == |r.bob| == Pow2(height)
  {
    hide Outcome, ArmsOf, PoolsPaired, Carries, CarriesBoth, IsGadget, HasAnd, HeaderFits, Circuits.Eval, CompiledProgram, Accepted, SomeAnd, TileCircuit, MsbFirst, Pow2, RangeCovers.TileArms, ArmsCarried;
    GadgetInRange(sha);
    TilePrograms.TileFromShaIsCompiled(sha, off, height);
    TileWellFormed(sha, off, height);
    TileHasAnd(sha, off, height);
    PowPositive(height);
    TileOutputs(sha, off, height, root, 0);
    var compiled := TilePrograms.TileFromSha(sha, off, height);
    if !compiled.Compiled? {
      r := TileFailed;
      return;
    }
    var run := RunCompiled(alice, bob, env, TileCircuit(sha, off, height), compiled.program, ia, ib, MsbFirst(root));
    if !run.Ran? {
      r := TileFailed;
      return;
    }
    oa, ob := run.alice, run.bob;
    var as', bs' := SplitTile(sha, off, height, run.alice, run.bob, root, alice.delta, bob.delta);
    r := Arms(as', bs');
  }

  /** The arms are the wires, 256 at a time. */
  ghost predicate ArmsOf(w: SecureWires, arms: seq<SecureWires>) {
    && |w.lambda| == |w.bundle| && (w.label0 == [] || |w.label0| == |w.lambda|) && (w.eval == [] || |w.eval| == |w.lambda|)
    && forall s :: 0 <= s < |arms| ==> Slice(w, VALUE_BITS * s, VALUE_BITS * s + VALUE_BITS) == Part(arms[s])
  }

  lemma TileShape(sha: Circuit, off: nat, height: nat, root: Value, a: SecureWires, b: SecureWires, dA: Block, dB: Block)
    requires IsGadget(sha) && 1 <= height && off + height <= INDEX_BITS
    requires TileCircuit(sha, off, height).InRange() && TileCircuit(sha, off, height).NumInputs() == VALUE_BITS
    requires CarriesBoth(a, b, Circuits.Eval(TileCircuit(sha, off, height), MsbFirst(root)), dA, dB)
    requires OwnLabels(a, Alice) && OwnLabels(b, Bob)
    ensures ArmsOf(a, []) && ArmsOf(b, [])
  {
    hide IsGadget, Circuits.Eval, TileCircuit, MsbFirst;
    GadgetInRange(sha);
    OpenedShape(a, b, Circuits.Eval(TileCircuit(sha, off, height), MsbFirst(root)), dA, dB);
  }

  /** SplitTile */
  method SplitTile(ghost sha: Circuit, ghost off: nat, height: nat, a: SecureWires, b: SecureWires, ghost root: Value,
                   ghost dA: Block, ghost dB: Block) returns (as': seq<SecureWires>, bs': seq<SecureWires>)
    requires IsGadget(sha) && 1 <= height && off + height <= INDEX_BITS
    requires TileCircuit(sha, off, height).InRange() && TileCircuit(sha, off, height).NumInputs() == VALUE_BITS
    requires CarriesBoth(a, b, Circuits.Eval(TileCircuit(sha, off, height), MsbFirst(root)), dA, dB)
    requires OwnLabels(a, Alice) && OwnLabels(b, Bob)
    ensures ArmsCarried(as', bs', RangeCovers.TileArms(GadgetHash(sha), root, off, height), dA, dB)
    ensures ArmsOf(a, as') && ArmsOf(b, bs') && |as'| == |bs'| == Pow2(height)
  {
    hide CarriesBoth, IsGadget, Circuits.Eval, TileCircuit, MsbFirst, Pow2, GadgetHash, RangeCovers.TileArms, Slice;
    GadgetInRange(sha);
    ghost var arms := RangeCovers.TileArms(GadgetHash(sha), root, off, height);
    as', bs' := [], [];
    TileShape(sha, off, height, root, a, b, dA, dB);
    for s := 0 to Pow2(height)
      invariant |as'| == |bs'| == s && forall t :: 0 <= t < s ==> CarriesBoth(as'[t], bs'[t], MsbFirst(arms[t]), dA, dB)
      invariant ArmsOf(a, as') && ArmsOf(b, bs')
    {
      TileOutputs(sha, off, height, root, s);
      ghost var out := Circuits.Eval(TileCircuit(sha, off, height), MsbFirst(root));
      var start, end := VALUE_BITS * s, VALUE_BITS * s + VALUE_BITS;
      SliceCarries(a, b, out, dA, dB, start, end);
      as', bs' := as' + [Slice(a, start, end).wires], bs' + [Slice(b, start, end).wires];
    }
  }
}

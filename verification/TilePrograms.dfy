/** tile_from_sha: the program for a tile,
gate for gate the compiled tile circuit. */
module TilePrograms {
  import opened Options
  import opened Programs
  import opened Masks
  import opened Shachain
  import opened Circuits
  import opened CircuitBuilder
  import opened ChainCircuits
  import opened TileCircuits
  import opened Compile
  import opened DirectPrograms
  import opened ChunkPrograms

  type Arms = seq<seq<nat>>

  predicate DraftFits(node: Arms, off: nat, s: nat) {
    0 < s < |node| && off + Tz(s) < INDEX_BITS && |node[ClearLow(s)]| == VALUE_BITS
  }

  function AddDraftArm(d: Draft, node: Arms, sha: Circuit, off: nat, s: nat, c0: nat, c1: nat): (r: Option<(Draft, Arms)>)
    requires sha.InRange() && GadgetShape(sha) && DraftFits(node, off, s)
    ensures r.Some? ==> |r.value.1| == |node|
  {
    var r := StepDraft(d, sha, node[ClearLow(s)], off + Tz(s), c0, c1);
    if r == None then None else Some((r.value.0, node[s := r.value.1]))
  }

  function RootArms(leaves: nat): (node: Arms)
    ensures |node| == leaves && (leaves > 0 ==> node[0] == FreshNat(0, VALUE_BITS))
  {
    seq(leaves, s requires 0 <= s < leaves => if s == 0 then FreshNat(0, VALUE_BITS) else [])
  }

  predicate PlacedArms(order: seq<nat>, node: Arms) {
    forall i :: 0 <= i < |order| ==> 0 < order[i] < |node| && |node[order[i]]| == VALUE_BITS
  }

  lemma ParentPlaced(order: seq<nat>, leaves: nat, node: Arms)
    requires order != [] && Closed(order, leaves) && |node| == leaves && leaves > 0 && |node[0]| == VALUE_BITS
    requires PlacedArms(order[..|order| - 1], node)
    ensures 0 < order[|order| - 1] < leaves && |node[ClearLow(order[|order| - 1])]| == VALUE_BITS
  {
    var m := |order| - 1;
    assert ArmClosed(order, leaves, m);
    if ClearLow(order[m]) != 0 {
      var j :| 0 <= j < m && order[..m][j] == ClearLow(order[m]);
    }
  }

  function TileDraft(d: Draft, sha: Circuit, off: nat, leaves: nat, order: seq<nat>, c0: nat, c1: nat): (r: Option<(Draft, Arms)>)
    requires sha.InRange() && GadgetShape(sha) && leaves > 0 && Closed(order, leaves) && Window(order, off)
    ensures r.Some? ==> |r.value.1| == leaves && |r.value.1[0]| == VALUE_BITS && PlacedArms(order, r.value.1)
  {
    if order == [] then Some((d, RootArms(leaves)))
    else
      var m := |order| - 1;
      ClosedPrefix(order, leaves, m);
      var r := TileDraft(d, sha, off, leaves, order[..m], c0, c1);
      if r == None then None
      else
        ParentPlaced(order, leaves, r.value.1);
        AddDraftArm(r.value.0, r.value.1, sha, off, order[m], c0, c1)
  }

  /** What tile_from_sha returns. */
  function TileProgram(sha: Circuit, off: nat, height: nat): Option<Program>
    requires sha.InRange() && GadgetShape(sha) && 1 <= height && off + height <= INDEX_BITS
  {
    var n := VALUE_BITS;
    ByWeightClosed(height, height);
    TileOrder(off, height);
    var d := StartDraft(n);
    if d == None then None
    else
      var t := TileDraft(d.value, sha, off, Pow2(height), ByWeight(height, height), n, n + 1);
      if t == None then None
      else
        var out := Concat(t.value.1);
        var x := XorDraft(t.value.0, out, RepeatNat(n, |out|));
        if x == None then None else Finished(x.value, VALUE_BITS * Pow2(height))
  }

  // ---- the method ----

  lemma {:induction false} TileFails(d: Draft, sha: Circuit, off: nat, leaves: nat, order: seq<nat>, k: nat, c0: nat, c1: nat)
    requires sha.InRange() && GadgetShape(sha) && leaves > 0 && Closed(order, leaves) && Window(order, off) && k <= |order|
    ensures Closed(order[..k], leaves)
    ensures TileDraft(d, sha, off, leaves, order[..k], c0, c1) == None ==> TileDraft(d, sha, off, leaves, order, c0, c1) == None
    decreases |order| - k
  {
    hide Closed, AddDraftArm;
    ClosedPrefix(order, leaves, k);
    if k < |order| {
      assert order[..k + 1][..k] == order[..k];
      TileFails(d, sha, off, leaves, order, k + 1, c0, c1);
    } else {
      assert order[..k] == order;
    }
  }

  lemma DraftUnfolds(d: Draft, sha: Circuit, off: nat, leaves: nat, order: seq<nat>, s: nat, c0: nat, c1: nat)
    requires sha.InRange() && GadgetShape(sha) && leaves > 0 && Closed(order, leaves) && Window(order, off)
    requires s > 0 && off + Tz(s) < INDEX_BITS && Closed(order + [s], leaves)
    ensures Window(order + [s], off)
    ensures var r := TileDraft(d, sha, off, leaves, order, c0, c1);
      if r == None then TileDraft(d, sha, off, leaves, order + [s], c0, c1) == None
      else
        && DraftFits(r.value.1, off, s)
        && TileDraft(d, sha, off, leaves, order + [s], c0, c1) == AddDraftArm(r.value.0, r.value.1, sha, off, s, c0, c1)
  {
    hide AddDraftArm, Closed, PlacedArms;
    var longer := order + [s];
    assert longer[..|order|] == order;
    ClosedPrefix(longer, leaves, |order|);
    var r := TileDraft(d, sha, off, leaves, order, c0, c1);
    if r.Some? {
      ParentPlaced(longer, leaves, r.value.1);
    }
  }

  /** One arm. */
  method DraftArm(b: ProgramBuilder, sha: Circuit, off: nat, node: Arms, s: nat, c0: nat, c1: nat) returns (ok: bool, after: Arms)
    requires sha.InRange() && GadgetShape(sha) && DraftFits(node, off, s)
    modifies b
    ensures ok == AddDraftArm(old(b.State()), node, sha, off, s, c0, c1).Some?
    ensures ok ==> (b.State(), after) == AddDraftArm(old(b.State()), node, sha, off, s, c0, c1).value
  {
    hide StepDraft;
    ghost var before := b.State();
    var q;
    ok, q := HashSteps(b, sha, node[ClearLow(s)], [off + Tz(s)], c0, c1);
    assert [off + Tz(s)][..0] == [];
    assert ChainDraft(before, sha, node[ClearLow(s)], [], c0, c1) == Some((before, node[ClearLow(s)]));
    after := if ok then node[s := q] else node;
  }

  /** The loops over depths and suffixes. */
  method DraftArms(b: ProgramBuilder, sha: Circuit, off: nat, height: nat, c0: nat, c1: nat) returns (ok: bool, node: Arms)
    requires sha.InRange() && GadgetShape(sha) && 1 <= height && off + height <= INDEX_BITS
    modifies b
    ensures Closed(ByWeight(height, height), Pow2(height)) && Window(ByWeight(height, height), off)
    ensures var r := TileDraft(old(b.State()), sha, off, Pow2(height), ByWeight(height, height), c0, c1);
      ok == r.Some? && (ok ==> (b.State(), node) == r.value)
  {
    hide AddDraftArm, DraftFits, Closed, PopCount, Tz, ClearLow, Pow2, TileDraft, OfWeight, ByWeight, Window;
    ByWeightClosed(height, height);
    TileOrder(off, height);
    var leaves := Pow2(height);
    ghost var start := b.State();
    NoDraftArms(start, sha, off, height, c0, c1);
    node := RootArms(leaves);
    ghost var order: seq<nat> := [];
    for depth := 1 to height + 1
      invariant order == ByWeight(height, depth - 1)
      invariant Closed(order, leaves) && Window(order, off)
      invariant TileDraft(start, sha, off, leaves, order, c0, c1) == Some((b.State(), node))
    {
      OrderUnfolds(height, depth, 1);
      assert order + [] == order;
      for suffix := 1 to leaves
        invariant order == ByWeight(height, depth - 1) + OfWeight(depth, suffix)
        invariant Closed(order, leaves) && Window(order, off)
        invariant TileDraft(start, sha, off, leaves, order, c0, c1) == Some((b.State(), node))
      {
        OrderUnfolds(height, depth, suffix + 1);
        if PopCount(suffix) == depth {
          WeightStep(height, depth, suffix, order);
          TzBound(suffix, height);
          DraftUnfolds(start, sha, off, leaves, order, suffix, c0, c1);
          var added;
          added, node := DraftArm(b, sha, off, node, suffix, c0, c1);
          order := order + [suffix];
          if !added {
            OrderPrefix(height, depth, suffix + 1, order);
            TileFails(start, sha, off, leaves, ByWeight(height, height), |order|, c0, c1);
            return false, node;
          }
        }
      }
    }
    ok := true;
  }

  lemma NoDraftArms(d: Draft, sha: Circuit, off: nat, height: nat, c0: nat, c1: nat)
    requires sha.InRange() && GadgetShape(sha)
    ensures ByWeight(height, 0) == [] && Closed([], Pow2(height)) && Window([], off)
    ensures TileDraft(d, sha, off, Pow2(height), [], c0, c1) == Some((d, RootArms(Pow2(height))))
  {
  }

  /** What the loops have built is a prefix of the whole order. */
  lemma OrderPrefix(height: nat, depth: nat, k: nat, order: seq<nat>)
    requires 0 < depth <= height && k <= Pow2(height) && order == ByWeight(height, depth - 1) + OfWeight(depth, k)
    ensures order <= ByWeight(height, height) && ByWeight(height, height)[..|order|] == order
  {
    WeightPrefix(depth, k, Pow2(height));
    DepthPrefix(height, depth, height);
    assert ByWeight(height, depth) == ByWeight(height, depth - 1) + OfWeight(depth, Pow2(height));
  }

  lemma {:induction false} WeightPrefix(depth: nat, k: nat, m: nat)
    requires k <= m
    ensures OfWeight(depth, k) <= OfWeight(depth, m)
  {
    if k < m {
      WeightPrefix(depth, k, m - 1);
    }
  }

  lemma {:induction false} DepthPrefix(height: nat, depth: nat, m: nat)
    requires depth <= m
    ensures ByWeight(height, depth) <= ByWeight(height, m)
  {
    if depth < m {
      DepthPrefix(height, depth, m - 1);
    }
  }

  /** Ag2pcProgram::tile_from_sha */
  method TileFromSha(sha: Circuit, off: nat, height: nat) returns (r: Compiled)
    requires sha.InRange()
    ensures !(1 <= height && off + height <= INDEX_BITS && GadgetShape(sha)) ==> r == Rejected
    ensures 1 <= height && off + height <= INDEX_BITS && GadgetShape(sha) ==>
      r == var p := TileProgram(sha, off, height); if p.Some? then Compiled(p.value) else Rejected
  {
    if height < 1 || height > INDEX_BITS || off + height > INDEX_BITS {
      return Rejected;
    }
    if sha.n1 + sha.n2 != 512 || sha.n3 != VALUE_BITS {
      return Rejected;
    }
    hide TileDraft, XorDraft, ByWeight, Pow2, Closed, Window, StartDraft, Concat;
    var ok, b := Start(VALUE_BITS);
    if !ok {
      return Rejected;
    }
    var node;
    ok, node := DraftArms(b, sha, off, height, VALUE_BITS, VALUE_BITS + 1);
    if !ok {
      return Rejected;
    }
    var out := AllWires(node);
    var copies;
    ok, copies := XorWires(b, out, RepeatNat(VALUE_BITS, |out|));
    if !ok {
      return Rejected;
    }
    var p := Finished(b.State(), VALUE_BITS * Pow2(height));
    return if p.Some? then Compiled(p.value) else Rejected;
  }

  method AllWires(node: Arms) returns (out: seq<nat>)
    ensures out == Concat(node)
  {
    out := [];
    for s := 0 to |node|
      invariant out == Concat(node[..s])
    {
      assert node[..s + 1][..s] == node[..s];
      out := out + node[s];
    }
    assert node[..|node|] == node;
  }

  // ---- the draft tracks the net ----

  /** The arms built so far are on the same wires. */
  ghost predicate SameArms(n: nat, gates: seq<CGate>, node: seq<seq<int>>, arms: Arms, order: seq<nat>) {
    |arms| == |node| && forall s :: 0 <= s < |node| && BuiltArm(order, s) ==> SameWires(n, gates, node[s], arms[s])
  }

  lemma ArmsAdded(n: nat, c: Net, d: Net, node: seq<seq<int>>, arms: Arms, order: seq<nat>, q: seq<int>, dq: seq<nat>, c0: int, c1: int)
    requires order != [] && order[|order| - 1] < |node| && Extends(c, d) && Ordered(n, d.gates)
    requires TileReady(n, c, node, order[..|order| - 1], c0, c1)
    requires SameArms(n, c.gates, node, arms, order[..|order| - 1]) && SameWires(n, d.gates, q, dq)
    ensures SameArms(n, d.gates, node[order[|order| - 1] := q], arms[order[|order| - 1] := dq], order)
  {
    hide Sound, KnownWire, Known, BuiltArm, SameWires;
    var s := order[|order| - 1];
    forall t | 0 <= t < |node| && BuiltArm(order, t)
      ensures SameWires(n, d.gates, node[s := q][t], arms[s := dq][t])
    {
      if t != s {
        EarlierArm(order, t);
        SameWiresKept(n, c, d, node[t], arms[t]);
      }
    }
  }

  lemma {:induction false} TracksTile(n: nat, b: Net, d: Draft, sha: Circuit, off: nat, leaves: nat, order: seq<nat>,
                                      c0: int, c1: int, k0: nat, k1: nat)
    requires IsGadget(sha) && leaves > 0 && Closed(order, leaves) && Window(order, off)
    requires Ready(n, b, Fresh(0, VALUE_BITS), c0, c1) && Tracks(n, b, d) && n >= VALUE_BITS
    requires SameWires(n, b.gates, [c0, c1], [k0, k1])
    requires n + |TileNet(b, sha, off, leaves, order, c0, c1).0.gates| <= WIRE_LIMIT
    ensures var r, c := TileDraft(d, sha, off, leaves, order, k0, k1), TileNet(b, sha, off, leaves, order, c0, c1);
      && r.Some? && Tracks(n, c.0, r.value.0) && SameArms(n, c.0.gates, c.1, r.value.1, order)
      && SameWires(n, c.0.gates, [c0, c1], [k0, k1])
  {
    hide StepNet, StepOut, StepDraft, IsGadget, Closed, Window, Ready, TileReady, BuiltArm, TileNet, TileDraft, Tz, ClearLow, Tracks, SameWires, SameArms;
    GadgetInRange(sha);
    TileUnfolds(b, sha, off, leaves, order, c0, c1);
    if order == [] {
      RootTracks(n, b, d, sha, off, leaves, order, c0, c1, k0, k1);
    } else {
      var m, s := |order| - 1, order[|order| - 1];
      var prefix := order[..m];
      assert order == prefix + [s];
      DraftUnfolds(d, sha, off, leaves, prefix, s, k0, k1);
      var (c, node) := TileNet(b, sha, off, leaves, prefix, c0, c1);
      TileSound(n, b, sha, off, leaves, prefix, c0, c1);
      var p := node[ClearLow(s)];
      ArmReady(n, c, node, prefix, c0, c1, ClearLow(s));
      StepReady(n, c, sha, p, off + Tz(s), c0, c1);
      TracksTile(n, b, d, sha, off, leaves, prefix, c0, c1, k0, k1);
      var r := TileDraft(d, sha, off, leaves, prefix, k0, k1).value;
      ArmSame(n, c.gates, node, r.1, prefix, ClearLow(s));
      TracksStep(n, c, r.0, sha, p, r.1[ClearLow(s)], off + Tz(s), c0, c1, k0, k1);
      var e, t := StepNet(c, sha, p, off + Tz(s), c0, c1), StepDraft(r.0, sha, r.1[ClearLow(s)], off + Tz(s), k0, k1).value;
      TracksSound(n, e, t.0);
      ArmsAdded(n, c, e, node, r.1, order, StepOut(c, sha, p, off + Tz(s), c0, c1), t.1, c0, c1);
    }
  }

  lemma ArmSame(n: nat, gates: seq<CGate>, node: seq<seq<int>>, arms: Arms, order: seq<nat>, s: nat)
    requires SameArms(n, gates, node, arms, order) && s < |node| && BuiltArm(order, s)
    ensures |arms| == |node| && SameWires(n, gates, node[s], arms[s])
  {
  }

  lemma RootTracks(n: nat, b: Net, d: Draft, sha: Circuit, off: nat, leaves: nat, order: seq<nat>, c0: int, c1: int, k0: nat, k1: nat)
    requires sha.InRange() && GadgetShape(sha) && leaves > 0 && order == [] && Closed(order, leaves) && Window(order, off)
    requires Tracks(n, b, d) && n >= VALUE_BITS
    ensures TileNet(b, sha, off, leaves, order, c0, c1) == (b, RootOnly(leaves))
    ensures TileDraft(d, sha, off, leaves, order, k0, k1) == Some((d, RootArms(leaves)))
    ensures SameArms(n, b.gates, RootOnly(leaves), RootArms(leaves), order)
  {
    hide Tracks, Closed, SameWires;
    TracksSound(n, b, d);
    InputsSame(n, b, 0, VALUE_BITS);
  }

  lemma {:induction false} ConcatSame(n: nat, gates: seq<CGate>, node: seq<seq<int>>, arms: Arms)
    requires |node| == |arms| && forall s :: 0 <= s < |node| ==> SameWires(n, gates, node[s], arms[s])
    ensures SameWires(n, gates, Concat(node), Concat(arms))
  {
    if node != [] {
      hide IndexOf;
      ConcatSame(n, gates, node[..|node| - 1], arms[..|node| - 1]);
    }
  }

  /** For every well-formed gadget, offset and height, tile_from_sha yields, gate for gate, what
  from_circuit makes of the built tile circuit. */
  lemma TileFromShaIsCompiled(sha: Circuit, off: nat, height: nat)
    requires IsGadget(sha) && 1 <= height && off + height <= INDEX_BITS && HeaderFits(TileCircuit(sha, off, height))
    ensures Accepted(TileCircuit(sha, off, height))
    ensures TileProgram(sha, off, height) == Some(CompiledProgram(TileCircuit(sha, off, height)))
  {
    hide Tracks, SameWires, TileNet, TileDraft, XorAll, XorDraft, StartDraft, Started, IsGadget, HeaderFits, Ready, Sound, Mirrors, Known, Resolvable, Renumbered, Accepted, CompiledProgram, Closed, Window, ByWeight, Pow2, SameArms, BuiltArm;
    GadgetInRange(sha);
    TileWellFormed(sha, off, height);
    FinalReady(sha, off, height);
    TileOrder(off, height);
    var n, leaves, order, circuit := VALUE_BITS, Pow2(height), ByWeight(height, height), TileCircuit(sha, off, height);
    NextFits(circuit);
    TracksStart(n);
    var d := StartDraft(n).value;
    var (c, node) := TileNet(Started(n), sha, off, leaves, order, n, n + 1);
    GatesFit(n, c);
    TracksTile(n, Started(n), d, sha, off, leaves, order, n, n + 1, n, n + 1);
    var r := TileDraft(d, sha, off, leaves, order, n, n + 1).value;
    AllSame(n, c.gates, node, r.1, order);
    var wires, out := Concat(node), Concat(r.1);
    SameLength(n, c, wires, out);
    var zeros := Repeat(n, |wires|);
    RepeatSame(n, c, n, n + 1, |wires|);
    TracksXor(n, c, r.0, wires, zeros, out, RepeatNat(n, |wires|));
    var e, x := XorAll(c, wires, zeros), XorDraft(r.0, out, RepeatNat(n, |wires|)).value;
    TracksMirrors(n, e, x);
    MirroredProgram(circuit, x, FreshNat(r.0.NextWire(), |wires|));
    SameCompiled(circuit);
  }

  lemma AllSame(n: nat, gates: seq<CGate>, node: seq<seq<int>>, arms: Arms, order: seq<nat>)
    requires SameArms(n, gates, node, arms, order) && forall s :: 0 <= s < |node| ==> BuiltArm(order, s)
    ensures SameWires(n, gates, Concat(node), Concat(arms))
  {
    hide SameWires, BuiltArm;
    ConcatSame(n, gates, node, arms);
  }
}

/** Tile circuits: every derivation below one subtree,
each arm branching off an earlier one. */
module TileCircuits {
  import opened Masks
  import opened Shachain
  import opened Circuits
  import opened CircuitBuilder
  import opened ChainCircuits

  // ---- the order in which the arms are built ----

  /** The suffixes below `k` with `depth` set bits, ascending. */
  function OfWeight(depth: nat, k: nat): (s: seq<nat>) {
    if k <= 1 then [] else OfWeight(depth, k - 1) + if PopCount(k - 1) == depth then [k - 1] else []
  }

  /** The suffixes of a tile with at most `depth` set bits, lighter ones first. */
  function ByWeight(height: nat, depth: nat): (s: seq<nat>) {
    if depth == 0 then [] else ByWeight(height, depth - 1) + OfWeight(depth, Pow2(height))
  }

  lemma {:induction false} OfWeightMembers(depth: nat, k: nat, s: nat)
    ensures s in OfWeight(depth, k) <==> 0 < s < k && PopCount(s) == depth
  {
    if k > 1 {
      OfWeightMembers(depth, k - 1, s);
    }
  }

  lemma {:induction false} ByWeightMembers(height: nat, depth: nat, s: nat)
    ensures s in ByWeight(height, depth) <==> 0 < s < Pow2(height) && PopCount(s) <= depth
  {
    if depth == 0 {
      if s > 0 {
        SomeBit(s);
      }
    } else {
      ByWeightMembers(height, depth - 1, s);
      OfWeightMembers(depth, Pow2(height), s);
    }
  }

  lemma {:induction false} SomeBit(s: nat)
    requires s > 0
    ensures PopCount(s) > 0
  {
    if s % 2 == 0 {
      SomeBit(s / 2);
    }
  }

  lemma {:induction false} PopBound(s: nat, height: nat)
    requires s < Pow2(height)
    ensures PopCount(s) <= height
  {
    if height > 0 {
      PopBound(s / 2, height - 1);
    }
  }

  /** Every arm's parent, its suffix without the lowest set bit, is the root or an earlier arm. */
  ghost predicate Closed(order: seq<nat>, leaves: nat) {
    forall i :: 0 <= i < |order| ==> ArmClosed(order, leaves, i)
  }

  predicate ArmClosed(order: seq<nat>, leaves: nat, i: nat)
    requires i < |order|
  {
    0 < order[i] < leaves && (ClearLow(order[i]) == 0 || ClearLow(order[i]) in order[..i])
  }

  lemma ClosedPush(order: seq<nat>, leaves: nat, s: nat)
    requires Closed(order, leaves) && 0 < s < leaves && (ClearLow(s) == 0 || ClearLow(s) in order)
    ensures Closed(order + [s], leaves)
  {
    var longer := order + [s];
    forall i | 0 <= i < |longer|
      ensures ArmClosed(longer, leaves, i)
    {
      assert longer[..i] == order[..i];
      if i < |order| {
        assert ArmClosed(order, leaves, i);
      } else {
        assert order[..i] == order;
      }
    }
  }

  lemma ClosedPrefix(order: seq<nat>, leaves: nat, m: nat)
    requires Closed(order, leaves) && m <= |order|
    ensures Closed(order[..m], leaves)
  {
    forall i | 0 <= i < m
      ensures ArmClosed(order[..m], leaves, i)
    {
      assert ArmClosed(order, leaves, i) && order[..m][..i] == order[..i];
    }
  }

  /** One more suffix in the builder's two loops keeps the order closed. */
  lemma WeightStep(height: nat, depth: nat, k: nat, order: seq<nat>)
    requires 0 < depth && 1 <= k < Pow2(height) && PopCount(k) == depth
    requires order == ByWeight(height, depth - 1) + OfWeight(depth, k) && Closed(order, Pow2(height))
    ensures Closed(order + [k], Pow2(height)) && order + [k] == ByWeight(height, depth - 1) + OfWeight(depth, k + 1)
  {
    ClearLowPop(k);
    if ClearLow(k) > 0 {
      ByWeightMembers(height, depth - 1, ClearLow(k));
    }
    ClosedPush(order, Pow2(height), k);
    assert order + [k] == ByWeight(height, depth - 1) + (OfWeight(depth, k) + [k]);
  }

  // ---- the net ----

  predicate Window(order: seq<nat>, off: nat) {
    forall i :: 0 <= i < |order| ==> order[i] > 0 && off + Tz(order[i]) < INDEX_BITS
  }

  /** The root's wires are the inputs; no arm is built yet. */
  function RootOnly(leaves: nat): (node: seq<seq<int>>)
    ensures |node| == leaves && (leaves > 0 ==> node[0] == Fresh(0, VALUE_BITS))
  {
    seq(leaves, s requires 0 <= s < leaves => if s == 0 then Fresh(0, VALUE_BITS) else [])
  }

  predicate ArmFits(node: seq<seq<int>>, off: nat, s: nat) {
    0 < s < |node| && off + Tz(s) < INDEX_BITS && |node[ClearLow(s)]| == VALUE_BITS
  }

  /** Every arm of `order` has its wires. */
  predicate Placed(order: seq<nat>, node: seq<seq<int>>) {
    forall i :: 0 <= i < |order| ==> 0 < order[i] < |node| && |node[order[i]]| == VALUE_BITS
  }

  /** One more arm, off its parent's wires. */
  function AddArm(r: (Net, seq<seq<int>>), sha: Circuit, off: nat, s: nat, c0: int, c1: int): (Net, seq<seq<int>>)
    requires sha.InRange() && GadgetShape(sha) && ArmFits(r.1, off, s)
  {
    var p := r.1[ClearLow(s)];
    (StepNet(r.0, sha, p, off + Tz(s), c0, c1), r.1[s := StepOut(r.0, sha, p, off + Tz(s), c0, c1)])
  }

  /** The net and the wires of every arm built so far. */
  function TileNet(b: Net, sha: Circuit, off: nat, leaves: nat, order: seq<nat>, c0: int, c1: int): (r: (Net, seq<seq<int>>))
    requires sha.InRange() && GadgetShape(sha) && leaves > 0 && Closed(order, leaves) && Window(order, off)
    ensures |r.1| == leaves && |r.1[0]| == VALUE_BITS
    ensures Placed(order, r.1)
  {
    if order == [] then (b, RootOnly(leaves))
    else
      var m := |order| - 1;
      ClosedPrefix(order, leaves, m);
      var r := TileNet(b, sha, off, leaves, order[..m], c0, c1);
      ParentSet(order, leaves, r.1);
      AddArm(r, sha, off, order[m], c0, c1)
  }

  lemma ParentSet(order: seq<nat>, leaves: nat, node: seq<seq<int>>)
    requires order != [] && Closed(order, leaves) && |node| == leaves && leaves > 0 && |node[0]| == VALUE_BITS
    requires Placed(order[..|order| - 1], node)
    ensures 0 < order[|order| - 1] < leaves && |node[ClearLow(order[|order| - 1])]| == VALUE_BITS
  {
    var m := |order| - 1;
    assert ArmClosed(order, leaves, m);
    if ClearLow(order[m]) != 0 {
      var j :| 0 <= j < m && order[..m][j] == ClearLow(order[m]);
    }
  }

  /** The wires of arm `s` hold the chain of `s`, shifted to the tile's window. */
  ghost predicate ArmHolds(sha: Circuit, w: Assignment, off: nat, s: nat, p: seq<int>)
    requires IsGadget(sha)
  {
    && |p| == VALUE_BITS && Indices(Shift(SetBits(s), off))
    && ValueOn(w, p) == Chain(GadgetHash(sha), ValueOn(w, Fresh(0, VALUE_BITS)), Shift(SetBits(s), off))
  }

  /** Arm `s` is built in `node`. */
  predicate BuiltArm(order: seq<nat>, s: nat) {
    s == 0 || s in order
  }

  ghost predicate TileReady(n: nat, b: Net, node: seq<seq<int>>, order: seq<nat>, c0: int, c1: int) {
    && Sound(n, b) && KnownWire(n, b, c0) && KnownWire(n, b, c1)
    && forall s :: 0 <= s < |node| && BuiltArm(order, s) ==> |node[s]| == VALUE_BITS && Known(n, b, node[s])
  }

  lemma TileUnfolds(b: Net, sha: Circuit, off: nat, leaves: nat, order: seq<nat>, c0: int, c1: int)
    requires sha.InRange() && GadgetShape(sha) && leaves > 0 && Closed(order, leaves) && Window(order, off)
    ensures order == [] ==> TileNet(b, sha, off, leaves, order, c0, c1) == (b, RootOnly(leaves))
    ensures order != [] ==>
      var m, s := |order| - 1, order[|order| - 1];
      && Closed(order[..m], leaves) && Window(order[..m], off) && s > 0 && BuiltArm(order[..m], ClearLow(s))
      && var r := TileNet(b, sha, off, leaves, order[..m], c0, c1);
         ArmFits(r.1, off, s) && TileNet(b, sha, off, leaves, order, c0, c1) == AddArm(r, sha, off, s, c0, c1)
  {
    hide AddArm, Closed, BuiltArm, Placed;
    if order != [] {
      ClosedPrefix(order, leaves, |order| - 1);
      ParentBuilt(order, leaves);
      ParentSet(order, leaves, TileNet(b, sha, off, leaves, order[..|order| - 1], c0, c1).1);
    }
  }

  lemma RootReady(n: nat, b: Net, leaves: nat, order: seq<nat>, c0: int, c1: int)
    requires Ready(n, b, Fresh(0, VALUE_BITS), c0, c1) && order == []
    ensures TileReady(n, b, RootOnly(leaves), order, c0, c1)
  {
  }

  lemma ArmReady(n: nat, b: Net, node: seq<seq<int>>, order: seq<nat>, c0: int, c1: int, s: nat)
    requires TileReady(n, b, node, order, c0, c1) && s < |node| && BuiltArm(order, s)
    ensures Ready(n, b, node[s], c0, c1)
  {
  }

  lemma {:induction false} TileSound(n: nat, b: Net, sha: Circuit, off: nat, leaves: nat, order: seq<nat>, c0: int, c1: int)
    requires IsGadget(sha) && leaves > 0 && Closed(order, leaves) && Window(order, off)
    requires Ready(n, b, Fresh(0, VALUE_BITS), c0, c1)
    ensures var r := TileNet(b, sha, off, leaves, order, c0, c1);
      Extends(b, r.0) && TileReady(n, r.0, r.1, order, c0, c1)
  {
    hide StepNet, StepOut, IsGadget, Closed, Window, Ready, TileReady, BuiltArm, TileNet, Tz, ClearLow;
    GadgetInRange(sha);
    TileUnfolds(b, sha, off, leaves, order, c0, c1);
    if order == [] {
      RootReady(n, b, leaves, order, c0, c1);
    } else {
      var m := |order| - 1;
      TileSound(n, b, sha, off, leaves, order[..m], c0, c1);
      var (c, node) := TileNet(b, sha, off, leaves, order[..m], c0, c1);
      var s := order[m];
      ArmReady(n, c, node, order[..m], c0, c1, ClearLow(s));
      StepReady(n, c, sha, node[ClearLow(s)], off + Tz(s), c0, c1);
      var d := StepNet(c, sha, node[ClearLow(s)], off + Tz(s), c0, c1);
      ArmAdded(n, c, d, node, order, StepOut(c, sha, node[ClearLow(s)], off + Tz(s), c0, c1), c0, c1);
    }
  }

  /** A longer net with one more arm. */
  lemma ArmAdded(n: nat, c: Net, d: Net, node: seq<seq<int>>, order: seq<nat>, q: seq<int>, c0: int, c1: int)
    requires order != [] && order[|order| - 1] < |node| && Extends(c, d)
    requires TileReady(n, c, node, order[..|order| - 1], c0, c1) && Ready(n, d, q, c0, c1)
    ensures TileReady(n, d, node[order[|order| - 1] := q], order, c0, c1)
  {
    hide Sound, KnownWire, Known, BuiltArm;
    var s := order[|order| - 1];
    var after := node[s := q];
    forall t | 0 <= t < |node| && BuiltArm(order, t)
      ensures |after[t]| == VALUE_BITS && Known(n, d, after[t])
    {
      if t != s {
        EarlierArm(order, t);
        KnownStays(n, c, d, node[t]);
      }
    }
  }

  lemma ParentBuilt(order: seq<nat>, leaves: nat)
    requires order != [] && Closed(order, leaves)
    ensures order[|order| - 1] > 0 && BuiltArm(order[..|order| - 1], ClearLow(order[|order| - 1]))
  {
    assert ArmClosed(order, leaves, |order| - 1);
  }

  lemma EarlierArm(order: seq<nat>, t: nat)
    requires order != [] && BuiltArm(order, t) && t != order[|order| - 1]
    ensures BuiltArm(order[..|order| - 1], t)
  {
    if t != 0 {
      var j :| 0 <= j < |order| && order[j] == t;
      assert order[..|order| - 1][j] == t;
    }
  }

  lemma {:induction false} TileComputes(n: nat, b: Net, sha: Circuit, off: nat, leaves: nat, order: seq<nat>, c0: int, c1: int,
                                        w: Assignment, s: nat)
    requires IsGadget(sha) && leaves > 0 && Closed(order, leaves) && Window(order, off)
    requires Ready(n, b, Fresh(0, VALUE_BITS), c0, c1) && s < leaves && BuiltArm(order, s)
    requires Solves(TileNet(b, sha, off, leaves, order, c0, c1).0.gates, w) && !w(c0) && w(c1)
    ensures ArmHolds(sha, w, off, s, TileNet(b, sha, off, leaves, order, c0, c1).1[s])
    decreases |order|
  {
    hide Ready, TileReady, StepNet, StepOut, IsGadget, Closed, Window, ArmHolds, Solves, BuiltArm, TileNet, Tz, ClearLow, ValueOn, Flip, GadgetHash;
    GadgetInRange(sha);
    TileUnfolds(b, sha, off, leaves, order, c0, c1);
    if order == [] {
      RootHolds(sha, w, off, order, s);
    } else {
      var m, last := |order| - 1, order[|order| - 1];
      var (c, node) := TileNet(b, sha, off, leaves, order[..m], c0, c1);
      TileSound(n, b, sha, off, leaves, order[..m], c0, c1);
      var p := node[ClearLow(last)];
      ArmReady(n, c, node, order[..m], c0, c1, ClearLow(last));
      StepReady(n, c, sha, p, off + Tz(last), c0, c1);
      SolvesPrefix(c, StepNet(c, sha, p, off + Tz(last), c0, c1), w);
      if s == last {
        TileComputes(n, b, sha, off, leaves, order[..m], c0, c1, w, ClearLow(s));
        StepComputes(n, c, sha, p, off + Tz(s), c0, c1, w);
        ArmStep(sha, w, off, s, p, StepOut(c, sha, p, off + Tz(s), c0, c1));
      } else {
        EarlierArm(order, s);
        TileComputes(n, b, sha, off, leaves, order[..m], c0, c1, w, s);
      }
    }
  }

  lemma RootHolds(sha: Circuit, w: Assignment, off: nat, order: seq<nat>, s: nat)
    requires IsGadget(sha) && order == [] && BuiltArm(order, s)
    ensures s == 0 && ArmHolds(sha, w, off, 0, Fresh(0, VALUE_BITS))
  {
    assert Shift(SetBits(0), off) == [];
  }

  lemma ArmChain(hash: Value -> Value, v: Value, off: nat, s: nat)
    requires s > 0 && off + Tz(s) < INDEX_BITS && Indices(Shift(SetBits(ClearLow(s)), off))
    ensures Indices(Shift(SetBits(s), off))
    ensures Chain(hash, v, Shift(SetBits(s), off)) == hash(Flip(Chain(hash, v, Shift(SetBits(ClearLow(s)), off)), off + Tz(s)))
  {
    hide Chain, Flip;
    ShiftAppend(SetBits(ClearLow(s)), [Tz(s)], off);
    assert Shift([Tz(s)], off) == [off + Tz(s)];
    ChainStep(hash, v, Shift(SetBits(ClearLow(s)), off), off + Tz(s));
  }

  lemma ArmStep(sha: Circuit, w: Assignment, off: nat, s: nat, p: seq<int>, q: seq<int>)
    requires IsGadget(sha) && s > 0 && off + Tz(s) < INDEX_BITS && |q| == VALUE_BITS
    requires ArmHolds(sha, w, off, ClearLow(s), p)
    requires ValueOn(w, q) == GadgetHash(sha)(Flip(ValueOn(w, p), off + Tz(s)))
    ensures ArmHolds(sha, w, off, s, q)
  {
    hide GadgetHash, ValueOn, Flip, IsGadget, Chain, SetBits, Tz, ClearLow, Shift;
    GadgetInRange(sha);
    ArmChain(GadgetHash(sha), ValueOn(w, Fresh(0, VALUE_BITS)), off, s);
  }

  // ---- the circuit ----

  function Concat<T>(node: seq<seq<T>>): (s: seq<T>)
  {
    if node == [] then [] else Concat(node[..|node| - 1]) + node[|node| - 1]
  }

  lemma {:induction false} ConcatAt(node: seq<seq<int>>, s: nat, i: nat)
    requires forall t :: 0 <= t < |node| ==> |node[t]| == VALUE_BITS
    requires s < |node| && i < VALUE_BITS
    ensures |Concat(node)| == VALUE_BITS * |node| && Concat(node)[VALUE_BITS * s + i] == node[s][i]
  {
    var m := |node| - 1;
    if m > 0 {
      ConcatAt(node[..m], if s < m then s else 0, i);
    } else {
      assert node[..0] == [];
    }
    if s < m {
      assert VALUE_BITS * s + i < VALUE_BITS * m;
    }
  }

  lemma TileOrder(off: nat, height: nat)
    requires 1 <= height && off + height <= INDEX_BITS
    requires Closed(ByWeight(height, height), Pow2(height))
    ensures Window(ByWeight(height, height), off)
    ensures forall s :: 0 <= s < Pow2(height) ==> BuiltArm(ByWeight(height, height), s)
  {
    var order := ByWeight(height, height);
    forall i | 0 <= i < |order|
      ensures order[i] > 0 && off + Tz(order[i]) < INDEX_BITS
    {
      assert ArmClosed(order, Pow2(height), i);
      TzBound(order[i], height);
    }
    forall s | 0 <= s < Pow2(height)
      ensures BuiltArm(order, s)
    {
      PopBound(s, height);
      ByWeightMembers(height, height, s);
    }
  }

  lemma {:induction false} OfWeightClosed(height: nat, depth: nat, k: nat)
    requires 0 < depth && k <= Pow2(height) && Closed(ByWeight(height, depth - 1), Pow2(height))
    ensures Closed(ByWeight(height, depth - 1) + OfWeight(depth, k), Pow2(height))
  {
    var head := ByWeight(height, depth - 1);
    if k <= 1 {
      assert head + [] == head;
    } else {
      OfWeightClosed(height, depth, k - 1);
      if PopCount(k - 1) == depth {
        WeightStep(height, depth, k - 1, head + OfWeight(depth, k - 1));
      } else {
        assert OfWeight(depth, k - 1) + [] == OfWeight(depth, k - 1);
      }
    }
  }

  lemma {:induction false} ByWeightClosed(height: nat, depth: nat)
    ensures Closed(ByWeight(height, depth), Pow2(height))
  {
    if depth > 0 {
      ByWeightClosed(height, depth - 1);
      OfWeightClosed(height, depth, Pow2(height));
    }
  }

  /** What build_tile_circuit returns. */
  function TileCircuit(sha: Circuit, off: nat, height: nat): Circuit
    requires sha.InRange() && GadgetShape(sha) && 1 <= height && off + height <= INDEX_BITS
  {
    var n, leaves := VALUE_BITS, Pow2(height);
    ByWeightClosed(height, height);
    TileOrder(off, height);
    var (c, node) := TileNet(Started(n), sha, off, leaves, ByWeight(height, height), n, n + 1);
    var out := Concat(node);
    var d := XorAll(c, out, Repeat(n, |out|));
    Circuit(d.next, n, 0, VALUE_BITS * leaves, d.gates)
  }

  lemma NodesFull(order: seq<nat>, leaves: nat, node: seq<seq<int>>)
    requires |node| == leaves > 0 && |node[0]| == VALUE_BITS
    requires Placed(order, node)
    requires forall s :: 0 <= s < leaves ==> BuiltArm(order, s)
    ensures forall s :: 0 <= s < leaves ==> |node[s]| == VALUE_BITS
    ensures |Concat(node)| == VALUE_BITS * leaves
  {
    forall s | 0 <= s < leaves
      ensures |node[s]| == VALUE_BITS
    {
      assert BuiltArm(order, s);
      if s != 0 {
        var j :| 0 <= j < |order| && order[j] == s;
      }
    }
    ConcatAt(node, 0, 0);
  }

  /** build_tile_circuit */
  method BuildTileCircuit(sha: Circuit, off: nat, height: nat) returns (r: Built)
    requires sha.InRange()
    ensures !(1 <= height <= INDEX_BITS) ==> r == BadTileHeight
    ensures 1 <= height <= INDEX_BITS && off + height > INDEX_BITS ==> r == BadBitWindow
    ensures 1 <= height && off + height <= INDEX_BITS && !GadgetShape(sha) ==> r == BadGadgetShape
    ensures 1 <= height && off + height <= INDEX_BITS && GadgetShape(sha) ==> r == Built(TileCircuit(sha, off, height))
  {
    if height < 1 || height > INDEX_BITS {
      return BadTileHeight;
    }
    if off + height > INDEX_BITS {
      return BadBitWindow;
    }
    if sha.n1 + sha.n2 != 512 || sha.n3 != VALUE_BITS {
      return BadGadgetShape;
    }
    hide StepNet, StepOut, Closed, ChainNet, XorAll, TileNet, Window, ByWeight, Pow2, BuiltArm, Concat;
    var leaves := Pow2(height);
    var b := new Builder(VALUE_BITS);
    var c0 := b.XorW(0, 0);
    var c1 := b.InvW(c0);
    var node := TileArms(b, sha, off, height, c0, c1);
    ByWeightClosed(height, height);
    TileOrder(off, height);
    NodesFull(ByWeight(height, height), leaves, node);
    var out := LeafWires(node);
    var copies := XorGates(b, out, Repeat(c0, |out|));
    var c := b.Finish(VALUE_BITS, 0, VALUE_BITS * leaves);
    return Built(c);
  }

  /** All leaves' wires, leaf by leaf. */
  method LeafWires(node: seq<seq<int>>) returns (out: seq<int>)
    ensures out == Concat(node)
  {
    out := [];
    for s := 0 to |node|
      invariant out == Concat(node[..s])
    {
      assert node[..s + 1][..s] == node[..s];
      out := out + node[s];
    }
    assert node[..|node|] == node;
  }

  /** The builder's loops over depths and suffixes. */
  method TileArms(b: Builder, sha: Circuit, off: nat, height: nat, c0: int, c1: int) returns (node: seq<seq<int>>)
    requires sha.InRange() && GadgetShape(sha) && 1 <= height && off + height <= INDEX_BITS
    modifies b
    ensures Closed(ByWeight(height, height), Pow2(height)) && Window(ByWeight(height, height), off)
    ensures (b.State(), node) == TileNet(old(b.State()), sha, off, Pow2(height), ByWeight(height, height), c0, c1)
  {
    hide AddArm, ArmFits, Closed, ChainNet, PopCount, Tz, ClearLow, Pow2, TileNet, OfWeight, ByWeight, Window;
    var leaves := Pow2(height);
    NoArms(b.State(), sha, off, height, c0, c1);
    node := RootOnly(leaves);
    ghost var start := b.State();
    ghost var order: seq<nat> := [];
    for depth := 1 to height + 1
      invariant order == ByWeight(height, depth - 1)
      invariant Closed(order, leaves) && Window(order, off)
      invariant (b.State(), node) == TileNet(start, sha, off, leaves, order, c0, c1)
    {
      OrderUnfolds(height, depth, 1);
      assert order + [] == order;
      for suffix := 1 to leaves
        invariant order == ByWeight(height, depth - 1) + OfWeight(depth, suffix)
        invariant Closed(order, leaves) && Window(order, off)
        invariant (b.State(), node) == TileNet(start, sha, off, leaves, order, c0, c1)
      {
        OrderUnfolds(height, depth, suffix + 1);
        if PopCount(suffix) == depth {
          WeightStep(height, depth, suffix, order);
          TzBound(suffix, height);
          TileNetStep(start, sha, off, leaves, order, suffix, c0, c1);
          node := TileArm(b, sha, off, node, suffix, c0, c1);
          order := order + [suffix];
        }
      }
    }
  }

  lemma OrderUnfolds(height: nat, depth: nat, k: nat)
    requires depth > 0 && k > 0
    ensures ByWeight(height, 0) == [] && OfWeight(depth, 1) == []
    ensures ByWeight(height, depth) == ByWeight(height, depth - 1) + OfWeight(depth, Pow2(height))
    ensures k > 1 && PopCount(k - 1) != depth ==> OfWeight(depth, k) == OfWeight(depth, k - 1)
  {
  }

  lemma NoArms(b: Net, sha: Circuit, off: nat, height: nat, c0: int, c1: int)
    requires sha.InRange() && GadgetShape(sha)
    ensures ByWeight(height, 0) == [] && Closed([], Pow2(height)) && Window([], off)
    ensures TileNet(b, sha, off, Pow2(height), [], c0, c1) ==
      (b, RootOnly(Pow2(height)))
  {
  }

  lemma TileNetStep(b: Net, sha: Circuit, off: nat, leaves: nat, order: seq<nat>, s: nat, c0: int, c1: int)
    requires sha.InRange() && GadgetShape(sha) && leaves > 0 && Closed(order, leaves) && Window(order, off)
    requires s > 0 && off + Tz(s) < INDEX_BITS && Closed(order + [s], leaves)
    ensures Window(order + [s], off)
    ensures var r := TileNet(b, sha, off, leaves, order, c0, c1);
      ArmFits(r.1, off, s) && TileNet(b, sha, off, leaves, order + [s], c0, c1) == AddArm(r, sha, off, s, c0, c1)
  {
    hide AddArm, Closed, TileNet;
    var longer := order + [s];
    assert longer[..|order|] == order;
    TileUnfolds(b, sha, off, leaves, longer, c0, c1);
  }

  /** One arm: the parent's wires with one bit flipped, hashed. */
  method TileArm(b: Builder, sha: Circuit, off: nat, node: seq<seq<int>>, s: nat, c0: int, c1: int)
    returns (after: seq<seq<int>>)
    requires sha.InRange() && GadgetShape(sha) && ArmFits(node, off, s)
    modifies b
    ensures (b.State(), after) == AddArm((old(b.State()), node), sha, off, s, c0, c1)
  {
    ghost var before := b.State();
    var p := ChainGates(b, sha, node[ClearLow(s)], [off + Tz(s)], c0, c1);
    assert [off + Tz(s)][..0] == [];
    ChainNone(before, sha, node[ClearLow(s)], c0, c1);
    after := node[s := p];
  }

  lemma FinalReady(sha: Circuit, off: nat, height: nat)
    requires IsGadget(sha) && 1 <= height && off + height <= INDEX_BITS
    ensures Closed(ByWeight(height, height), Pow2(height)) && Window(ByWeight(height, height), off)
    ensures var n := VALUE_BITS; var r := TileNet(Started(n), sha, off, Pow2(height), ByWeight(height, height), n, n + 1);
      && Ready(n, Started(n), Fresh(0, n), n, n + 1) && Extends(Started(n), r.0)
      && Sound(n, r.0) && |Concat(r.1)| == VALUE_BITS * Pow2(height)
      && Known(n, r.0, Concat(r.1)) && Known(n, r.0, Repeat(n, VALUE_BITS * Pow2(height)))
      && forall s :: 0 <= s < Pow2(height) ==> |r.1[s]| == VALUE_BITS
  {
    hide StepNet, StepOut, Closed, Pow2, Sound, KnownWire, Known, IsGadget, TileNet;
    var n, leaves, order := VALUE_BITS, Pow2(height), ByWeight(height, height);
    ByWeightClosed(height, height);
    TileOrder(off, height);
    GadgetInRange(sha);
    ShareReady(false);
    TileSound(n, Started(n), sha, off, leaves, order, n, n + 1);
    var (c, node) := TileNet(Started(n), sha, off, leaves, order, n, n + 1);
    NodesFull(order, leaves, node);
    assert forall s :: 0 <= s < leaves ==> BuiltArm(order, s) && Known(n, c, node[s]);
    ConcatKnown(n, c, node);
    RepeatKnown(n, c, n, VALUE_BITS * leaves);
  }

  lemma {:induction false} ConcatKnown(n: nat, b: Net, node: seq<seq<int>>)
    requires forall s :: 0 <= s < |node| ==> Known(n, b, node[s])
    ensures Known(n, b, Concat(node))
  {
    if node != [] {
      ConcatKnown(n, b, node[..|node| - 1]);
    }
  }

  lemma TileWellFormed(sha: Circuit, off: nat, height: nat)
    requires IsGadget(sha) && 1 <= height && off + height <= INDEX_BITS
    ensures TileCircuit(sha, off, height).WellFormed()
  {
    hide TileNet, Closed, Pow2, KnownWire, XorAll, IsGadget, ByWeight, BuiltArm;
    GadgetInRange(sha);
    FinalReady(sha, off, height);
    var n, leaves := VALUE_BITS, Pow2(height);
    var (c, node) := TileNet(Started(n), sha, off, leaves, ByWeight(height, height), n, n + 1);
    var out := Concat(node);
    XorAllSound(n, c, out, Repeat(n, |out|));
    LastDefined(n, XorAll(c, out, Repeat(n, |out|)), c.next, |out|);
  }

  /** Arm `s` of a tile's output is the chain of `s`'s bits within the tile's window, for every
  gadget, offset, height, arm and input. */
  lemma TileArmComputes(sha: Circuit, off: nat, height: nat, x: seq<bool>, s: nat)
    requires IsGadget(sha) && 1 <= height && off + height <= INDEX_BITS && |x| == VALUE_BITS && s < Pow2(height)
    ensures TileCircuit(sha, off, height).InRange() && Indices(Shift(SetBits(s), off))
    ensures var out := Circuits.Eval(TileCircuit(sha, off, height), x);
      && VALUE_BITS * (s + 1) <= |out|
      && out[VALUE_BITS * s..VALUE_BITS * (s + 1)] == MsbFirst(Chain(GadgetHash(sha), MsbFirst(x), Shift(SetBits(s), off)))
  {
    hide TileNet, Closed, Pow2, Sound, KnownWire, Known, XorAll, IsGadget, ByWeight, BuiltArm, Chain, GadgetHash, MsbFirst, Circuits.Eval, Started, Solves;
    GadgetInRange(sha);
    TileWellFormed(sha, off, height);
    FinalReady(sha, off, height);
    TileOrder(off, height);
    var circuit, n, leaves := TileCircuit(sha, off, height), VALUE_BITS, Pow2(height);
    var w := Solvable(circuit, x);
    EvalIsSolution(circuit, x, w);
    var (c, node) := TileNet(Started(n), sha, off, leaves, ByWeight(height, height), n, n + 1);
    var wires := Concat(node);
    XorAllSound(n, c, wires, Repeat(n, |wires|));
    XorAllComputes(n, c, wires, Repeat(n, |wires|), w);
    SolvesPrefix(c, XorAll(c, wires, Repeat(n, |wires|)), w);
    SolvesPrefix(Started(n), c, w);
    StartedSound(n);
    TileComputes(n, Started(n), sha, off, leaves, ByWeight(height, height), n, n + 1, w, s);
    ArmOutput(circuit, x, w, node, c.next, s);
    assert Read(w, Fresh(0, VALUE_BITS)) == x;
    MsbFirstTwice(Read(w, node[s]));
  }

  lemma ArmOutput(c: Circuit, x: seq<bool>, w: Assignment, node: seq<seq<int>>, from: nat, s: nat)
    requires c.InRange() && |x| == c.NumInputs() && c.n3 == VALUE_BITS * |node| && c.numWire == from + c.n3
    requires forall t :: 0 <= t < |node| ==> |node[t]| == VALUE_BITS
    requires s < |node| && |Concat(node)| == c.n3
    requires forall i :: 0 <= i < c.n3 ==> Circuits.Eval(c, x)[i] == w(from + i)
    requires !w(VALUE_BITS) && forall i :: 0 <= i < c.n3 ==> w(from + i) == (w(Concat(node)[i]) != w(Repeat(VALUE_BITS, c.n3)[i]))
    ensures VALUE_BITS * (s + 1) <= c.n3
    ensures Circuits.Eval(c, x)[VALUE_BITS * s..VALUE_BITS * (s + 1)] == Read(w, node[s])
  {
    hide Circuits.Eval;
    assert VALUE_BITS * (s + 1) <= VALUE_BITS * |node|;
    forall i | 0 <= i < VALUE_BITS
      ensures Circuits.Eval(c, x)[VALUE_BITS * s + i] == w(node[s][i])
    {
      ConcatAt(node, s, i);
    }
  }
}

/** Circuits the compiler accepts although they are not well formed: when their programs make sense, and what they mean then. */
module SettledCircuits {
  import opened Blocks
  import opened Programs
  import opened Circuits
  import opened Compile

  /** When gate `i` runs, wire `w` has been written or is an input, and no gate from `i` on writes it. */
  ghost predicate Settled(n: nat, gates: seq<CGate>, i: nat, w: int)
    requires i <= |gates|
  {
    DefinedBy(n, gates, i, w) && forall j :: i <= j < |gates| ==> gates[j].out != w
  }

  /** Every gate reads settled wires; wires may be written more than once, inputs among them. */
  ghost predicate ReadsSettled(n: nat, gates: seq<CGate>) {
    forall i :: 0 <= i < |gates| ==> GateSettled(n, gates, i)
  }

  ghost predicate GateSettled(n: nat, gates: seq<CGate>, i: nat)
    requires i < |gates|
  {
    Settled(n, gates, i, gates[i].in0) && (gates[i].typ != INV ==> Settled(n, gates, i, gates[i].in1))
  }

  lemma {:induction false} MappedDefined(n: nat, gates: seq<CGate>, k: nat, w: int)
    requires k <= |gates|
    ensures NewIndex(n, gates, k, w) != UNMAPPED <==> DefinedBy(n, gates, k, w)
  {
    if k > 0 {
      MappedDefined(n, gates, k - 1, w);
      if gates[k - 1].out == w {
        assert DefinedBy(n, gates, k, w);
      }
    }
  }

  /** A wire's number lies below gate `i` exactly when no later gate writes it, and then it is the number it had there. */
  lemma {:induction false} IndexBelow(n: nat, gates: seq<CGate>, i: nat, k: nat, w: int)
    requires i <= k <= |gates|
    ensures (forall j :: i <= j < k ==> gates[j].out != w) ==> NewIndex(n, gates, k, w) == NewIndex(n, gates, i, w)
    ensures NewIndex(n, gates, k, w) < n + i <==> forall j :: i <= j < k ==> gates[j].out != w
  {
    if i < k {
      IndexBelow(n, gates, i, k - 1, w);
    }
  }

  lemma SettledIndex(n: nat, gates: seq<CGate>, i: nat, w: int)
    requires i <= |gates|
    ensures UNMAPPED != NewIndex(n, gates, |gates|, w) < n + i <==> Settled(n, gates, i, w)
    ensures Settled(n, gates, i, w) ==> NewIndex(n, gates, |gates|, w) == NewIndex(n, gates, i, w) != UNMAPPED
  {
    IndexBelow(n, gates, i, |gates|, w);
    MappedDefined(n, gates, i, w);
  }

  /** The compiler's program is topological exactly when every gate of the accepted circuit reads settled wires. */
  lemma TopologicalExactly(c: Circuit)
    requires Accepted(c)
    ensures CompiledProgram(c).Topological() <==> ReadsSettled(c.n1 + c.n2, c.gates)
  {
    hide NewIndex, Settled;
    AcceptedResolves(c);
    var p, n := CompiledProgram(c), c.n1 + c.n2;
    forall i | 0 <= i < |c.gates|
      ensures p.Defined(i) <==> GateSettled(n, c.gates, i)
    {
      assert GateResolves(n, c.gates, c.numWire, c.gates[i]);
      SettledIndex(n, c.gates, i, c.gates[i].in0);
      if c.gates[i].typ != INV {
        SettledIndex(n, c.gates, i, c.gates[i].in1);
      }
    }
  }

  lemma AcceptedResolves(c: Circuit)
    requires Accepted(c)
    ensures c.InRange() && Resolvable(c) && CompiledProgram(c) == Renumbered(c)
  {
    if InOrder(c) {
      FastPathAgrees(c);
    } else {
      var n := c.n1 + c.n2;
      forall i | 0 <= i < |c.gates|
        ensures GateInRange(c.gates[i], c.numWire)
      {
        assert GateResolves(n, c.gates, c.numWire, c.gates[i]);
      }
    }
  }

  /** The wire array after `k` gates holds, on every mapped wire, the program's value for its number. */
  predicate Mirrored(c: Circuit, inputs: seq<bool>, mem: seq<bool>, values: seq<bool>, k: nat)
    requires c.InRange() && |inputs| == c.NumInputs() && k <= |c.gates| && |mem| == c.numWire && |values| == c.NumInputs() + |c.gates|
  {
    forall w :: 0 <= w < c.numWire && NewIndex(c.NumInputs(), c.gates, k, w) != UNMAPPED ==>
      mem[w] == values[NewIndex(c.NumInputs(), c.gates, k, w)]
  }

  /** The wires that are no inputs, before any gate. */
  function Blank(c: Circuit): (s: seq<bool>)
    requires c.InRange()
    ensures |s| == c.numWire - c.NumInputs()
  {
    NoBits(c.numWire - c.NumInputs())
  }

  lemma GateMirrors(c: Circuit, inputs: seq<bool>, mem: seq<bool>, values: seq<bool>, i: nat)
    requires Accepted(c) && c.InRange() && |inputs| == c.NumInputs() && i < |c.gates|
    requires ReadsSettled(c.NumInputs(), c.gates) && CompiledProgram(c).Topological()
    requires CompiledProgram(c).numInputs == |inputs| && CompiledProgram(c).Solves(inputs, values)
    requires |values| == c.NumInputs() + |c.gates| && |mem| == c.numWire && Mirrored(c, inputs, mem, values, i)
    ensures Mirrored(c, inputs, mem[c.gates[i].out := GateValue(c.gates[i], mem)], values, i + 1)
  {
    hide Settled;
    AcceptedResolves(c);
    var p, n, g := CompiledProgram(c), c.NumInputs(), c.gates[i];
    assert GateInRange(g, c.numWire) && GateSettled(n, c.gates, i) && GateResolves(n, c.gates, c.numWire, g);
    SettledIndex(n, c.gates, i, g.in0);
    if g.typ != INV {
      SettledIndex(n, c.gates, i, g.in1);
    }
    assert p.Defined(i) && p.GateHolds(values, i);
    assert values[n + i] == GateValue(g, mem);
  }

  lemma {:induction false} RunMirrors(c: Circuit, inputs: seq<bool>, values: seq<bool>, k: nat)
    requires Accepted(c) && c.InRange() && |inputs| == c.NumInputs() && k <= |c.gates|
    requires ReadsSettled(c.NumInputs(), c.gates) && CompiledProgram(c).Topological()
    requires CompiledProgram(c).numInputs == |inputs| && CompiledProgram(c).Solves(inputs, values)
    requires |values| == c.NumInputs() + |c.gates|
    ensures Mirrored(c, inputs, RunGates(c.gates, inputs + Blank(c), k), values, k)
  {
    var n := c.NumInputs();
    if k == 0 {
      assert values[..n] == inputs;
    } else {
      RunMirrors(c, inputs, values, k - 1);
      GateMirrors(c, inputs, RunGates(c.gates, inputs + Blank(c), k - 1), values, k - 1);
    }
  }

  /** Whenever the program is topological it computes what the circuit computes, well formed or not. */
  lemma SettledPreserves(c: Circuit, inputs: seq<bool>)
    requires Accepted(c) && ReadsSettled(c.n1 + c.n2, c.gates) && |inputs| == c.n1 + c.n2
    ensures c.InRange() && CompiledProgram(c).Topological() && CompiledProgram(c).numInputs == |inputs|
    ensures CompiledProgram(c).Eval(inputs) == Circuits.Eval(c, inputs)
  {
    hide NewIndex, Settled;
    AcceptedResolves(c);
    TopologicalExactly(c);
    var p, n := CompiledProgram(c), c.NumInputs();
    p.WiresSolve(inputs);
    var values := p.Wires(inputs, |p.gates|);
    RunMirrors(c, inputs, values, |c.gates|);
    forall j | 0 <= j < c.n3
      ensures p.Eval(inputs)[j] == Circuits.Eval(c, inputs)[j]
    {
      assert OutputResolves(c, j);
    }
  }

  /** An accepted circuit whose program reads ahead: its first gate inverts a wire only the second one writes. */
  lemma ReadsAhead()
    ensures var c := Circuit(3, 1, 0, 1, [CGate(INV, 1, -1, 2), CGate(INV, 0, -1, 1)]); Accepted(c) && !CompiledProgram(c).Topological()
  {
    var c := Circuit(3, 1, 0, 1, [CGate(INV, 1, -1, 2), CGate(INV, 0, -1, 1)]);
    var gates := c.gates;
    assert !InOrder(c) by {
      assert gates[0].out == 2;
    }
    assert NewIndex(1, gates, 0, 1) == UNMAPPED;
    assert NewIndex(1, gates, 2, 1) == 2 && NewIndex(1, gates, 2, 2) == NewIndex(1, gates, 1, 2) == 1;
    assert NewIndex(1, gates, 2, 0) == NewIndex(1, gates, 1, 0) == NewIndex(1, gates, 0, 0) == 0;
    assert GateResolves(1, gates, 3, gates[0]) && GateResolves(1, gates, 3, gates[1]) && OutputResolves(c, 0);
    assert Resolvable(c);
    assert !CompiledProgram(c).Defined(0);
  }
}

/** Compiling circuits to programs: wires renumbered by the gate that writes them. */
module Compile {
  import opened Programs
  import opened Circuits

  /** AG2PC_GATE_WIRE_LIMIT */
  const WIRE_LIMIT: nat := 0x4000_0000

  /** A wire no gate has written yet. */
  const UNMAPPED: int := -1

  datatype Compiled = Compiled(program: Program) | Rejected

  /** The header check of from_circuit. */
  predicate HeaderFits(c: Circuit) {
    && 0 < c.numWire < WIRE_LIMIT && 0 <= c.n1 && 0 <= c.n2 && 0 <= c.n3
    && c.n1 + c.n2 <= c.numWire && c.n3 <= c.numWire
  }

  // ---- the general path ----

  /** The program wire of circuit wire `w`: its last writer's output, or itself if it is an input. */
  function NewIndex(n: nat, gates: seq<CGate>, k: nat, w: int): (r: int)
    requires k <= |gates|
    ensures UNMAPPED <= r < n + k
  {
    if k == 0 then if 0 <= w < n then w else UNMAPPED
    else if gates[k - 1].out == w then n + k - 1
    else NewIndex(n, gates, k - 1, w)
  }

  predicate Resolves(n: nat, gates: seq<CGate>, limit: int, w: int) {
    0 <= w < limit && NewIndex(n, gates, |gates|, w) != UNMAPPED
  }

  predicate GateResolves(n: nat, gates: seq<CGate>, limit: int, g: CGate) {
    0 <= g.out < limit && Resolves(n, gates, limit, g.in0) && (g.typ != INV ==> Resolves(n, gates, limit, g.in1))
  }

  predicate OutputResolves(c: Circuit, j: nat)
    requires HeaderFits(c)
  {
    Resolves(c.n1 + c.n2, c.gates, c.numWire, c.numWire - c.n3 + j)
  }

  predicate Resolvable(c: Circuit)
    requires HeaderFits(c)
  {
    && (forall i :: 0 <= i < |c.gates| ==> GateResolves(c.n1 + c.n2, c.gates, c.numWire, c.gates[i]))
    && (forall j :: 0 <= j < c.n3 ==> OutputResolves(c, j))
  }

  function NewGate(n: nat, gates: seq<CGate>, limit: int, g: CGate): Gate
    requires GateResolves(n, gates, limit, g)
  {
    Gate(g.typ, NewIndex(n, gates, |gates|, g.in0), if g.typ == INV then 0 else NewIndex(n, gates, |gates|, g.in1))
  }

  function NewGates(c: Circuit): (s: seq<Gate>)
    requires HeaderFits(c) && Resolvable(c)
    ensures |s| == |c.gates|
  {
    seq(|c.gates|, i requires 0 <= i < |c.gates| => NewGate(c.n1 + c.n2, c.gates, c.numWire, c.gates[i]))
  }

  function NewOutput(c: Circuit, j: nat): nat
    requires HeaderFits(c) && Resolvable(c) && j < c.n3
  {
    assert OutputResolves(c, j);
    NewIndex(c.n1 + c.n2, c.gates, |c.gates|, c.numWire - c.n3 + j)
  }

  function NewOutputs(c: Circuit): (s: seq<nat>)
    requires HeaderFits(c) && Resolvable(c)
    ensures |s| == c.n3 && forall j :: 0 <= j < c.n3 ==> s[j] == NewOutput(c, j) < c.n1 + c.n2 + |c.gates|
  {
    seq(c.n3, j requires 0 <= j < c.n3 => NewOutput(c, j))
  }

  function Renumbered(c: Circuit): Program
    requires HeaderFits(c) && Resolvable(c)
  {
    Program(c.n1 + c.n2, c.n1 + c.n2 + |c.gates|, NewOutputs(c), NewGates(c))
  }

  // ---- the fast path ----

  /** Gate `i` writes wire `n + i`, as a program's gates do. */
  predicate InOrder(c: Circuit) {
    && c.numWire == c.n1 + c.n2 + |c.gates|
    && forall i :: 0 <= i < |c.gates| ==> c.gates[i].out == c.n1 + c.n2 + i >= 0
  }

  predicate ReadsBefore(g: CGate, limit: int) {
    0 <= g.in0 < limit && (g.typ != INV ==> 0 <= g.in1 < limit)
  }

  predicate OrderedReads(c: Circuit) {
    forall i :: 0 <= i < |c.gates| ==> ReadsBefore(c.gates[i], c.n1 + c.n2 + i)
  }

  function Kept(c: Circuit): Program
    requires HeaderFits(c) && InOrder(c) && OrderedReads(c)
  {
    Program(c.n1 + c.n2, c.numWire, seq(c.n3, j requires 0 <= j < c.n3 => c.numWire - c.n3 + j),
            seq(|c.gates|, i requires 0 <= i < |c.gates| =>
              assert ReadsBefore(c.gates[i], c.n1 + c.n2 + i);
              Gate(c.gates[i].typ, c.gates[i].in0, if c.gates[i].typ == INV then 0 else c.gates[i].in1)))
  }

  /** Ag2pcProgram::from_ordered_circuit */
  method FromOrderedCircuit(c: Circuit) returns (r: Compiled)
    requires HeaderFits(c) && InOrder(c)
    ensures r == if OrderedReads(c) then Compiled(Kept(c)) else Rejected
  {
    var n, gates := c.n1 + c.n2, [];
    for i := 0 to |c.gates|
      invariant |gates| == i && forall j :: 0 <= j < i ==> ReadsBefore(c.gates[j], n + j)
      invariant forall j :: 0 <= j < i ==>
        gates[j] == Gate(c.gates[j].typ, c.gates[j].in0, if c.gates[j].typ == INV then 0 else c.gates[j].in1)
    {
      var g := c.gates[i];
      if !(0 <= g.in0 < n + i) || (g.typ != INV && !(0 <= g.in1 < n + i)) {
        assert !ReadsBefore(c.gates[i], n + i);
        return Rejected;
      }
      gates := gates + [Gate(g.typ, g.in0, if g.typ == INV then 0 else g.in1)];
    }
    var numWires := n + |gates|;
    r := Compiled(Program(n, numWires, seq(c.n3, j requires 0 <= j < c.n3 => numWires - c.n3 + j), gates));
    assert gates == Kept(c).gates;
    assert r.program.outputs == Kept(c).outputs;
  }

  /** Which circuits the compiler accepts. */
  predicate Accepted(c: Circuit) {
    HeaderFits(c) && if InOrder(c) then OrderedReads(c) else Resolvable(c)
  }

  function CompiledProgram(c: Circuit): Program
    requires Accepted(c)
  {
    if InOrder(c) then Kept(c) else Renumbered(c)
  }

  /** The first two loops of the general path: inputs map to themselves, written wires to their writer. */
  method Remap(c: Circuit) returns (ok: bool, remap: seq<int>)
    requires HeaderFits(c)
    ensures ok <==> forall i :: 0 <= i < |c.gates| ==> 0 <= c.gates[i].out < c.numWire
    ensures ok ==> |remap| == c.numWire && forall w :: 0 <= w < c.numWire ==>
      remap[w] == NewIndex(c.n1 + c.n2, c.gates, |c.gates|, w)
  {
    var n := c.n1 + c.n2;
    remap := seq(c.numWire, w requires 0 <= w < c.numWire => if w < n then w else UNMAPPED);
    for i := 0 to |c.gates|
      invariant |remap| == c.numWire && forall j :: 0 <= j < i ==> 0 <= c.gates[j].out < c.numWire
      invariant forall w :: 0 <= w < c.numWire ==> remap[w] == NewIndex(n, c.gates, i, w)
    {
      if !(0 <= c.gates[i].out < c.numWire) {
        return false, [];
      }
      remap := remap[c.gates[i].out := n + i];
    }
    ok := true;
  }

  /** The general path of Ag2pcProgram::from_circuit. */
  method FromAnyCircuit(c: Circuit) returns (r: Compiled)
    requires HeaderFits(c)
    ensures r == if Resolvable(c) then Compiled(Renumbered(c)) else Rejected
  {
    var n := c.n1 + c.n2;
    var ok, remap := Remap(c);
    if !ok {
      var i :| 0 <= i < |c.gates| && !(0 <= c.gates[i].out < c.numWire);
      assert !GateResolves(n, c.gates, c.numWire, c.gates[i]);
      return Rejected;
    }
    var gates: seq<Gate> := [];
    for i := 0 to |c.gates|
      invariant |gates| == i && forall j :: 0 <= j < i ==> GateResolves(n, c.gates, c.numWire, c.gates[j])
      invariant forall j :: 0 <= j < i ==> gates[j] == NewGate(n, c.gates, c.numWire, c.gates[j])
    {
      hide NewIndex;
      var g := c.gates[i];
      if !(0 <= g.in0 < c.numWire) || remap[g.in0] == UNMAPPED
         || (g.typ != INV && (!(0 <= g.in1 < c.numWire) || remap[g.in1] == UNMAPPED)) {
        assert !GateResolves(n, c.gates, c.numWire, c.gates[i]);
        return Rejected;
      }
      gates := gates + [Gate(g.typ, remap[g.in0], if g.typ == INV then 0 else remap[g.in1])];
    }
    var outputs: seq<nat> := [];
    for j := 0 to c.n3
      invariant |outputs| == j && forall i :: 0 <= i < j ==> OutputResolves(c, i)
      invariant forall i :: 0 <= i < j ==> outputs[i] == NewIndex(n, c.gates, |c.gates|, c.numWire - c.n3 + i)
    {
      hide NewIndex;
      if remap[c.numWire - c.n3 + j] == UNMAPPED {
        assert !OutputResolves(c, j);
        return Rejected;
      }
      outputs := outputs + [remap[c.numWire - c.n3 + j]];
    }
    assert gates == NewGates(c);
    assert outputs == NewOutputs(c);
    return Compiled(Program(n, n + |gates|, outputs, gates));
  }

  /** Ag2pcProgram::from_circuit */
  method FromCircuit(c: Circuit) returns (r: Compiled)
    ensures r == if Accepted(c) then Compiled(CompiledProgram(c)) else Rejected
  {
    if c.numWire <= 0 || c.n1 < 0 || c.n2 < 0 || c.n3 < 0 || c.n1 + c.n2 > c.numWire || c.n3 > c.numWire
       || c.numWire >= WIRE_LIMIT {
      return Rejected;
    }
    if c.numWire == c.n1 + c.n2 + |c.gates| && forall i | 0 <= i < |c.gates| :: c.gates[i].out >= 0 && c.gates[i].out == c.n1 + c.n2 + i {
      r := FromOrderedCircuit(c);
    } else {
      r := FromAnyCircuit(c);
    }
  }

  // ---- correctness ----

  /** A defined wire's number never changes as later gates write other wires. */
  lemma {:induction false} IndexStable(n: nat, gates: seq<CGate>, k: nat, m: nat, w: int)
    requires k <= m <= |gates| && Ordered(n, gates) && DefinedBy(n, gates, k, w)
    ensures NewIndex(n, gates, m, w) == NewIndex(n, gates, k, w) != UNMAPPED
    decreases m
  {
    if m == k {
      IndexDefined(n, gates, k, w);
    } else {
      if !(0 <= w < n) {
        var j :| 0 <= j < k && gates[j].out == w;
        assert gates[j].out != gates[m - 1].out;
      }
      IndexStable(n, gates, k, m - 1, w);
    }
  }

  lemma {:induction false} IndexDefined(n: nat, gates: seq<CGate>, k: nat, w: int)
    requires k <= |gates| && DefinedBy(n, gates, k, w)
    ensures NewIndex(n, gates, k, w) != UNMAPPED
  {
    if k > 0 && gates[k - 1].out != w {
      if !(0 <= w < n) {
        var j :| 0 <= j < k && gates[j].out == w;
      }
      IndexDefined(n, gates, k - 1, w);
    }
  }

  /** The same numbering read off a longer list of gates. */
  lemma {:induction false} IndexPrefix(n: nat, gates: seq<CGate>, more: seq<CGate>, k: nat, w: int)
    requires k <= |gates| && gates <= more
    ensures NewIndex(n, gates, k, w) == NewIndex(n, more, k, w)
  {
    if k > 0 {
      assert more[k - 1] == gates[k - 1];
      IndexPrefix(n, gates, more, k - 1, w);
    }
  }

  /** A well-formed circuit resolves, and every gate reads wires numbered below its own. */
  lemma WellFormedResolves(c: Circuit)
    requires c.WellFormed() && HeaderFits(c)
    ensures Resolvable(c) && Renumbered(c).Topological()
    ensures forall i :: 0 <= i < |c.gates| ==> 0 <= c.gates[i].out < c.numWire
  {
    var n := c.n1 + c.n2;
    forall i | 0 <= i < |c.gates|
      ensures GateResolves(n, c.gates, c.numWire, c.gates[i])
      ensures NewIndex(n, c.gates, |c.gates|, c.gates[i].in0) < n + i
      ensures c.gates[i].typ != INV ==> NewIndex(n, c.gates, |c.gates|, c.gates[i].in1) < n + i
    {
      assert GateInRange(c.gates[i], c.numWire) && ReadsDefined(n, c.gates, i);
      IndexStable(n, c.gates, i, |c.gates|, c.gates[i].in0);
      if c.gates[i].typ != INV {
        IndexStable(n, c.gates, i, |c.gates|, c.gates[i].in1);
      }
    }
    forall j | 0 <= j < c.n3
      ensures OutputResolves(c, j)
    {
      assert DefinedBy(n, c.gates, |c.gates|, c.numWire - c.n3 + j);
      IndexStable(n, c.gates, |c.gates|, |c.gates|, c.numWire - c.n3 + j);
    }
    var p := Renumbered(c);
    forall i | 0 <= i < |p.gates|
      ensures p.Defined(i)
    {
      assert GateResolves(n, c.gates, c.numWire, c.gates[i]);
    }
  }

  /** The program's wires, read off an assignment of the circuit's. */
  function ProgramWires(n: nat, gates: seq<CGate>, inputs: seq<bool>, w: Assignment): (v: seq<bool>)
    requires |inputs| == n
    ensures |v| == n + |gates| && v[..n] == inputs
  {
    inputs + seq(|gates|, i requires 0 <= i < |gates| => w(gates[i].out))
  }

  lemma {:induction false} IndexValue(n: nat, gates: seq<CGate>, inputs: seq<bool>, w: Assignment, k: nat, wire: int)
    requires k <= |gates| && |inputs| == n && forall i :: 0 <= i < n ==> w(i) == inputs[i]
    requires NewIndex(n, gates, k, wire) != UNMAPPED
    ensures ProgramWires(n, gates, inputs, w)[NewIndex(n, gates, k, wire)] == w(wire)
  {
    if k > 0 && gates[k - 1].out != wire {
      IndexValue(n, gates, inputs, w, k - 1, wire);
    }
  }

  lemma GateMatches(c: Circuit, inputs: seq<bool>, w: Assignment, i: nat)
    requires HeaderFits(c) && Resolvable(c) && |inputs| == c.n1 + c.n2 && i < |c.gates|
    requires GateHolds(c.gates[i], w) && Renumbered(c).Defined(i)
    requires forall k :: 0 <= k < |inputs| ==> w(k) == inputs[k]
    ensures Renumbered(c).GateHolds(ProgramWires(c.n1 + c.n2, c.gates, inputs, w), i)
  {
    hide NewIndex;
    var n := c.n1 + c.n2;
    assert GateResolves(n, c.gates, c.numWire, c.gates[i]);
    IndexValue(n, c.gates, inputs, w, |c.gates|, c.gates[i].in0);
    if c.gates[i].typ != INV {
      IndexValue(n, c.gates, inputs, w, |c.gates|, c.gates[i].in1);
    }
  }

  lemma OutputMatches(c: Circuit, inputs: seq<bool>, w: Assignment, j: nat)
    requires HeaderFits(c) && Resolvable(c) && |inputs| == c.n1 + c.n2 && j < c.n3
    requires forall k :: 0 <= k < |inputs| ==> w(k) == inputs[k]
    ensures NewOutputs(c)[j] < |inputs| + |c.gates|
    ensures ProgramWires(c.n1 + c.n2, c.gates, inputs, w)[NewOutputs(c)[j]] == w(c.numWire - c.n3 + j)
  {
    hide NewIndex;
    assert OutputResolves(c, j);
    IndexValue(c.n1 + c.n2, c.gates, inputs, w, |c.gates|, c.numWire - c.n3 + j);
  }

  /** Renumbering preserves meaning: for every well-formed circuit and every input the program
  computes what the circuit computes. */
  lemma RenumberingPreserves(c: Circuit, inputs: seq<bool>)
    requires c.WellFormed() && HeaderFits(c) && |inputs| == c.NumInputs()
    ensures Resolvable(c) && Renumbered(c).Topological()
    ensures Renumbered(c).Eval(inputs) == Circuits.Eval(c, inputs)
  {
    WellFormedResolves(c);
    var p, n := Renumbered(c), c.NumInputs();
    var w := Solvable(c, inputs);
    EvalIsSolution(c, inputs, w);
    var v := ProgramWires(n, c.gates, inputs, w);
    hide NewIndex, Circuits.Eval, NewOutputs, Resolvable, NewGates, Program.GateHolds, GateHolds, Circuit.WellFormed, ProgramWires;
    forall i | 0 <= i < |p.gates|
      ensures p.Defined(i) && p.GateHolds(v, i)
    {
      GateMatches(c, inputs, w, i);
    }
    p.WiresSolve(inputs);
    var wires := p.Wires(inputs, |p.gates|);
    p.SolutionUnique(inputs, v, wires, p.numWires);
    assert v[..p.numWires] == v && wires[..p.numWires] == wires;
    forall j | 0 <= j < c.n3
      ensures p.Eval(inputs)[j] == Circuits.Eval(c, inputs)[j]
    {
      OutputMatches(c, inputs, w, j);
    }
  }

  /** An ordered circuit's wires keep their numbers. */
  lemma {:induction false} OrderedIndex(n: nat, gates: seq<CGate>, k: nat, w: int)
    requires k <= |gates| && forall i :: 0 <= i < |gates| ==> gates[i].out == n + i
    ensures NewIndex(n, gates, k, w) == if 0 <= w < n + k then w else UNMAPPED
  {
    if k > 0 {
      OrderedIndex(n, gates, k - 1, w);
    }
  }

  /** The fast path agrees with the general one wherever it accepts, and it accepts exactly the
  well-formed ordered circuits. */
  lemma FastPathAgrees(c: Circuit)
    requires HeaderFits(c) && InOrder(c)
    ensures OrderedReads(c) <==> c.WellFormed()
    ensures OrderedReads(c) ==> Resolvable(c) && Kept(c) == Renumbered(c)
  {
    var n := c.n1 + c.n2;
    if c.WellFormed() {
      forall i | 0 <= i < |c.gates|
        ensures ReadsBefore(c.gates[i], n + i)
      {
        assert ReadsDefined(n, c.gates, i) && GateInRange(c.gates[i], c.numWire);
      }
    }
    if OrderedReads(c) {
      OrderedWellFormed(c);
      WellFormedResolves(c);
      forall i | 0 <= i < |c.gates|
        ensures Kept(c).gates[i] == Renumbered(c).gates[i]
      {
        assert ReadsBefore(c.gates[i], n + i);
        OrderedIndex(n, c.gates, |c.gates|, c.gates[i].in0);
        if c.gates[i].typ != INV {
          OrderedIndex(n, c.gates, |c.gates|, c.gates[i].in1);
        }
      }
      forall j | 0 <= j < c.n3
        ensures Kept(c).outputs[j] == Renumbered(c).outputs[j]
      {
        OrderedIndex(n, c.gates, |c.gates|, c.numWire - c.n3 + j);
      }
    }
  }

  lemma OrderedWellFormed(c: Circuit)
    requires HeaderFits(c) && InOrder(c) && OrderedReads(c)
    ensures c.WellFormed()
  {
    var n := c.n1 + c.n2;
    forall i | 0 <= i < |c.gates|
      ensures GateInRange(c.gates[i], c.numWire) && ReadsDefined(n, c.gates, i)
    {
      assert ReadsBefore(c.gates[i], n + i);
      OrderedDefined(n, c.gates, i, c.gates[i].in0);
      if c.gates[i].typ != INV {
        OrderedDefined(n, c.gates, i, c.gates[i].in1);
      }
    }
    forall w | c.numWire - c.n3 <= w < c.numWire
      ensures DefinedBy(n, c.gates, |c.gates|, w)
    {
      OrderedDefined(n, c.gates, |c.gates|, w);
    }
  }

  lemma OrderedDefined(n: nat, gates: seq<CGate>, k: nat, w: int)
    requires k <= |gates| && 0 <= w < n + k && forall i :: 0 <= i < |gates| ==> gates[i].out == n + i
    ensures DefinedBy(n, gates, k, w)
  {
    if w >= n {
      assert gates[w - n].out == w;
    }
  }

  /** from_circuit on a well-formed circuit: accepted, topological, and the same function. */
  lemma CompilationPreserves(c: Circuit, inputs: seq<bool>)
    requires c.WellFormed() && HeaderFits(c) && |inputs| == c.NumInputs()
    ensures Accepted(c) && Resolvable(c) && CompiledProgram(c) == Renumbered(c)
    ensures CompiledProgram(c).Topological() && CompiledProgram(c).Eval(inputs) == Circuits.Eval(c, inputs)
  {
    RenumberingPreserves(c, inputs);
    if InOrder(c) {
      FastPathAgrees(c);
    }
  }
}

/** Bristol circuits: arbitrary wire numbering, one gate per output wire, and what they compute. */
module Circuits {
  import opened Programs
  import opened Blocks

  /** A gate of a circuit file; an INV gate has `in1 == -1`. */
  datatype CGate = CGate(typ: GateType, in0: int, in1: int, out: int)

  datatype Circuit = Circuit(numWire: int, n1: int, n2: int, n3: int, gates: seq<CGate>) {
    /** What parse_bristol checks: the header adds up and every wire is in range. */
    predicate InRange() {
      && 0 <= n1 && 0 <= n2 && 0 <= n3 && n1 + n2 <= numWire && n3 <= numWire
      && forall i :: 0 <= i < |gates| ==> GateInRange(gates[i], numWire)
    }

    function NumInputs(): nat
      requires InRange()
    {
      n1 + n2
    }

    /** Topologically ordered, written once, inputs never written, and only defined wires read or output. */
    ghost predicate WellFormed() {
      && InRange() && Ordered(n1 + n2, gates)
      && AllDefined(n1 + n2, gates, numWire - n3, numWire)
    }
  }

  predicate GateInRange(g: CGate, n: int) {
    0 <= g.in0 < n && 0 <= g.out < n && (g.typ != INV ==> 0 <= g.in1 < n)
  }

  /** Wire `w` is an input or written by one of the first `k` gates. */
  ghost predicate DefinedBy(n: nat, gates: seq<CGate>, k: nat, w: int)
    requires k <= |gates|
  {
    0 <= w < n || exists j :: 0 <= j < k && gates[j].out == w
  }

  ghost predicate AllDefined(n: nat, gates: seq<CGate>, lo: int, hi: int) {
    forall w :: lo <= w < hi ==> DefinedBy(n, gates, |gates|, w)
  }

  ghost predicate ReadsDefined(n: nat, gates: seq<CGate>, i: nat)
    requires i < |gates|
  {
    && DefinedBy(n, gates, i, gates[i].in0)
    && (gates[i].typ != INV ==> DefinedBy(n, gates, i, gates[i].in1))
  }

  ghost predicate Ordered(n: nat, gates: seq<CGate>) {
    && (forall i :: 0 <= i < |gates| ==> gates[i].out >= n)
    && (forall i, j :: 0 <= i < j < |gates| ==> gates[i].out != gates[j].out)
    && (forall i :: 0 <= i < |gates| ==> ReadsDefined(n, gates, i))
  }

  // ---- evaluation ----

  /** What gate `g` puts on its output wire. */
  function GateValue(g: CGate, mem: seq<bool>): bool
    requires GateInRange(g, |mem|)
  {
    Apply(g.typ, mem[g.in0], if g.typ == INV then false else mem[g.in1])
  }

  /** The wire array after the first `k` gates. */
  function RunGates(gates: seq<CGate>, mem: seq<bool>, k: nat): (r: seq<bool>)
    requires k <= |gates| && forall i :: 0 <= i < |gates| ==> GateInRange(gates[i], |mem|)
    ensures |r| == |mem|
  {
    if k == 0 then mem
    else
      var m := RunGates(gates, mem, k - 1);
      m[gates[k - 1].out := GateValue(gates[k - 1], m)]
  }

  /** What a circuit computes. */
  function Eval(c: Circuit, inputs: seq<bool>): (out: seq<bool>)
    requires c.InRange() && |inputs| == c.NumInputs()
    ensures |out| == c.n3
  {
    RunGates(c.gates, inputs + NoBits(c.numWire - |inputs|), |c.gates|)[c.numWire - c.n3..]
  }

  datatype EvalResult = Output(bits: seq<bool>) | BadWidth

  /** eval_bristol */
  method EvalBristol(c: Circuit, inputs: seq<bool>) returns (r: EvalResult)
    requires c.InRange()
    ensures r == if |inputs| == c.NumInputs() then Output(Eval(c, inputs)) else BadWidth
  {
    if |inputs| != c.n1 + c.n2 {
      return BadWidth;
    }
    var wires := new bool[c.numWire];
    ghost var start := inputs + NoBits(c.numWire - |inputs|);
    for i := 0 to c.numWire
      invariant wires[..i] == start[..i]
    {
      wires[i] := i < |inputs| && inputs[i];
    }
    assert wires[..] == start;
    for i := 0 to |c.gates|
      invariant wires[..] == RunGates(c.gates, start, i)
    {
      var g := c.gates[i];
      assert GateInRange(g, c.numWire);
      match g.typ {
        case AND => wires[g.out] := wires[g.in0] && wires[g.in1];
        case XOR => wires[g.out] := wires[g.in0] != wires[g.in1];
        case INV => wires[g.out] := !wires[g.in0];
      }
    }
    return Output(wires[c.numWire - c.n3..]);
  }

  // ---- the meaning of a circuit as equations ----

  type Assignment = int -> bool

  predicate GateHolds(g: CGate, w: Assignment) {
    w(g.out) == Apply(g.typ, w(g.in0), if g.typ == INV then false else w(g.in1))
  }

  /** `w` gives every gate's output wire the value of its operands. */
  ghost predicate Solves(gates: seq<CGate>, w: Assignment) {
    forall i :: 0 <= i < |gates| ==> GateHolds(gates[i], w)
  }

  function Read(w: Assignment, wires: seq<int>): (r: seq<bool>)
    ensures |r| == |wires| && forall i :: 0 <= i < |wires| ==> r[i] == w(wires[i])
  {
    seq(|wires|, i requires 0 <= i < |wires| => w(wires[i]))
  }

  function AsWires(mem: seq<bool>): Assignment {
    i => 0 <= i < |mem| && mem[i]
  }

  /** Running the gates of a well-formed circuit solves their equations. */
  lemma {:induction false} RunSolves(n: nat, gates: seq<CGate>, mem: seq<bool>, k: nat)
    requires k <= |gates| && forall i :: 0 <= i < |gates| ==> GateInRange(gates[i], |mem|)
    requires Ordered(n, gates)
    ensures forall i :: 0 <= i < k ==> GateHolds(gates[i], AsWires(RunGates(gates, mem, k)))
    ensures forall i :: 0 <= i < n && i < |mem| ==> RunGates(gates, mem, k)[i] == mem[i]
  {
    if k > 0 {
      RunSolves(n, gates, mem, k - 1);
      var before, after := RunGates(gates, mem, k - 1), RunGates(gates, mem, k);
      var last := gates[k - 1];
      forall i | 0 <= i < k
        ensures GateHolds(gates[i], AsWires(after))
      {
        assert ReadsDefined(n, gates, i);
        assert gates[i].in0 != last.out && (gates[i].typ != INV ==> gates[i].in1 != last.out);
        if i < k - 1 {
          assert GateHolds(gates[i], AsWires(before));
        }
      }
    }
  }

  /** Two solutions that agree on the inputs agree on every defined wire. */
  lemma {:induction false} SolutionsAgree(n: nat, gates: seq<CGate>, w: Assignment, v: Assignment, k: nat, wire: int)
    requires k <= |gates| && Ordered(n, gates) && Solves(gates, w) && Solves(gates, v)
    requires forall i :: 0 <= i < n ==> w(i) == v(i)
    requires DefinedBy(n, gates, k, wire)
    ensures w(wire) == v(wire)
    decreases k
  {
    if !(0 <= wire < n) {
      var j :| 0 <= j < k && gates[j].out == wire;
      assert ReadsDefined(n, gates, j) && GateHolds(gates[j], w) && GateHolds(gates[j], v);
      SolutionsAgree(n, gates, w, v, j, gates[j].in0);
      if gates[j].typ != INV {
        SolutionsAgree(n, gates, w, v, j, gates[j].in1);
      }
    }
  }

  /** A well-formed circuit computes its equations: any solution reads its outputs. */
  lemma EvalIsSolution(c: Circuit, inputs: seq<bool>, w: Assignment)
    requires c.WellFormed() && |inputs| == c.NumInputs()
    requires Solves(c.gates, w) && forall i :: 0 <= i < |inputs| ==> w(i) == inputs[i]
    ensures forall i :: 0 <= i < c.n3 ==> Eval(c, inputs)[i] == w(c.numWire - c.n3 + i)
  {
    var n := c.NumInputs();
    var start := inputs + NoBits(c.numWire - |inputs|);
    var final := RunGates(c.gates, start, |c.gates|);
    RunSolves(n, c.gates, start, |c.gates|);
    forall i | 0 <= i < c.n3
      ensures Eval(c, inputs)[i] == w(c.numWire - c.n3 + i)
    {
      SolutionsAgree(n, c.gates, AsWires(final), w, |c.gates|, c.numWire - c.n3 + i);
    }
  }

  /** There is a solution for all inputs. */
  lemma Solvable(c: Circuit, inputs: seq<bool>) returns (w: Assignment)
    requires c.WellFormed() && |inputs| == c.NumInputs()
    ensures Solves(c.gates, w) && forall i :: 0 <= i < |inputs| ==> w(i) == inputs[i]
  {
    var start := inputs + NoBits(c.numWire - |inputs|);
    RunSolves(c.NumInputs(), c.gates, start, |c.gates|);
    w := AsWires(RunGates(c.gates, start, |c.gates|));
  }
}

/** The circuit builder: gates appended one by one, and whole gadgets embedded with fresh wires. */
module CircuitBuilder {
  import opened Programs
  import opened Circuits

  /** The builder's state as a value: the next free wire and the gates so far. */
  datatype Net = Net(next: nat, gates: seq<CGate>)

  function XorGate(b: Net, x: int, y: int): Net {
    Net(b.next + 1, b.gates + [CGate(XOR, x, y, b.next)])
  }

  function InvGate(b: Net, x: int): Net {
    Net(b.next + 1, b.gates + [CGate(INV, x, -1, b.next)])
  }

  function Fresh(from: nat, count: nat): (s: seq<int>)
    ensures |s| == count && forall i :: 0 <= i < count ==> s[i] == from + i
  {
    seq(count, i requires 0 <= i < count => from + i)
  }

  /** Where an embedded gadget's wires go: its inputs to given wires, the others to fresh ones. */
  function WireMap(b: Net, g: Circuit, inputs: seq<int>): (wires: seq<int>)
    requires g.InRange() && |inputs| == g.NumInputs()
    ensures |wires| == g.numWire
  {
    inputs + Fresh(b.next, g.numWire - |inputs|)
  }

  function Renamed(gate: CGate, wires: seq<int>): CGate
    requires GateInRange(gate, |wires|)
  {
    CGate(gate.typ, wires[gate.in0], if gate.typ == INV then -1 else wires[gate.in1], wires[gate.out])
  }

  function RenamedAll(gates: seq<CGate>, wires: seq<int>): (r: seq<CGate>)
    requires forall i :: 0 <= i < |gates| ==> GateInRange(gates[i], |wires|)
    ensures |r| == |gates| && forall i :: 0 <= i < |gates| ==> r[i] == Renamed(gates[i], wires)
  {
    seq(|gates|, i requires 0 <= i < |gates| => Renamed(gates[i], wires))
  }

  lemma NextRenamed(before: seq<CGate>, gates: seq<CGate>, wires: seq<int>, i: nat)
    requires i < |gates| && forall j :: 0 <= j < |gates| ==> GateInRange(gates[j], |wires|)
    ensures before + RenamedAll(gates, wires)[..i + 1] == before + RenamedAll(gates, wires)[..i] + [Renamed(gates[i], wires)]
  {
  }

  function Embed(b: Net, g: Circuit, inputs: seq<int>): Net
    requires g.InRange() && |inputs| == g.NumInputs()
  {
    Net(b.next + g.numWire - |inputs|, b.gates + RenamedAll(g.gates, WireMap(b, g, inputs)))
  }

  /** The wires an embedded gadget leaves its outputs on. */
  function EmbedOut(b: Net, g: Circuit, inputs: seq<int>): (out: seq<int>)
    requires g.InRange() && |inputs| == g.NumInputs()
    ensures |out| == g.n3
  {
    WireMap(b, g, inputs)[g.numWire - g.n3..]
  }

  // ---- the builder ----

  datatype Applied = Wires(wires: seq<int>) | BadInputWidth

  class Builder {
    var next: nat
    var gates: seq<CGate>

    constructor (numInputs: nat)
      ensures State() == Net(numInputs, [])
    {
      next, gates := numInputs, [];
    }

    function State(): Net
      reads this
    {
      Net(next, gates)
    }

    method Alloc() returns (out: nat)
      modifies this`next
      ensures out == old(next) && next == old(next) + 1
    {
      out := next;
      next := next + 1;
    }

    method XorW(x: int, y: int) returns (out: int)
      modifies this
      ensures out == old(next) && State() == XorGate(old(State()), x, y)
    {
      out := Alloc();
      gates := gates + [CGate(XOR, x, y, out)];
    }

    method InvW(x: int) returns (out: int)
      modifies this
      ensures out == old(next) && State() == InvGate(old(State()), x)
    {
      out := Alloc();
      gates := gates + [CGate(INV, x, -1, out)];
    }

    /** The fresh wires of apply_gadget, after the ones given for the gadget's inputs. */
    method AllocWires(g: Circuit, inputs: seq<int>) returns (wires: seq<int>)
      requires g.InRange() && |inputs| == g.NumInputs()
      modifies this`next
      ensures wires == WireMap(old(State()), g, inputs) && next == old(next) + g.numWire - g.NumInputs()
    {
      ghost var start := State();
      wires := inputs;
      while |wires| < g.numWire
        invariant g.NumInputs() <= |wires| <= g.numWire
        invariant next == start.next + |wires| - g.NumInputs()
        invariant wires == WireMap(start, g, inputs)[..|wires|]
      {
        var out := Alloc();
        assert WireMap(start, g, inputs)[|wires|] == out;
        wires := wires + [out];
      }
    }

    /** apply_gadget */
    method ApplyGadget(g: Circuit, inputs: seq<int>) returns (r: Applied)
      requires g.InRange()
      modifies this
      ensures |inputs| != g.NumInputs() ==> r == BadInputWidth && State() == old(State())
      ensures |inputs| == g.NumInputs() ==>
        r == Wires(EmbedOut(old(State()), g, inputs)) && State() == Embed(old(State()), g, inputs)
    {
      hide RenamedAll;
      var gin := g.n1 + g.n2;
      if |inputs| != gin {
        return BadInputWidth;
      }
      ghost var start := State();
      var wires := AllocWires(g, inputs);
      ghost var renamed := RenamedAll(g.gates, wires);
      for i := 0 to |g.gates|
        invariant gates == start.gates + renamed[..i]
        invariant next == start.next + g.numWire - gin
      {
        var ge := g.gates[i];
        assert GateInRange(ge, g.numWire);
        var gate := match ge.typ
          case AND => CGate(AND, wires[ge.in0], wires[ge.in1], wires[ge.out])
          case XOR => CGate(XOR, wires[ge.in0], wires[ge.in1], wires[ge.out])
          case INV => CGate(INV, wires[ge.in0], -1, wires[ge.out]);
        NextRenamed(start.gates, g.gates, wires, i);
        gates := gates + [gate];
      }
      assert renamed[..|g.gates|] == renamed;
      return Wires(wires[g.numWire - g.n3..]);
    }

    method Finish(n1: nat, n2: nat, n3: nat) returns (c: Circuit)
      ensures c == Circuit(next, n1, n2, n3, gates)
    {
      return Circuit(next, n1, n2, n3, gates);
    }
  }

  // ---- what the built gates mean ----

  /** Gates over `n` inputs in topological order, written once, below the next free wire. */
  ghost predicate Sound(n: nat, b: Net) {
    n <= b.next && Ordered(n, b.gates) && forall i :: 0 <= i < |b.gates| ==> GateInRange(b.gates[i], b.next)
  }

  ghost predicate Known(n: nat, b: Net, wires: seq<int>) {
    forall i :: 0 <= i < |wires| ==> KnownWire(n, b, wires[i])
  }

  ghost predicate KnownWire(n: nat, b: Net, wire: int) {
    0 <= wire < b.next && DefinedBy(n, b.gates, |b.gates|, wire)
  }

  /** Later gates leave earlier ones in place. */
  ghost predicate Extends(b: Net, c: Net) {
    b.next <= c.next && b.gates <= c.gates
  }

  lemma DefinedStays(n: nat, gates: seq<CGate>, more: seq<CGate>, k: nat, m: nat, w: int)
    requires k <= |gates| && gates <= more && k <= m <= |more| && DefinedBy(n, gates, k, w)
    ensures DefinedBy(n, more, m, w)
  {
    if !(0 <= w < n) {
      var j :| 0 <= j < k && gates[j].out == w;
      assert more[j] == gates[j];
    }
  }

  lemma KnownStays(n: nat, b: Net, c: Net, wires: seq<int>)
    requires Extends(b, c) && Known(n, b, wires)
    ensures Known(n, c, wires)
  {
    forall i | 0 <= i < |wires|
      ensures KnownWire(n, c, wires[i])
    {
      assert KnownWire(n, b, wires[i]);
      DefinedStays(n, b.gates, c.gates, |b.gates|, |c.gates|, wires[i]);
    }
  }

  lemma SolvesPrefix(b: Net, c: Net, w: Assignment)
    requires Extends(b, c) && Solves(c.gates, w)
    ensures Solves(b.gates, w)
  {
    forall i | 0 <= i < |b.gates|
      ensures GateHolds(b.gates[i], w)
    {
      assert c.gates[i] == b.gates[i];
    }
  }

  /** A gate that was there before the net grew. */
  lemma EarlierGate(n: nat, b: Net, c: Net, i: nat)
    requires Sound(n, b) && Extends(b, c) && i < |b.gates|
    ensures c.gates[i] == b.gates[i] && ReadsDefined(n, c.gates, i) && GateInRange(c.gates[i], c.next)
    ensures n <= c.gates[i].out < b.next
  {
    assert ReadsDefined(n, b.gates, i) && GateInRange(b.gates[i], b.next);
    DefinedStays(n, b.gates, c.gates, i, i, b.gates[i].in0);
    if b.gates[i].typ != INV {
      DefinedStays(n, b.gates, c.gates, i, i, b.gates[i].in1);
    }
  }

  /** One more gate on known wires. */
  lemma GateSound(n: nat, b: Net, typ: GateType, x: int, y: int)
    requires Sound(n, b) && KnownWire(n, b, x) && (typ != INV ==> KnownWire(n, b, y))
    ensures var c := Net(b.next + 1, b.gates + [CGate(typ, x, y, b.next)]);
      Sound(n, c) && Extends(b, c) && KnownWire(n, c, b.next)
  {
    var c := Net(b.next + 1, b.gates + [CGate(typ, x, y, b.next)]);
    assert c.gates[|b.gates|].out == b.next;
    forall i | 0 <= i < |b.gates|
      ensures ReadsDefined(n, c.gates, i) && GateInRange(c.gates[i], c.next)
    {
      EarlierGate(n, b, c, i);
    }
    DefinedStays(n, b.gates, c.gates, |b.gates|, |b.gates|, x);
    if typ != INV {
      DefinedStays(n, b.gates, c.gates, |b.gates|, |b.gates|, y);
    }
    assert ReadsDefined(n, c.gates, |b.gates|);
  }

  lemma XorSound(n: nat, b: Net, x: int, y: int)
    requires Sound(n, b) && KnownWire(n, b, x) && KnownWire(n, b, y)
    ensures Sound(n, XorGate(b, x, y)) && Extends(b, XorGate(b, x, y)) && KnownWire(n, XorGate(b, x, y), b.next)
    ensures forall w :: Solves(XorGate(b, x, y).gates, w) ==> w(b.next) == (w(x) != w(y))
  {
    GateSound(n, b, XOR, x, y);
    var gates := XorGate(b, x, y).gates;
    forall w: Assignment | Solves(gates, w)
      ensures w(b.next) == (w(x) != w(y))
    {
      assert GateHolds(gates[|b.gates|], w);
    }
  }

  lemma InvSound(n: nat, b: Net, x: int)
    requires Sound(n, b) && KnownWire(n, b, x)
    ensures Sound(n, InvGate(b, x)) && Extends(b, InvGate(b, x)) && KnownWire(n, InvGate(b, x), b.next)
    ensures forall w :: Solves(InvGate(b, x).gates, w) ==> w(b.next) == !w(x)
  {
    GateSound(n, b, INV, x, -1);
    var gates := InvGate(b, x).gates;
    forall w: Assignment | Solves(gates, w)
      ensures w(b.next) == !w(x)
    {
      assert GateHolds(gates[|b.gates|], w);
    }
  }

  /** A defined gadget wire lands on a known wire. */
  lemma MappedDefined(n: nat, b: Net, g: Circuit, inputs: seq<int>, k: nat, w: int)
    requires g.WellFormed() && |inputs| == g.NumInputs() && Known(n, b, inputs)
    requires k <= |g.gates| && 0 <= w < g.numWire && DefinedBy(g.NumInputs(), g.gates, k, w)
    ensures DefinedBy(n, Embed(b, g, inputs).gates, |b.gates| + k, WireMap(b, g, inputs)[w])
  {
    var wires, c := WireMap(b, g, inputs), Embed(b, g, inputs);
    if w < |inputs| {
      assert KnownWire(n, b, inputs[w]);
      DefinedStays(n, b.gates, c.gates, |b.gates|, |b.gates| + k, inputs[w]);
    } else {
      var j :| 0 <= j < k && g.gates[j].out == w;
      assert c.gates[|b.gates| + j] == Renamed(g.gates[j], wires);
    }
  }

  lemma EmbedReads(n: nat, b: Net, g: Circuit, inputs: seq<int>, i: nat)
    requires Sound(n, b) && g.WellFormed() && |inputs| == g.NumInputs() && Known(n, b, inputs)
    requires i < |g.gates|
    ensures var c := Embed(b, g, inputs);
      && ReadsDefined(n, c.gates, |b.gates| + i)
      && GateInRange(c.gates[|b.gates| + i], c.next)
      && c.gates[|b.gates| + i].out == b.next + (g.gates[i].out - |inputs|) >= b.next
  {
    var gate := g.gates[i];
    assert GateInRange(gate, g.numWire) && ReadsDefined(g.NumInputs(), g.gates, i);
    MappedDefined(n, b, g, inputs, i, gate.in0);
    MappedWire(n, b, g, inputs, gate.in0);
    if gate.typ != INV {
      MappedDefined(n, b, g, inputs, i, gate.in1);
      MappedWire(n, b, g, inputs, gate.in1);
    }
  }

  lemma MappedWire(n: nat, b: Net, g: Circuit, inputs: seq<int>, w: int)
    requires g.InRange() && |inputs| == g.NumInputs() && Known(n, b, inputs) && 0 <= w < g.numWire
    ensures 0 <= WireMap(b, g, inputs)[w] < Embed(b, g, inputs).next
  {
    if w < |inputs| {
      assert KnownWire(n, b, inputs[w]);
    }
  }

  lemma EmbedWritesOnce(n: nat, b: Net, g: Circuit, inputs: seq<int>, i: nat, j: nat)
    requires Sound(n, b) && g.WellFormed() && |inputs| == g.NumInputs() && Known(n, b, inputs)
    requires i < j < |Embed(b, g, inputs).gates|
    ensures Embed(b, g, inputs).gates[i].out != Embed(b, g, inputs).gates[j].out
  {
    hide Embed, ReadsDefined, DefinedBy, KnownWire;
    var c, m := Embed(b, g, inputs), |b.gates|;
    EmbedExtends(b, g, inputs);
    if j < m {
      EarlierGate(n, b, c, i);
      EarlierGate(n, b, c, j);
    } else {
      EmbedReads(n, b, g, inputs, j - m);
      if i < m {
        EarlierGate(n, b, c, i);
      } else {
        EmbedReads(n, b, g, inputs, i - m);
      }
    }
  }

  lemma EmbedExtends(b: Net, g: Circuit, inputs: seq<int>)
    requires g.InRange() && |inputs| == g.NumInputs()
    ensures Extends(b, Embed(b, g, inputs)) && |Embed(b, g, inputs).gates| == |b.gates| + |g.gates|
  {
  }

  /** Embedding a well-formed gadget on known wires, repeated or not, keeps the net sound. */
  lemma EmbedSound(n: nat, b: Net, g: Circuit, inputs: seq<int>)
    requires Sound(n, b) && g.WellFormed() && |inputs| == g.NumInputs() && Known(n, b, inputs)
    ensures Sound(n, Embed(b, g, inputs)) && Extends(b, Embed(b, g, inputs))
    ensures Known(n, Embed(b, g, inputs), EmbedOut(b, g, inputs))
  {
    hide Embed, ReadsDefined, DefinedBy, KnownWire, GateInRange;
    var c, m := Embed(b, g, inputs), |b.gates|;
    EmbedExtends(b, g, inputs);
    forall i | 0 <= i < |c.gates|
      ensures ReadsDefined(n, c.gates, i) && GateInRange(c.gates[i], c.next) && c.gates[i].out >= n
    {
      if i < m {
        EarlierGate(n, b, c, i);
      } else {
        EmbedReads(n, b, g, inputs, i - m);
      }
    }
    forall i, j | 0 <= i < j < |c.gates|
      ensures c.gates[i].out != c.gates[j].out
    {
      EmbedWritesOnce(n, b, g, inputs, i, j);
    }
    OutputsKnown(n, b, g, inputs);
  }

  lemma OutputsKnown(n: nat, b: Net, g: Circuit, inputs: seq<int>)
    requires g.WellFormed() && |inputs| == g.NumInputs() && Known(n, b, inputs)
    ensures Known(n, Embed(b, g, inputs), EmbedOut(b, g, inputs))
  {
    forall i | 0 <= i < g.n3
      ensures KnownWire(n, Embed(b, g, inputs), EmbedOut(b, g, inputs)[i])
    {
      MappedDefined(n, b, g, inputs, |g.gates|, g.numWire - g.n3 + i);
      MappedWire(n, b, g, inputs, g.numWire - g.n3 + i);
    }
  }

  /** The embedding theorem: in any solution of the grown net the gadget's output wires
  read what the gadget computes from its input wires. */
  lemma EmbeddedComputes(n: nat, b: Net, g: Circuit, inputs: seq<int>, w: Assignment)
    requires g.WellFormed() && |inputs| == g.NumInputs() && Solves(Embed(b, g, inputs).gates, w)
    ensures Read(w, EmbedOut(b, g, inputs)) == Eval(g, Read(w, inputs))
  {
    var wires, c, m := WireMap(b, g, inputs), Embed(b, g, inputs), |b.gates|;
    var v: Assignment := i => 0 <= i < |wires| && w(wires[i]);
    forall i | 0 <= i < |g.gates|
      ensures GateHolds(g.gates[i], v)
    {
      assert GateInRange(g.gates[i], g.numWire);
      assert c.gates[m + i] == Renamed(g.gates[i], wires) && GateHolds(c.gates[m + i], w);
    }
    EvalIsSolution(g, Read(w, inputs), v);
  }
}

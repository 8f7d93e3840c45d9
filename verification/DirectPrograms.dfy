/** Programs built directly from the gadget,
without the circuit in between. */
module DirectPrograms {
  import opened Options
  import opened Programs
  import opened Circuits
  import opened CircuitBuilder
  import opened Compile

  /** Ag2pcProgramBuilder as a value; gate `i` writes wire `inputs + i`. */
  datatype Draft = Draft(inputs: nat, gates: seq<Gate>) {
    function NextWire(): nat {
      inputs + |gates|
    }
  }

  function Push(d: Draft, g: Gate): Option<Draft> {
    if d.NextWire() >= WIRE_LIMIT then None else Some(d.(gates := d.gates + [g]))
  }

  /** Where the gadget's wires are in the program; `None` stands for the UNMAPPED marker. */
  type GadgetMap = seq<Option<nat>>

  predicate Mapped(wires: GadgetMap, w: int) {
    0 <= w < |wires| && wires[w].Some?
  }

  /** One gate of an embedded gadget. */
  function EmbedGate(d: Draft, wires: GadgetMap, g: CGate): Option<(Draft, GadgetMap)>
    requires 0 <= g.out < |wires|
  {
    if !Mapped(wires, g.in0) || (g.typ != INV && !Mapped(wires, g.in1)) then None
    else
      var pushed := Push(d, Gate(g.typ, wires[g.in0].value, if g.typ == INV then 0 else wires[g.in1].value));
      if pushed == None then None else Some((pushed.value, wires[g.out := Some(d.NextWire())]))
  }

  /** The first `k` gates of an embedded gadget. */
  function EmbedGates(d: Draft, wires: GadgetMap, g: Circuit, k: nat): (r: Option<(Draft, GadgetMap)>)
    requires g.InRange() && |wires| == g.numWire && k <= |g.gates|
    ensures r.Some? ==> |r.value.1| == g.numWire
  {
    if k == 0 then Some((d, wires))
    else
      var r := EmbedGates(d, wires, g, k - 1);
      if r == None then None
      else
        assert GateInRange(g.gates[k - 1], g.numWire);
        EmbedGate(r.value.0, r.value.1, g.gates[k - 1])
  }

  function StartMap(g: Circuit, inputs: seq<nat>): (m: GadgetMap)
    requires g.InRange() && |inputs| == g.NumInputs()
    ensures |m| == g.numWire
    ensures forall w :: 0 <= w < |inputs| ==> m[w] == Some(inputs[w])
  {
    seq(g.numWire, w requires 0 <= w < g.numWire => if w < |inputs| then Some(inputs[w]) else None)
  }

  function Values(wires: GadgetMap): (r: seq<nat>)
    requires forall i :: 0 <= i < |wires| ==> wires[i].Some?
    ensures |r| == |wires| && forall i :: 0 <= i < |wires| ==> r[i] == wires[i].value
  {
    seq(|wires|, i requires 0 <= i < |wires| => wires[i].value)
  }

  function EmbedDraft(d: Draft, g: Circuit, inputs: seq<nat>): (r: Option<(Draft, seq<nat>)>)
    requires g.InRange()
    ensures r.Some? ==> |r.value.1| == g.n3
  {
    if |inputs| != g.NumInputs() then None
    else
      var r := EmbedGates(d, StartMap(g, inputs), g, |g.gates|);
      if r == None then None
      else
        var out := r.value.1[g.numWire - g.n3..];
        if None in out then None else Some((r.value.0, Values(out)))
  }

  class ProgramBuilder {
    const inputs: nat
    var gates: seq<Gate>

    constructor (numInputs: nat)
      ensures State() == Draft(numInputs, []) && inputs == numInputs
    {
      inputs, gates := numInputs, [];
    }

    function State(): Draft
      reads this
    {
      Draft(inputs, gates)
    }

    /** push_gate */
    method PushGate(g: Gate) returns (ok: bool, out: nat)
      modifies this
      ensures ok == Push(old(State()), g).Some?
      ensures ok ==> State() == Push(old(State()), g).value && out == old(State()).NextWire()
    {
      out := inputs + |gates|;
      if out >= WIRE_LIMIT {
        return false, out;
      }
      gates := gates + [g];
      ok := true;
    }

    /** apply_gadget */
    method ApplyGadget(g: Circuit, ins: seq<nat>) returns (ok: bool, out: seq<nat>)
      requires g.InRange()
      modifies this
      ensures ok == EmbedDraft(old(State()), g, ins).Some?
      ensures ok ==> (State(), out) == EmbedDraft(old(State()), g, ins).value
    {
      if |ins| != g.n1 + g.n2 {
        return false, [];
      }
      ghost var start := State();
      var wires := StartMap(g, ins);
      for i := 0 to |g.gates|
        invariant |wires| == g.numWire
        invariant EmbedGates(start, StartMap(g, ins), g, i) == Some((State(), wires))
      {
        var gate := g.gates[i];
        assert GateInRange(gate, g.numWire);
        EmbedFails(start, StartMap(g, ins), g, i + 1, |g.gates|);
        if wires[gate.in0] == None || (gate.typ != INV && wires[gate.in1] == None) {
          return false, [];
        }
        var in0, in1 := wires[gate.in0].value, if gate.typ == INV then 0 else wires[gate.in1].value;
        var pushed, w := PushGate(Gate(gate.typ, in0, in1));
        if !pushed {
          return false, [];
        }
        wires := wires[gate.out := Some(w)];
      }
      if None in wires[g.numWire - g.n3..] {
        return false, [];
      }
      return true, Values(wires[g.numWire - g.n3..]);
    }
  }

  /** A failed embedding stays failed. */
  lemma {:induction false} EmbedFails(d: Draft, wires: GadgetMap, g: Circuit, k: nat, m: nat)
    requires g.InRange() && |wires| == g.numWire && k <= m <= |g.gates|
    ensures EmbedGates(d, wires, g, k) == None ==> EmbedGates(d, wires, g, m) == None
  {
    if k < m {
      EmbedFails(d, wires, g, k, m - 1);
    }
  }

  // ---- the draft mirrors the net ----

  /** A circuit gate in program numbering. */
  function MirrorGate(n: nat, gates: seq<CGate>, g: CGate): (int, int, GateType) {
    (NewIndex(n, gates, |gates|, g.in0), if g.typ == INV then 0 else NewIndex(n, gates, |gates|, g.in1), g.typ)
  }

  /** The program gates are the circuit gates, renumbered. */
  ghost predicate Mirrors(n: nat, gates: seq<CGate>, draft: seq<Gate>) {
    |draft| == |gates| && forall i :: 0 <= i < |gates| ==> MirrorsAt(n, gates, draft, i)
  }

  ghost predicate MirrorsAt(n: nat, gates: seq<CGate>, draft: seq<Gate>, i: nat)
    requires i < |gates| == |draft|
  {
    (draft[i].in0, draft[i].in1, draft[i].typ) == MirrorGate(n, gates, gates[i])
  }

  function IndexOf(n: nat, gates: seq<CGate>, w: int): int {
    NewIndex(n, gates, |gates|, w)
  }

  /** `draft` names the same wires as `wires`, in program numbering. */
  predicate SameWires(n: nat, gates: seq<CGate>, wires: seq<int>, draft: seq<nat>) {
    |draft| == |wires| && forall i :: 0 <= i < |wires| ==> draft[i] == IndexOf(n, gates, wires[i])
  }

  /** A wire keeps its number when gates are added. */
  lemma IndexKept(n: nat, gates: seq<CGate>, more: seq<CGate>, k: nat, w: int)
    requires k <= |gates| && gates <= more && Ordered(n, more) && DefinedBy(n, gates, k, w)
    ensures IndexOf(n, more, w) == IndexOf(n, gates, w) == NewIndex(n, gates, k, w) >= 0
  {
    OrderedPrefix(n, gates, more);
    DefinedStays(n, gates, more, k, k, w);
    IndexStable(n, more, k, |more|, w);
    IndexStable(n, gates, k, |gates|, w);
    IndexPrefix(n, gates, more, k, w);
  }

  lemma OrderedPrefix(n: nat, gates: seq<CGate>, more: seq<CGate>)
    requires gates <= more && Ordered(n, more)
    ensures Ordered(n, gates)
  {
    forall i | 0 <= i < |gates|
      ensures ReadsDefined(n, gates, i)
    {
      assert ReadsDefined(n, more, i);
      DefinedBack(n, gates, more, i, gates[i].in0);
      if gates[i].typ != INV {
        DefinedBack(n, gates, more, i, gates[i].in1);
      }
    }
  }

  lemma DefinedBack(n: nat, gates: seq<CGate>, more: seq<CGate>, k: nat, w: int)
    requires k <= |gates| && gates <= more && DefinedBy(n, more, k, w)
    ensures DefinedBy(n, gates, k, w)
  {
    if !(0 <= w < n) {
      var j :| 0 <= j < k && more[j].out == w;
      assert gates[j].out == w;
    }
  }

  lemma SameWiresKept(n: nat, b: Net, c: Net, wires: seq<int>, draft: seq<nat>)
    requires Extends(b, c) && Ordered(n, c.gates) && Known(n, b, wires) && SameWires(n, b.gates, wires, draft)
    ensures SameWires(n, c.gates, wires, draft)
  {
    forall i | 0 <= i < |wires|
      ensures draft[i] == IndexOf(n, c.gates, wires[i])
    {
      assert KnownWire(n, b, wires[i]);
      IndexKept(n, b.gates, c.gates, |b.gates|, wires[i]);
    }
  }

  lemma MirrorStays(n: nat, gates: seq<CGate>, g: CGate, draft: seq<Gate>, h: Gate, i: nat)
    requires Ordered(n, gates + [g]) && Mirrors(n, gates, draft) && i <= |gates|
    requires (h.in0, h.in1, h.typ) == MirrorGate(n, gates, g)
    ensures MirrorsAt(n, gates + [g], draft + [h], i)
  {
    var more := gates + [g];
    assert ReadsDefined(n, more, i);
    assert i < |gates| ==> MirrorsAt(n, gates, draft, i);
    DefinedBack(n, gates, more, i, more[i].in0);
    IndexKept(n, gates, more, i, more[i].in0);
    if more[i].typ != INV {
      DefinedBack(n, gates, more, i, more[i].in1);
      IndexKept(n, gates, more, i, more[i].in1);
    }
  }

  /** Pushing the renumbered gate mirrors adding the gate. */
  lemma MirrorPush(n: nat, gates: seq<CGate>, g: CGate, draft: seq<Gate>, h: Gate)
    requires Ordered(n, gates + [g]) && Mirrors(n, gates, draft)
    requires (h.in0, h.in1, h.typ) == MirrorGate(n, gates, g)
    ensures Mirrors(n, gates + [g], draft + [h])
    ensures IndexOf(n, gates + [g], g.out) == n + |gates|
  {
    forall i | 0 <= i <= |gates|
      ensures MirrorsAt(n, gates + [g], draft + [h], i)
    {
      hide MirrorsAt;
      MirrorStays(n, gates, g, draft, h, i);
    }
  }

  // ---- an embedded gadget ----

  /** The net's gates after `k` gates of the embedded gadget. */
  function PartGates(b: Net, g: Circuit, ins: seq<int>, k: nat): (s: seq<CGate>)
    requires g.InRange() && |ins| == g.NumInputs() && k <= |g.gates|
    ensures |s| == |b.gates| + k
  {
    b.gates + RenamedAll(g.gates, WireMap(b, g, ins))[..k]
  }

  /** Every defined gadget wire is mapped to its net wire's number. */
  ghost predicate MapMirrors(n: nat, b: Net, g: Circuit, ins: seq<int>, k: nat, wires: GadgetMap)
    requires g.InRange() && |ins| == g.NumInputs() && k <= |g.gates|
  {
    |wires| == g.numWire && forall w :: 0 <= w < g.numWire ==> MapsWire(n, b, g, ins, k, wires, w)
  }

  ghost predicate MapsWire(n: nat, b: Net, g: Circuit, ins: seq<int>, k: nat, wires: GadgetMap, w: nat)
    requires g.InRange() && |ins| == g.NumInputs() && k <= |g.gates| && w < g.numWire == |wires|
  {
    DefinedBy(|ins|, g.gates, k, w) ==>
      && wires[w].Some?
      && wires[w].value == IndexOf(n, PartGates(b, g, ins, k), WireMap(b, g, ins)[w])
  }

  lemma PartOrdered(n: nat, b: Net, g: Circuit, ins: seq<int>, k: nat)
    requires Sound(n, b) && g.WellFormed() && |ins| == g.NumInputs() && Known(n, b, ins) && k <= |g.gates|
    ensures Ordered(n, PartGates(b, g, ins, k))
    ensures k < |g.gates| ==>
      PartGates(b, g, ins, k + 1) == PartGates(b, g, ins, k) + [Renamed(g.gates[k], WireMap(b, g, ins))]
  {
    EmbedSound(n, b, g, ins);
    OrderedPrefix(n, PartGates(b, g, ins, k), Embed(b, g, ins).gates);
  }

  lemma PartDefined(n: nat, b: Net, g: Circuit, ins: seq<int>, k: nat, w: int)
    requires Sound(n, b) && g.WellFormed() && |ins| == g.NumInputs() && Known(n, b, ins) && k <= |g.gates|
    requires 0 <= w < g.numWire && DefinedBy(|ins|, g.gates, k, w)
    ensures DefinedBy(n, PartGates(b, g, ins, k), |b.gates| + k, WireMap(b, g, ins)[w])
  {
    MappedDefined(n, b, g, ins, k, w);
    DefinedBack(n, PartGates(b, g, ins, k), Embed(b, g, ins).gates, |b.gates| + k, WireMap(b, g, ins)[w]);
  }

  lemma MapStep(n: nat, b: Net, g: Circuit, ins: seq<int>, k: nat, wires: GadgetMap, v: nat)
    requires Sound(n, b) && g.WellFormed() && |ins| == g.NumInputs() && Known(n, b, ins) && k < |g.gates|
    requires MapMirrors(n, b, g, ins, k, wires) && 0 <= g.gates[k].out < g.numWire
    requires v == IndexOf(n, PartGates(b, g, ins, k + 1), WireMap(b, g, ins)[g.gates[k].out])
    ensures MapMirrors(n, b, g, ins, k + 1, wires[g.gates[k].out := Some(v)])
  {
    hide IndexOf, PartGates, WireMap;
    var after, next := wires[g.gates[k].out := Some(v)], k + 1;
    PartOrdered(n, b, g, ins, k);
    PartOrdered(n, b, g, ins, next);
    forall w | 0 <= w < g.numWire
      ensures MapsWire(n, b, g, ins, next, after, w)
    {
      if w != g.gates[k].out && DefinedBy(|ins|, g.gates, k + 1, w) {
        assert DefinedBy(|ins|, g.gates, k, w);
        assert MapsWire(n, b, g, ins, k, wires, w);
        PartDefined(n, b, g, ins, k, w);
        IndexKept(n, PartGates(b, g, ins, k), PartGates(b, g, ins, k + 1), |b.gates| + k, WireMap(b, g, ins)[w]);
      }
    }
  }

  lemma {:induction false} GadgetMirrors(n: nat, b: Net, g: Circuit, ins: seq<int>, d: Draft, dins: seq<nat>, k: nat)
    requires Sound(n, b) && g.WellFormed() && |ins| == g.NumInputs() && Known(n, b, ins) && k <= |g.gates|
    requires d.inputs == n && Mirrors(n, b.gates, d.gates) && SameWires(n, b.gates, ins, dins)
    requires n + |b.gates| + |g.gates| <= WIRE_LIMIT
    ensures var r := EmbedGates(d, StartMap(g, dins), g, k);
      && r.Some? && r.value.0.inputs == n && Mirrors(n, PartGates(b, g, ins, k), r.value.0.gates)
      && MapMirrors(n, b, g, ins, k, r.value.1)
  {
    hide Mirrors, Circuit.WellFormed, Sound, Known, SameWires, MapMirrors, EmbedGate, EmbedGates, PartGates, StartMap;
    StartFits(n, b.gates, g, ins, dins);
    if k == 0 {
      MapStarts(n, b, g, ins, d, dins);
    } else {
      GadgetMirrors(n, b, g, ins, d, dins, k - 1);
      var r := EmbedGates(d, StartMap(g, dins), g, k - 1).value;
      GadgetStep(n, b, g, ins, r.0, r.1, k - 1);
      EmbedUnfolds(d, StartMap(g, dins), g, k);
    }
  }

  lemma StartFits(n: nat, gates: seq<CGate>, g: Circuit, ins: seq<int>, dins: seq<nat>)
    requires g.WellFormed() && |ins| == g.NumInputs() && SameWires(n, gates, ins, dins)
    ensures g.InRange() && |dins| == g.NumInputs()
  {
  }

  lemma EmbedUnfolds(d: Draft, wires: GadgetMap, g: Circuit, k: nat)
    requires g.InRange() && |wires| == g.numWire && 0 < k <= |g.gates| && EmbedGates(d, wires, g, k - 1).Some?
    ensures 0 <= g.gates[k - 1].out < g.numWire
    ensures EmbedGates(d, wires, g, k) ==
      EmbedGate(EmbedGates(d, wires, g, k - 1).value.0, EmbedGates(d, wires, g, k - 1).value.1, g.gates[k - 1])
  {
    assert GateInRange(g.gates[k - 1], g.numWire);
  }

  lemma MapStarts(n: nat, b: Net, g: Circuit, ins: seq<int>, d: Draft, dins: seq<nat>)
    requires Sound(n, b) && g.WellFormed() && |ins| == g.NumInputs() && Known(n, b, ins)
    requires Mirrors(n, b.gates, d.gates) && SameWires(n, b.gates, ins, dins)
    ensures Mirrors(n, PartGates(b, g, ins, 0), d.gates) && MapMirrors(n, b, g, ins, 0, StartMap(g, dins))
    ensures EmbedGates(d, StartMap(g, dins), g, 0) == Some((d, StartMap(g, dins)))
  {
    assert PartGates(b, g, ins, 0) == b.gates;
    forall w | 0 <= w < g.numWire
      ensures MapsWire(n, b, g, ins, 0, StartMap(g, dins), w)
    {
      if w < |ins| {
        assert WireMap(b, g, ins)[w] == ins[w];
      }
    }
  }

  /** One gadget gate on both sides. */
  lemma GadgetStep(n: nat, b: Net, g: Circuit, ins: seq<int>, d: Draft, wires: GadgetMap, k: nat)
    requires Sound(n, b) && g.WellFormed() && |ins| == g.NumInputs() && Known(n, b, ins) && k < |g.gates|
    requires d.inputs == n && Mirrors(n, PartGates(b, g, ins, k), d.gates) && MapMirrors(n, b, g, ins, k, wires)
    requires n + |b.gates| + |g.gates| <= WIRE_LIMIT
    ensures 0 <= g.gates[k].out < |wires|
    ensures var r := EmbedGate(d, wires, g.gates[k]);
      && r.Some? && r.value.0.inputs == n && Mirrors(n, PartGates(b, g, ins, k + 1), r.value.0.gates)
      && MapMirrors(n, b, g, ins, k + 1, r.value.1)
  {
    hide Sound, Known, IndexOf, PartGates, WireMap, Mirrors;
    var gate := g.gates[k];
    assert GateInRange(gate, g.numWire) && ReadsDefined(|ins|, g.gates, k);
    assert MapsWire(n, b, g, ins, k, wires, gate.in0);
    assert gate.typ != INV ==> MapsWire(n, b, g, ins, k, wires, gate.in1);
    PartOrdered(n, b, g, ins, k);
    PartOrdered(n, b, g, ins, k + 1);
    MirrorsLength(n, PartGates(b, g, ins, k), d.gates);
    var ren := Renamed(gate, WireMap(b, g, ins));
    var h := Gate(gate.typ, wires[gate.in0].value, if gate.typ == INV then 0 else wires[gate.in1].value);
    IndexOfMeans(n, PartGates(b, g, ins, k), ren);
    MirrorPush(n, PartGates(b, g, ins, k), ren, d.gates, h);
    MapStep(n, b, g, ins, k, wires, d.NextWire());
  }

  lemma IndexOfMeans(n: nat, gates: seq<CGate>, g: CGate)
    ensures MirrorGate(n, gates, g) == (IndexOf(n, gates, g.in0), if g.typ == INV then 0 else IndexOf(n, gates, g.in1), g.typ)
  {
  }

  lemma MirrorsLength(n: nat, gates: seq<CGate>, draft: seq<Gate>)
    requires Mirrors(n, gates, draft)
    ensures |draft| == |gates|
  {
  }

  /** Embedding the gadget directly mirrors embedding it in the net. */
  lemma EmbedMirrors(n: nat, b: Net, g: Circuit, ins: seq<int>, d: Draft, dins: seq<nat>)
    requires Sound(n, b) && g.WellFormed() && |ins| == g.NumInputs() && Known(n, b, ins)
    requires d.inputs == n && Mirrors(n, b.gates, d.gates) && SameWires(n, b.gates, ins, dins)
    requires n + |b.gates| + |g.gates| <= WIRE_LIMIT
    ensures var r, c := EmbedDraft(d, g, dins), Embed(b, g, ins);
      && r.Some? && r.value.0.inputs == n && Mirrors(n, c.gates, r.value.0.gates)
      && SameWires(n, c.gates, EmbedOut(b, g, ins), r.value.1)
  {
    hide Mirrors, IndexOf, EmbedGates, Sound, Known;
    GadgetMirrors(n, b, g, ins, d, dins, |g.gates|);
    var r := EmbedGates(d, StartMap(g, dins), g, |g.gates|).value;
    assert PartGates(b, g, ins, |g.gates|) == Embed(b, g, ins).gates;
    var out, low := r.1[g.numWire - g.n3..], g.numWire - g.n3;
    forall i | 0 <= i < g.n3
      ensures out[i].Some? && out[i].value == IndexOf(n, Embed(b, g, ins).gates, EmbedOut(b, g, ins)[i])
    {
      assert DefinedBy(|ins|, g.gates, |g.gates|, low + i);
      assert MapsWire(n, b, g, ins, |g.gates|, r.1, low + i);
    }
  }
}

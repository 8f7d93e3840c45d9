/** chunk_from_sha: the program for a run of hash steps,
gate for gate the compiled chunk circuit. */
module ChunkPrograms {
  import opened Options
  import opened Programs
  import opened Shachain
  import opened Circuits
  import opened CircuitBuilder
  import opened ChainCircuits
  import opened Compile
  import opened DirectPrograms

  type Drafted = Option<(Draft, seq<nat>)>

  function StepDraft(d: Draft, sha: Circuit, q: seq<nat>, bit: nat, c0: nat, c1: nat): (r: Drafted)
    requires sha.InRange() && GadgetShape(sha) && |q| == VALUE_BITS && bit < VALUE_BITS
    ensures r.Some? ==> |r.value.1| == VALUE_BITS
  {
    var pushed := Push(d, Gate(INV, q[MsbIndex(bit)], 0));
    if pushed == None then None
    else EmbedDraft(pushed.value, sha, q[MsbIndex(bit) := d.NextWire()] + PadWires(c0, c1))
  }

  function ChainDraft(d: Draft, sha: Circuit, q: seq<nat>, bits: seq<nat>, c0: nat, c1: nat): (r: Drafted)
    requires sha.InRange() && GadgetShape(sha) && |q| == VALUE_BITS && Indices(bits)
    ensures r.Some? ==> |r.value.1| == VALUE_BITS
  {
    if bits == [] then Some((d, q))
    else
      var m := |bits| - 1;
      var r := ChainDraft(d, sha, q, bits[..m], c0, c1);
      if r == None then None else StepDraft(r.value.0, sha, r.value.1, bits[m], c0, c1)
  }

  function XorDraft(d: Draft, xs: seq<nat>, ys: seq<nat>): (r: Option<Draft>)
    requires |xs| == |ys|
    ensures r.Some? ==> r.value.inputs == d.inputs && r.value.NextWire() == d.NextWire() + |xs|
  {
    if xs == [] then Some(d)
    else
      var m := |xs| - 1;
      var r := XorDraft(d, xs[..m], ys[..m]);
      if r == None then None else Push(r.value, Gate(XOR, xs[m], ys[m]))
  }

  function FreshNat(from: nat, count: nat): (s: seq<nat>)
    ensures |s| == count && forall i :: 0 <= i < count ==> s[i] == from + i
  {
    seq(count, i requires 0 <= i < count => from + i)
  }

  function RepeatNat(wire: nat, n: nat): (s: seq<nat>)
    ensures |s| == n && forall i :: 0 <= i < n ==> s[i] == wire
  {
    seq(n, _ => wire)
  }

  /** The draft with its two constants. */
  function StartDraft(n: nat): Option<Draft> {
    var one := Push(Draft(n, []), Gate(XOR, 0, 0));
    if one == None then None else Push(one.value, Gate(INV, n, 0))
  }

  function ShareDraft(first: bool): (r: Drafted)
    ensures r.Some? ==> |r.value.1| == VALUE_BITS
  {
    var d := StartDraft(ChunkInputs(first));
    if d == None then None
    else if first then
      var x := XorDraft(d.value, FreshNat(0, VALUE_BITS), FreshNat(VALUE_BITS, VALUE_BITS));
      if x == None then None else Some((x.value, FreshNat(d.value.NextWire(), VALUE_BITS)))
    else Some((d.value, FreshNat(0, VALUE_BITS)))
  }

  /** Ag2pcProgramBuilder::finish */
  function Finished(d: Draft, outputs: nat): Option<Program> {
    if outputs > d.NextWire() then None
    else Some(Program(d.inputs, d.NextWire(), FreshNat(d.NextWire() - outputs, outputs), d.gates))
  }

  function ChunkDraft(sha: Circuit, bits: seq<nat>, first: bool): Option<Program>
    requires sha.InRange() && GadgetShape(sha) && Indices(bits)
  {
    var n := ChunkInputs(first);
    var s := ShareDraft(first);
    if s == None then None
    else
      var c := ChainDraft(s.value.0, sha, s.value.1, bits, n, n + 1);
      if c == None then None
      else
        var x := XorDraft(c.value.0, c.value.1, RepeatNat(n, VALUE_BITS));
        if x == None then None else Finished(x.value, VALUE_BITS)
  }

  // ---- the methods ----

  method HashSteps(b: ProgramBuilder, sha: Circuit, start: seq<nat>, bits: seq<nat>, c0: nat, c1: nat)
    returns (ok: bool, q: seq<nat>)
    requires sha.InRange() && GadgetShape(sha) && Indices(bits) && |start| == VALUE_BITS
    modifies b
    ensures ok == ChainDraft(old(b.State()), sha, start, bits, c0, c1).Some?
    ensures ok ==> (b.State(), q) == ChainDraft(old(b.State()), sha, start, bits, c0, c1).value
  {
    hide EmbedDraft, Padding;
    var pad := PaddingBits();
    var block2 := seq(VALUE_BITS, i requires 0 <= i < VALUE_BITS => if pad[i] then c1 else c0);
    assert block2 == PadWires(c0, c1);
    ghost var before := b.State();
    q := start;
    for i := 0 to |bits|
      invariant |q| == VALUE_BITS && ChainDraft(before, sha, start, bits[..i], c0, c1) == Some((b.State(), q))
    {
      assert bits[..i + 1][..i] == bits[..i];
      ChainFails(before, sha, start, bits, i + 1, c0, c1);
      var idx := MsbIndex(bits[i]);
      var pushed, inv := b.PushGate(Gate(INV, q[idx], 0));
      if !pushed {
        return false, q;
      }
      q := q[idx := inv];
      var applied, out := b.ApplyGadget(sha, q + block2);
      if !applied {
        return false, q;
      }
      q := out;
    }
    assert bits[..|bits|] == bits;
    ok := true;
  }

  lemma {:induction false} ChainFails(d: Draft, sha: Circuit, q: seq<nat>, bits: seq<nat>, k: nat, c0: nat, c1: nat)
    requires sha.InRange() && GadgetShape(sha) && |q| == VALUE_BITS && Indices(bits) && k <= |bits|
    ensures ChainDraft(d, sha, q, bits[..k], c0, c1) == None ==> ChainDraft(d, sha, q, bits, c0, c1) == None
    decreases |bits| - k
  {
    hide StepDraft;
    if k < |bits| {
      assert bits[..k + 1][..k] == bits[..k];
      ChainFails(d, sha, q, bits, k + 1, c0, c1);
    } else {
      assert bits[..k] == bits;
    }
  }

  method XorWires(b: ProgramBuilder, xs: seq<nat>, ys: seq<nat>) returns (ok: bool, q: seq<nat>)
    requires |xs| == |ys|
    modifies b
    ensures ok == XorDraft(old(b.State()), xs, ys).Some?
    ensures ok ==> b.State() == XorDraft(old(b.State()), xs, ys).value && q == FreshNat(old(b.State()).NextWire(), |xs|)
  {
    ghost var before := b.State();
    q := [];
    for i := 0 to |xs|
      invariant XorDraft(before, xs[..i], ys[..i]) == Some(b.State()) && q == FreshNat(before.NextWire(), i)
    {
      assert xs[..i + 1][..i] == xs[..i] && ys[..i + 1][..i] == ys[..i];
      XorFails(before, xs, ys, i + 1);
      var pushed, out := b.PushGate(Gate(XOR, xs[i], ys[i]));
      if !pushed {
        return false, q;
      }
      q := q + [out];
    }
    assert xs[..|xs|] == xs && ys[..|ys|] == ys;
    ok := true;
  }

  lemma {:induction false} XorFails(d: Draft, xs: seq<nat>, ys: seq<nat>, k: nat)
    requires |xs| == |ys| && k <= |xs|
    ensures XorDraft(d, xs[..k], ys[..k]) == None ==> XorDraft(d, xs, ys) == None
    decreases |xs| - k
  {
    if k < |xs| {
      assert xs[..k + 1][..k] == xs[..k] && ys[..k + 1][..k] == ys[..k];
      XorFails(d, xs, ys, k + 1);
    } else {
      assert xs[..k] == xs && ys[..k] == ys;
    }
  }

  method Start(n: nat) returns (ok: bool, b: ProgramBuilder)
    ensures fresh(b) && ok == StartDraft(n).Some? && (ok ==> b.State() == StartDraft(n).value)
  {
    b := new ProgramBuilder(n);
    var c0, c1;
    ok, c0 := b.PushGate(Gate(XOR, 0, 0));
    if ok {
      ok, c1 := b.PushGate(Gate(INV, c0, 0));
    }
  }

  /** The constants and, in a first chunk, the XOR of the two shares. */
  method StartShare(first: bool) returns (ok: bool, b: ProgramBuilder, q: seq<nat>)
    ensures fresh(b) && |q| == VALUE_BITS && ok == ShareDraft(first).Some?
    ensures ok ==> (b.State(), q) == ShareDraft(first).value
  {
    hide XorDraft;
    q := FreshNat(0, VALUE_BITS);
    ok, b := Start(ChunkInputs(first));
    if ok && first {
      ok, q := XorWires(b, FreshNat(0, VALUE_BITS), FreshNat(VALUE_BITS, VALUE_BITS));
      if !ok {
        q := FreshNat(0, VALUE_BITS);
      }
    }
  }

  method CheckIndices(bits: seq<nat>) returns (ok: bool)
    ensures ok == Indices(bits)
  {
    for i := 0 to |bits|
      invariant Indices(bits[..i])
    {
      if bits[i] >= INDEX_BITS {
        return false;
      }
    }
    ok := true;
  }

  /** Ag2pcProgram::chunk_from_sha */
  method ChunkFromSha(sha: Circuit, bits: seq<nat>, first: bool) returns (r: Compiled)
    requires sha.InRange()
    ensures !GadgetShape(sha) || !Indices(bits) ==> r == Rejected
    ensures GadgetShape(sha) && Indices(bits) ==>
      r == var p := ChunkDraft(sha, bits, first); if p.Some? then Compiled(p.value) else Rejected
  {
    if sha.n1 + sha.n2 != 512 || sha.n3 != VALUE_BITS {
      return Rejected;
    }
    var inRange := CheckIndices(bits);
    if !inRange {
      return Rejected;
    }
    hide ShareDraft, ChainDraft, XorDraft, Push;
    var n := ChunkInputs(first);
    var ok, b, q := StartShare(first);
    if !ok {
      return Rejected;
    }
    ok, q := HashSteps(b, sha, q, bits, n, n + 1);
    if !ok {
      return Rejected;
    }
    ok, q := XorWires(b, q, RepeatNat(n, VALUE_BITS));
    if !ok {
      return Rejected;
    }
    var p := Finished(b.State(), VALUE_BITS);
    return if p.Some? then Compiled(p.value) else Rejected;
  }

  // ---- the draft tracks the net ----

  ghost predicate Tracks(n: nat, b: Net, d: Draft) {
    Sound(n, b) && d.inputs == n && Mirrors(n, b.gates, d.gates)
  }

  lemma TracksGate(n: nat, b: Net, d: Draft, typ: GateType, x: int, y: int, dx: nat, dy: nat)
    requires Tracks(n, b, d) && KnownWire(n, b, x) && (typ != INV ==> KnownWire(n, b, y)) && n + |b.gates| < WIRE_LIMIT
    requires dx == IndexOf(n, b.gates, x) && dy == if typ == INV then 0 else IndexOf(n, b.gates, y)
    ensures var c := Net(b.next + 1, b.gates + [CGate(typ, x, y, b.next)]); var r := Push(d, Gate(typ, dx, dy));
      && Extends(b, c) && KnownWire(n, c, b.next) && r.Some? && Tracks(n, c, r.value)
      && IndexOf(n, c.gates, b.next) == d.NextWire() == n + |b.gates|
  {
    hide IndexOf, Sound;
    var g := CGate(typ, x, y, b.next);
    var c := Net(b.next + 1, b.gates + [g]);
    GateSound(n, b, typ, x, y);
    SoundOrdered(n, c);
    IndexOfMeans(n, b.gates, g);
    MirrorPush(n, b.gates, g, d.gates, Gate(typ, dx, dy));
  }

  lemma SoundOrdered(n: nat, b: Net)
    requires Sound(n, b)
    ensures Ordered(n, b.gates)
  {
  }

  lemma TracksStep(n: nat, b: Net, d: Draft, sha: Circuit, p: seq<int>, q: seq<nat>, bit: nat, c0: int, c1: int, k0: nat, k1: nat)
    requires IsGadget(sha) && Ready(n, b, p, c0, c1) && Tracks(n, b, d) && bit < VALUE_BITS
    requires SameWires(n, b.gates, p, q) && SameWires(n, b.gates, [c0, c1], [k0, k1])
    requires n + |StepNet(b, sha, p, bit, c0, c1).gates| <= WIRE_LIMIT
    ensures var r, c := StepDraft(d, sha, q, bit, k0, k1), StepNet(b, sha, p, bit, c0, c1);
      && r.Some? && Tracks(n, c, r.value.0) && SameWires(n, c.gates, StepOut(b, sha, p, bit, c0, c1), r.value.1)
      && SameWires(n, c.gates, [c0, c1], [k0, k1])
  {
    hide Sound, Mirrors, KnownWire, Circuit.WellFormed, Embed, EmbedOut, EmbedDraft, IndexOf, Padding;
    GadgetInRange(sha);
    var x, idx := p[MsbIndex(bit)], MsbIndex(bit);
    assert KnownWire(n, b, x);
    EmbedExtends(InvGate(b, x), sha, FlippedWires(b, p, bit) + PadWires(c0, c1));
    TracksGate(n, b, d, INV, x, -1, q[idx], 0);
    var b1, d1 := InvGate(b, x), Push(d, Gate(INV, q[idx], 0)).value;
    assert Known(n, b, [c0, c1]);
    SoundOrdered(n, b1);
    SameWiresKept(n, b, b1, p, q);
    SameWiresKept(n, b, b1, [c0, c1], [k0, k1]);
    KnownStays(n, b, b1, p);
    KnownStays(n, b, b1, [c0, c1]);
    assert KnownWire(n, b1, [c0, c1][0]) && KnownWire(n, b1, [c0, c1][1]);
    var ins, dins := FlippedWires(b, p, bit) + PadWires(c0, c1), q[idx := d.NextWire()] + PadWires(k0, k1);
    assert Known(n, b1, ins);
    assert SameWires(n, b1.gates, FlippedWires(b, p, bit), q[idx := d.NextWire()]);
    PaddedSame(n, b1, FlippedWires(b, p, bit), q[idx := d.NextWire()], c0, c1, k0, k1);
    EmbedMirrors(n, b1, sha, ins, d1, dins);
    EmbedSound(n, b1, sha, ins);
    SoundOrdered(n, Embed(b1, sha, ins));
    SameWiresKept(n, b1, Embed(b1, sha, ins), [c0, c1], [k0, k1]);
  }

  lemma PaddedSame(n: nat, b: Net, p: seq<int>, q: seq<nat>, c0: int, c1: int, k0: nat, k1: nat)
    requires |p| == VALUE_BITS && SameWires(n, b.gates, p, q) && SameWires(n, b.gates, [c0, c1], [k0, k1])
    ensures SameWires(n, b.gates, p + PadWires(c0, c1), q + PadWires(k0, k1))
  {
    hide Padding, IndexOf;
    assert k0 == IndexOf(n, b.gates, [c0, c1][0]) && k1 == IndexOf(n, b.gates, [c0, c1][1]);
  }

  lemma {:induction false} TracksChain(n: nat, b: Net, d: Draft, sha: Circuit, p: seq<int>, q: seq<nat>, bits: seq<nat>,
                                       c0: int, c1: int, k0: nat, k1: nat)
    requires IsGadget(sha) && Ready(n, b, p, c0, c1) && Tracks(n, b, d) && Indices(bits)
    requires SameWires(n, b.gates, p, q) && SameWires(n, b.gates, [c0, c1], [k0, k1])
    requires n + |ChainNet(b, sha, p, bits, c0, c1).0.gates| <= WIRE_LIMIT
    ensures var r, c := ChainDraft(d, sha, q, bits, k0, k1), ChainNet(b, sha, p, bits, c0, c1);
      && r.Some? && Tracks(n, c.0, r.value.0) && SameWires(n, c.0.gates, c.1, r.value.1)
      && SameWires(n, c.0.gates, [c0, c1], [k0, k1])
  {
    if bits != [] {
      hide Ready, IsGadget, StepNet, StepOut, StepDraft, Tracks, SameWires;
      GadgetInRange(sha);
      var m := |bits| - 1;
      var (c, p') := ChainNet(b, sha, p, bits[..m], c0, c1);
      ChainReady(n, b, sha, p, bits[..m], c0, c1);
      StepReady(n, c, sha, p', bits[m], c0, c1);
      SameLength(n, b, p, q);
      TracksChain(n, b, d, sha, p, q, bits[..m], c0, c1, k0, k1);
      var r := ChainDraft(d, sha, q, bits[..m], k0, k1).value;
      TracksStep(n, c, r.0, sha, p', r.1, bits[m], c0, c1, k0, k1);
    }
  }

  lemma SameLength(n: nat, b: Net, p: seq<int>, q: seq<nat>)
    requires SameWires(n, b.gates, p, q)
    ensures |p| == |q|
  {
  }

  lemma {:induction false} TracksXor(n: nat, b: Net, d: Draft, xs: seq<int>, ys: seq<int>, dx: seq<nat>, dy: seq<nat>)
    requires Tracks(n, b, d) && |xs| == |ys| && Known(n, b, xs) && Known(n, b, ys)
    requires SameWires(n, b.gates, xs, dx) && SameWires(n, b.gates, ys, dy)
    requires n + |b.gates| + |xs| <= WIRE_LIMIT
    ensures var r, c := XorDraft(d, dx, dy), XorAll(b, xs, ys);
      && r.Some? && Tracks(n, c, r.value) && |c.gates| == |b.gates| + |xs| && Extends(b, c)
      && SameWires(n, c.gates, Fresh(b.next, |xs|), FreshNat(d.NextWire(), |xs|))
  {
    if xs == [] {
      assert Fresh(b.next, 0) == [] && FreshNat(d.NextWire(), 0) == [];
    } else {
      hide Tracks, KnownWire, IndexOf, Sound, Push;
      var m := |xs| - 1;
      TracksXor(n, b, d, xs[..m], ys[..m], dx[..m], dy[..m]);
      TracksSound(n, b, d);
      XorAllSound(n, b, xs[..m], ys[..m]);
      var c, r := XorAll(b, xs[..m], ys[..m]), XorDraft(d, dx[..m], dy[..m]).value;
      XorOne(n, b, c, d, r, xs, ys, dx, dy, m);
    }
  }

  /** One more XOR gate, on wires known from before. */
  lemma XorOne(n: nat, b: Net, c: Net, d: Draft, r: Draft, xs: seq<int>, ys: seq<int>, dx: seq<nat>, dy: seq<nat>, m: nat)
    requires Sound(n, b) && Tracks(n, c, r) && Extends(b, c) && m < |xs| == |ys|
    requires Known(n, b, xs) && Known(n, b, ys) && SameWires(n, b.gates, xs, dx) && SameWires(n, b.gates, ys, dy)
    requires c.next == b.next + m && r.NextWire() == d.NextWire() + m && n + |c.gates| < WIRE_LIMIT
    requires Known(n, c, Fresh(b.next, m)) && SameWires(n, c.gates, Fresh(b.next, m), FreshNat(d.NextWire(), m))
    ensures var e, s := XorGate(c, xs[m], ys[m]), Push(r, Gate(XOR, dx[m], dy[m]));
      && s.Some? && Tracks(n, e, s.value) && Extends(b, e)
      && SameWires(n, e.gates, Fresh(b.next, m + 1), FreshNat(d.NextWire(), m + 1))
  {
    hide Tracks, KnownWire, IndexOf, Sound;
    TracksSound(n, c, r);
    KnownStays(n, b, c, xs);
    KnownStays(n, b, c, ys);
    SameWiresKept(n, b, c, xs, dx);
    SameWiresKept(n, b, c, ys, dy);
    assert KnownWire(n, c, xs[m]) && KnownWire(n, c, ys[m]);
    TracksGate(n, c, r, XOR, xs[m], ys[m], dx[m], dy[m]);
    var e, s := XorGate(c, xs[m], ys[m]), Push(r, Gate(XOR, dx[m], dy[m])).value;
    TracksSound(n, e, s);
    SameWiresKept(n, c, e, Fresh(b.next, m), FreshNat(d.NextWire(), m));
    assert Fresh(b.next, m + 1) == Fresh(b.next, m) + [c.next];
    assert FreshNat(d.NextWire(), m + 1) == FreshNat(d.NextWire(), m) + [r.NextWire()];
  }

  lemma TracksSound(n: nat, b: Net, d: Draft)
    requires Tracks(n, b, d)
    ensures Sound(n, b) && Ordered(n, b.gates) && d.inputs == n && |d.gates| == |b.gates|
  {
  }

  lemma TracksStart(n: nat)
    requires 0 < n <= 2 * VALUE_BITS
    ensures StartDraft(n).Some? && Tracks(n, Started(n), StartDraft(n).value) && StartDraft(n).value.NextWire() == n + 2
    ensures SameWires(n, Started(n).gates, [n, n + 1], [n, n + 1])
    ensures |Started(n).gates| == 2 && Started(n).next == n + 2
  {
    hide KnownWire;
    var b0, d0 := Net(n, []), Draft(n, []);
    InputKnown(n, b0, 0);
    TracksGate(n, b0, d0, XOR, 0, 0, 0, 0);
    var b1, d1 := XorGate(b0, 0, 0), Push(d0, Gate(XOR, 0, 0)).value;
    TracksGate(n, b1, d1, INV, n, -1, n, 0);
    SoundOrdered(n, Started(n));
    KnownOne(n, b1, n);
    SameWiresKept(n, b1, Started(n), [n], [n]);
  }

  lemma InputKnown(n: nat, b: Net, wire: nat)
    requires wire < n <= b.next
    ensures KnownWire(n, b, wire)
  {
  }

  lemma KnownOne(n: nat, b: Net, wire: int)
    requires KnownWire(n, b, wire)
    ensures Known(n, b, [wire])
  {
  }

  lemma InputsSame(n: nat, b: Net, from: nat, count: nat)
    requires Sound(n, b) && from + count <= n
    ensures SameWires(n, b.gates, Fresh(from, count), FreshNat(from, count)) && Known(n, b, Fresh(from, count))
  {
    forall i | 0 <= i < count
      ensures FreshNat(from, count)[i] == IndexOf(n, b.gates, Fresh(from, count)[i])
    {
      IndexKept(n, [], b.gates, 0, Fresh(from, count)[i]);
    }
  }

  lemma TracksShare(first: bool)
    ensures var n := ChunkInputs(first); var s, (b, p) := ShareDraft(first), ShareNet(first);
      && s.Some? && Tracks(n, b, s.value.0) && SameWires(n, b.gates, p, s.value.1)
      && SameWires(n, b.gates, [n, n + 1], [n, n + 1])
  {
    hide Tracks, SameWires, Started, StartDraft, XorAll, XorDraft;
    var n := ChunkInputs(first);
    TracksStart(n);
    StartedSound(n);
    var b, d := Started(n), StartDraft(n).value;
    InputsSame(n, b, 0, VALUE_BITS);
    if first {
      InputsSame(n, b, VALUE_BITS, VALUE_BITS);
      TracksXor(n, b, d, Fresh(0, VALUE_BITS), Fresh(VALUE_BITS, VALUE_BITS), FreshNat(0, VALUE_BITS), FreshNat(VALUE_BITS, VALUE_BITS));
      var c := XorAll(b, Fresh(0, VALUE_BITS), Fresh(VALUE_BITS, VALUE_BITS));
      XorAllSound(n, b, Fresh(0, VALUE_BITS), Fresh(VALUE_BITS, VALUE_BITS));
      SoundOrdered(n, c);
      assert Known(n, b, [n, n + 1]);
      SameWiresKept(n, b, c, [n, n + 1], [n, n + 1]);
    }
  }

  // ---- the direct program is the compiled circuit ----

  function Heads(gates: seq<CGate>): set<int> {
    set i | 0 <= i < |gates| :: gates[i].out
  }

  lemma {:induction false} HeadsCount(n: nat, gates: seq<CGate>)
    requires Ordered(n, gates)
    ensures |Heads(gates)| == |gates|
  {
    if gates != [] {
      var m := |gates| - 1;
      OrderedPrefix(n, gates[..m], gates);
      HeadsCount(n, gates[..m]);
      assert gates == gates[..m] + [gates[m]];
      assert Heads(gates) == Heads(gates[..m]) + {gates[m].out};
    }
  }

  function Range(lo: nat, hi: nat): (r: set<int>)
    requires lo <= hi
    ensures forall w :: w in r <==> lo <= w < hi
    ensures |r| == hi - lo
    decreases hi - lo
  {
    if lo == hi then {} else Range(lo, hi - 1) + {hi - 1}
  }

  /** Every gate writes a wire of its own, so a sound net has no more gates than fresh wires. */
  lemma GatesFit(n: nat, b: Net)
    requires Sound(n, b)
    ensures n + |b.gates| <= b.next
  {
    HeadsCount(n, b.gates);
    var wires := Range(n, b.next);
    forall w | w in Heads(b.gates)
      ensures w in wires
    {
      var i :| 0 <= i < |b.gates| && b.gates[i].out == w;
      assert GateInRange(b.gates[i], b.next);
    }
    assert Heads(b.gates) + (wires - Heads(b.gates)) == wires;
  }

  lemma MirroredGates(c: Circuit, draft: seq<Gate>)
    requires c.WellFormed() && HeaderFits(c) && Mirrors(c.n1 + c.n2, c.gates, draft)
    ensures Resolvable(c) && draft == NewGates(c)
  {
    hide NewIndex;
    WellFormedResolves(c);
    forall i | 0 <= i < |c.gates|
      ensures draft[i] == NewGates(c)[i]
    {
      assert MirrorsAt(c.n1 + c.n2, c.gates, draft, i);
    }
  }

  lemma MirroredProgram(c: Circuit, d: Draft, outputs: seq<nat>)
    requires c.WellFormed() && HeaderFits(c) && d.inputs == c.n1 + c.n2 && Mirrors(d.inputs, c.gates, d.gates)
    requires SameWires(d.inputs, c.gates, Fresh(c.numWire - c.n3, c.n3), outputs)
    ensures Resolvable(c) && Renumbered(c) == Program(d.inputs, d.NextWire(), outputs, d.gates)
  {
    MirroredGates(c, d.gates);
    hide NewIndex;
    forall j | 0 <= j < c.n3
      ensures outputs[j] == NewOutput(c, j)
    {
      assert outputs[j] == IndexOf(d.inputs, c.gates, Fresh(c.numWire - c.n3, c.n3)[j]);
    }
    assert outputs == NewOutputs(c);
  }

  /** For every well-formed gadget and every run of bits, chunk_from_sha yields, gate for gate, what
  from_circuit makes of the built chunk circuit. */
  lemma ChunkFromShaIsCompiled(sha: Circuit, bits: seq<nat>, first: bool)
    requires IsGadget(sha) && Indices(bits) && HeaderFits(ChunkCircuit(sha, bits, first))
    ensures Accepted(ChunkCircuit(sha, bits, first))
    ensures ChunkDraft(sha, bits, first) == Some(CompiledProgram(ChunkCircuit(sha, bits, first)))
  {
    hide Tracks, SameWires, ChainNet, ChainDraft, XorAll, XorDraft, ShareNet, ShareDraft, IsGadget, HeaderFits, Ready, Sound, Mirrors, Known, Resolvable, Renumbered, Accepted, CompiledProgram;
    GadgetInRange(sha);
    ChunkSound(sha, bits, first);
    var n, circuit := ChunkInputs(first), ChunkCircuit(sha, bits, first);
    var (b, p) := ShareNet(first);
    ShareReady(first);
    TracksShare(first);
    var s := ShareDraft(first).value;
    ChainReady(n, b, sha, p, bits, n, n + 1);
    var (c, q) := ChainNet(b, sha, p, bits, n, n + 1);
    ReadyParts(n, c, q, n, n + 1);
    GatesFit(n, c);
    var zeros := Repeat(n, VALUE_BITS);
    NextFits(circuit);
    TracksChain(n, b, s.0, sha, p, s.1, bits, n, n + 1, n, n + 1);
    var r := ChainDraft(s.0, sha, s.1, bits, n, n + 1).value;
    assert SameWires(n, c.gates, zeros, RepeatNat(n, VALUE_BITS)) by { RepeatSame(n, c, n, n + 1, VALUE_BITS); }
    RepeatKnown(n, c, n, VALUE_BITS);
    TracksXor(n, c, r.0, q, zeros, r.1, RepeatNat(n, VALUE_BITS));
    var e, x := XorAll(c, q, zeros), XorDraft(r.0, r.1, RepeatNat(n, VALUE_BITS)).value;
    TracksMirrors(n, e, x);
    MirroredProgram(circuit, x, FreshNat(r.0.NextWire(), VALUE_BITS));
    SameCompiled(circuit);
  }

  lemma NextFits(c: Circuit)
    requires HeaderFits(c)
    ensures c.numWire < WIRE_LIMIT
  {
  }

  lemma ReadyParts(n: nat, b: Net, p: seq<int>, c0: int, c1: int)
    requires Ready(n, b, p, c0, c1)
    ensures Sound(n, b) && Known(n, b, p) && KnownWire(n, b, c0) && KnownWire(n, b, c1) && |p| == VALUE_BITS
  {
  }

  lemma RepeatSame(n: nat, b: Net, k: nat, k1: nat, count: nat)
    requires SameWires(n, b.gates, [k, k1], [k, k1])
    ensures SameWires(n, b.gates, Repeat(k, count), RepeatNat(k, count))
  {
    assert [k, k1][0] == IndexOf(n, b.gates, [k, k1][0]);
  }

  lemma TracksMirrors(n: nat, b: Net, d: Draft)
    requires Tracks(n, b, d)
    ensures d.inputs == n && Mirrors(n, b.gates, d.gates) && d.NextWire() == n + |b.gates|
  {
  }

  lemma SameCompiled(c: Circuit)
    requires c.WellFormed() && HeaderFits(c)
    ensures Accepted(c) && Resolvable(c) && CompiledProgram(c) == Renumbered(c)
  {
    WellFormedResolves(c);
    if InOrder(c) {
      FastPathAgrees(c);
    }
  }
}

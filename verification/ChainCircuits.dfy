/** Circuits for a run of hash steps: the gadget's hash, one step, a chunk, the whole derivation. */
module ChainCircuits {
  import opened Blocks
  import opened Masks
  import opened Shachain
  import opened Circuits
  import opened CircuitBuilder

  const BLOCK_WIRES: nat := 512

  // ---- bit order and padding ----

  /** msb_bit_index of bit `bit % 8` of byte `bit / 8`: also flip_bit_index. */
  function MsbIndex(bit: nat): (i: nat)
    ensures i / 8 == bit / 8 && i % 8 == 7 - bit % 8
  {
    8 * (bit / 8) + (7 - bit % 8)
  }

  /** A value on circuit wires: each byte most significant bit first. The map is its own inverse. */
  function MsbFirst(v: Value): Value {
    seq(VALUE_BITS, i requires 0 <= i < VALUE_BITS => v[MsbIndex(i)])
  }

  lemma MsbIndexTwice(bit: nat)
    ensures MsbIndex(MsbIndex(bit)) == bit
  {
  }

  lemma MsbFirstTwice(v: Value)
    ensures MsbFirst(MsbFirst(v)) == v
  {
    forall i | 0 <= i < VALUE_BITS
      ensures MsbFirst(MsbFirst(v))[i] == v[i]
    {
      MsbIndexTwice(i);
    }
  }

  /** Flipping a bit of a value inverts the wire at its flip_bit_index. */
  lemma MsbFirstFlip(v: Value, bit: nat)
    requires bit < VALUE_BITS
    ensures MsbFirst(Flip(v, bit)) == MsbFirst(v)[MsbIndex(bit) := !MsbFirst(v)[MsbIndex(bit)]]
  {
    hide MsbFirst, MsbIndex, Flip;
    var wires, at := MsbFirst(v), MsbIndex(bit);
    assert at < VALUE_BITS by {
      MsbIndexTwice(bit);
    }
    var l, r := MsbFirst(Flip(v, bit)), wires[at := !wires[at]];
    forall i | 0 <= i < VALUE_BITS
      ensures l[i] == r[i]
    {
      MsbIndexTwice(bit);
      MsbIndexTwice(i);
      MsbFirstAt(v, i);
      MsbFirstAt(Flip(v, bit), i);
      FlipAt(v, bit, MsbIndex(i));
    }
  }

  lemma MsbFirstAt(v: Value, i: nat)
    requires i < VALUE_BITS
    ensures MsbIndex(i) < VALUE_BITS && MsbFirst(v)[i] == v[MsbIndex(i)]
  {
  }

  lemma FlipAt(v: Value, bit: nat, i: nat)
    requires bit < VALUE_BITS && i < VALUE_BITS
    ensures Flip(v, bit)[i] == (v[i] != (i == bit))
  {
  }

  /** Bit `k` (counted from the top) of the `width`-bit number `n`. */
  predicate BigEndianBit(n: nat, width: nat, k: nat)
    requires k < width
  {
    Bit(n, width - 1 - k)
  }

  /** What SHA-256 appends to a 256-bit message (section 5.1.1 of FIPS 180-4):
  a one, zeros, and the message length as a 64-bit number. */
  function Padding(): (pad: seq<bool>)
    ensures |pad| == VALUE_BITS
  {
    [true] + NoBits(191) + seq(64, k requires 0 <= k < 64 => BigEndianBit(VALUE_BITS, 64, k))
  }

  lemma {:induction false} ZeroBits(k: nat)
    ensures !Bit(0, k)
  {
    if k > 0 {
      ZeroBits(k - 1);
    }
  }

  lemma {:induction false} PowerBit(j: nat, k: nat)
    ensures Bit(Pow2(j), k) == (j == k)
  {
    if j == 0 {
      if k > 0 {
        ZeroBits(k - 1);
      }
    } else if k > 0 {
      PowerBit(j - 1, k - 1);
    }
  }

  lemma PadPowers()
    ensures Pow2(8) == 256 && Pow2(7) == 0x80 && Pow2(0) == 1
  {
  }

  /** The padding bytes of padding_bits. */
  function PadByte(j: nat): nat {
    if j == 0 then 0x80 else if j == 30 then 0x01 else 0
  }

  lemma PadByteBit(j: nat, k: nat)
    requires j < 32 && k < 8
    ensures Bit(PadByte(j), 7 - k) == Padding()[8 * j + k]
  {
    hide Bit;
    PadPowers();
    ZeroBits(7 - k);
    PowerBit(8, 255 - (8 * j + k));
    PowerBit(7, 7 - k);
    PowerBit(0, 7 - k);
  }

  /** padding_bits */
  method PaddingBits() returns (bits: seq<bool>)
    ensures bits == Padding()
  {
    bits := [];
    for j := 0 to 32
      invariant bits == Padding()[..8 * j]
    {
      for k := 0 to 8
        invariant bits == Padding()[..8 * j + k]
      {
        PadByteBit(j, k);
        bits := bits + [Bit(PadByte(j), 7 - k)];
      }
    }
  }

  // ---- the gadget's hash ----

  predicate GadgetShape(sha: Circuit) {
    sha.n1 + sha.n2 == BLOCK_WIRES && sha.n3 == VALUE_BITS
  }

  ghost predicate IsGadget(sha: Circuit) {
    sha.WellFormed() && GadgetShape(sha)
  }

  lemma GadgetInRange(sha: Circuit)
    requires IsGadget(sha)
    ensures sha.InRange() && GadgetShape(sha)
  {
  }

  /** One compression of the padded value. */
  function HashBits(sha: Circuit, bits: seq<bool>): (r: seq<bool>)
    requires sha.InRange() && GadgetShape(sha) && |bits| == VALUE_BITS
    ensures |r| == VALUE_BITS
  {
    Circuits.Eval(sha, bits + Padding())
  }

  function GadgetHash(sha: Circuit): (Value -> Value)
    requires sha.InRange() && GadgetShape(sha)
  {
    v => MsbFirst(HashBits(sha, MsbFirst(v)))
  }

  // ---- one hash step on wires ----

  /** A net with a value on wires `p` and the constants zero and one on `c0` and `c1`. */
  ghost predicate Ready(n: nat, b: Net, p: seq<int>, c0: int, c1: int) {
    Sound(n, b) && |p| == VALUE_BITS && Known(n, b, p) && KnownWire(n, b, c0) && KnownWire(n, b, c1)
  }

  function PadWires<T>(c0: T, c1: T): (wires: seq<T>)
    ensures |wires| == VALUE_BITS && forall i :: 0 <= i < VALUE_BITS ==> wires[i] == if Padding()[i] then c1 else c0
  {
    seq(VALUE_BITS, i requires 0 <= i < VALUE_BITS => if Padding()[i] then c1 else c0)
  }

  function FlippedWires(b: Net, p: seq<int>, bit: nat): (q: seq<int>)
    requires |p| == VALUE_BITS && bit < VALUE_BITS
    ensures |q| == VALUE_BITS
  {
    p[MsbIndex(bit) := b.next]
  }

  function StepNet(b: Net, sha: Circuit, p: seq<int>, bit: nat, c0: int, c1: int): Net
    requires sha.InRange() && GadgetShape(sha) && |p| == VALUE_BITS && bit < VALUE_BITS
  {
    Embed(InvGate(b, p[MsbIndex(bit)]), sha, FlippedWires(b, p, bit) + PadWires(c0, c1))
  }

  function StepOut(b: Net, sha: Circuit, p: seq<int>, bit: nat, c0: int, c1: int): (out: seq<int>)
    requires sha.InRange() && GadgetShape(sha) && |p| == VALUE_BITS && bit < VALUE_BITS
    ensures |out| == VALUE_BITS
  {
    EmbedOut(InvGate(b, p[MsbIndex(bit)]), sha, FlippedWires(b, p, bit) + PadWires(c0, c1))
  }

  /** The value on wires `p` in an assignment. */
  function ValueOn(w: Assignment, p: seq<int>): Value
    requires |p| == VALUE_BITS
  {
    MsbFirst(Read(w, p))
  }

  lemma StepReady(n: nat, b: Net, sha: Circuit, p: seq<int>, bit: nat, c0: int, c1: int)
    requires IsGadget(sha) && Ready(n, b, p, c0, c1) && bit < VALUE_BITS
    ensures Ready(n, StepNet(b, sha, p, bit, c0, c1), StepOut(b, sha, p, bit, c0, c1), c0, c1)
    ensures Extends(b, StepNet(b, sha, p, bit, c0, c1))
  {
    hide Sound, KnownWire, Embed, EmbedOut, Circuit.WellFormed;
    GadgetInRange(sha);
    var x := p[MsbIndex(bit)];
    var b1 := InvGate(b, x);
    assert KnownWire(n, b, x);
    InvSound(n, b, x);
    KnownStays(n, b, b1, p);
    KnownStays(n, b, b1, [c0, c1]);
    assert KnownWire(n, b1, [c0, c1][0]) && KnownWire(n, b1, [c0, c1][1]);
    var inputs := FlippedWires(b, p, bit) + PadWires(c0, c1);
    assert Known(n, b1, inputs);
    EmbedSound(n, b1, sha, inputs);
    KnownStays(n, b1, Embed(b1, sha, inputs), [c0, c1]);
    var c := Embed(b1, sha, inputs);
    assert KnownWire(n, c, [c0, c1][0]) && KnownWire(n, c, [c0, c1][1]);
  }

  /** One step on wires is one step of the chain: flip the bit, hash. */
  lemma StepComputes(n: nat, b: Net, sha: Circuit, p: seq<int>, bit: nat, c0: int, c1: int, w: Assignment)
    requires IsGadget(sha) && Ready(n, b, p, c0, c1) && bit < VALUE_BITS
    requires Solves(StepNet(b, sha, p, bit, c0, c1).gates, w) && !w(c0) && w(c1)
    ensures ValueOn(w, StepOut(b, sha, p, bit, c0, c1)) == GadgetHash(sha)(Flip(ValueOn(w, p), bit))
  {
    hide Sound, KnownWire, Embed, EmbedOut, Circuit.WellFormed, Padding, MsbFirst;
    GadgetInRange(sha);
    var x := p[MsbIndex(bit)];
    var b1 := InvGate(b, x);
    var inputs := FlippedWires(b, p, bit) + PadWires(c0, c1);
    EmbeddedComputes(n, b1, sha, inputs, w);
    EmbedExtends(b1, sha, inputs);
    SolvesPrefix(b1, Embed(b1, sha, inputs), w);
    assert KnownWire(n, b, x);
    InvSound(n, b, x);
    MsbFirstFlip(ValueOn(w, p), bit);
    MsbFirstTwice(Read(w, p));
    var flipped := Read(w, p)[MsbIndex(bit) := !Read(w, p)[MsbIndex(bit)]];
    assert Read(w, FlippedWires(b, p, bit)) == flipped;
    assert Read(w, PadWires(c0, c1)) == Padding();
    assert Read(w, inputs) == flipped + Padding();
  }

  // ---- a run of steps ----

  /** The net after the steps for `bits`, and the wires the value ends on. */
  function ChainNet(b: Net, sha: Circuit, p: seq<int>, bits: seq<nat>, c0: int, c1: int): (r: (Net, seq<int>))
    requires sha.InRange() && GadgetShape(sha) && |p| == VALUE_BITS && Indices(bits)
    ensures |r.1| == VALUE_BITS
  {
    if bits == [] then (b, p)
    else
      var m := |bits| - 1;
      var (c, q) := ChainNet(b, sha, p, bits[..m], c0, c1);
      (StepNet(c, sha, q, bits[m], c0, c1), StepOut(c, sha, q, bits[m], c0, c1))
  }

  lemma {:induction false} ChainReady(n: nat, b: Net, sha: Circuit, p: seq<int>, bits: seq<nat>, c0: int, c1: int)
    requires IsGadget(sha) && Ready(n, b, p, c0, c1) && Indices(bits)
    ensures var r := ChainNet(b, sha, p, bits, c0, c1); Ready(n, r.0, r.1, c0, c1) && Extends(b, r.0)
  {
    if bits != [] {
      hide Ready, IsGadget, StepNet, StepOut;
      var m := |bits| - 1;
      ChainReady(n, b, sha, p, bits[..m], c0, c1);
      var (c, q) := ChainNet(b, sha, p, bits[..m], c0, c1);
      GadgetInRange(sha);
      StepReady(n, c, sha, q, bits[m], c0, c1);
    }
  }

  /** A run of steps on wires is the plain chain. */
  lemma {:induction false} ChainComputes(n: nat, b: Net, sha: Circuit, p: seq<int>, bits: seq<nat>, c0: int, c1: int,
                                         w: Assignment)
    requires IsGadget(sha) && Ready(n, b, p, c0, c1) && Indices(bits)
    requires Solves(ChainNet(b, sha, p, bits, c0, c1).0.gates, w) && !w(c0) && w(c1)
    ensures ValueOn(w, ChainNet(b, sha, p, bits, c0, c1).1) == Chain(GadgetHash(sha), ValueOn(w, p), bits)
  {
    if bits != [] {
      hide Ready, IsGadget, StepNet, StepOut, GadgetHash, Solves, ValueOn, Flip;
      var m := |bits| - 1;
      GadgetInRange(sha);
      var (c, q) := ChainNet(b, sha, p, bits[..m], c0, c1);
      ChainReady(n, b, sha, p, bits[..m], c0, c1);
      StepReady(n, c, sha, q, bits[m], c0, c1);
      SolvesPrefix(c, StepNet(c, sha, q, bits[m], c0, c1), w);
      ChainComputes(n, b, sha, p, bits[..m], c0, c1, w);
      StepComputes(n, c, sha, q, bits[m], c0, c1, w);
    }
  }

  // ---- whole circuits ----

  /** The net with its two constant wires: zero on wire `n`, one on wire `n + 1`. */
  function Started(n: nat): Net {
    InvGate(XorGate(Net(n, []), 0, 0), n)
  }

  /** One XOR gate per pair of wires, onto fresh wires in order. */
  function XorAll(b: Net, xs: seq<int>, ys: seq<int>): (c: Net)
    requires |xs| == |ys|
    ensures c.next == b.next + |xs|
  {
    if xs == [] then b
    else
      var m := |xs| - 1;
      XorGate(XorAll(b, xs[..m], ys[..m]), xs[m], ys[m])
  }

  function Repeat(wire: int, n: nat): (s: seq<int>)
    ensures |s| == n && forall i :: 0 <= i < n ==> s[i] == wire
  {
    seq(n, _ => wire)
  }

  lemma StartedSound(n: nat)
    requires n > 0
    ensures Sound(n, Started(n)) && KnownWire(n, Started(n), n) && KnownWire(n, Started(n), n + 1)
    ensures forall w :: Solves(Started(n).gates, w) ==> !w(n) && w(n + 1)
  {
    var b0, b1 := Net(n, []), XorGate(Net(n, []), 0, 0);
    assert KnownWire(n, b0, 0);
    XorSound(n, b0, 0, 0);
    InvSound(n, b1, n);
    KnownStays(n, b1, Started(n), [n]);
    assert KnownWire(n, Started(n), [n][0]);
    forall w: Assignment | Solves(Started(n).gates, w)
      ensures !w(n) && w(n + 1)
    {
      SolvesPrefix(b1, Started(n), w);
    }
  }

  lemma {:induction false} XorAllSound(n: nat, b: Net, xs: seq<int>, ys: seq<int>)
    requires Sound(n, b) && |xs| == |ys| && Known(n, b, xs) && Known(n, b, ys)
    ensures var c := XorAll(b, xs, ys); Sound(n, c) && Extends(b, c) && Known(n, c, Fresh(b.next, |xs|))
  {
    if xs != [] {
      hide Sound, KnownWire;
      var m := |xs| - 1;
      XorAllSound(n, b, xs[..m], ys[..m]);
      var c := XorAll(b, xs[..m], ys[..m]);
      KnownStays(n, b, c, xs);
      KnownStays(n, b, c, ys);
      assert KnownWire(n, c, xs[m]) && KnownWire(n, c, ys[m]);
      XorSound(n, c, xs[m], ys[m]);
      KnownStays(n, c, XorGate(c, xs[m], ys[m]), Fresh(b.next, m));
      assert Fresh(b.next, |xs|) == Fresh(b.next, m) + [c.next];
    }
  }

  lemma RepeatKnown(n: nat, b: Net, wire: int, count: nat)
    requires KnownWire(n, b, wire)
    ensures Known(n, b, Repeat(wire, count))
  {
  }

  lemma {:induction false} XorAllComputes(n: nat, b: Net, xs: seq<int>, ys: seq<int>, w: Assignment)
    requires Sound(n, b) && |xs| == |ys| && Known(n, b, xs) && Known(n, b, ys)
    requires Solves(XorAll(b, xs, ys).gates, w)
    ensures forall i :: 0 <= i < |xs| ==> w(b.next + i) == (w(xs[i]) != w(ys[i]))
  {
    if xs != [] {
      hide Sound, KnownWire;
      var m := |xs| - 1;
      var c := XorAll(b, xs[..m], ys[..m]);
      XorAllSound(n, b, xs[..m], ys[..m]);
      KnownStays(n, b, c, xs);
      KnownStays(n, b, c, ys);
      assert KnownWire(n, c, xs[m]) && KnownWire(n, c, ys[m]);
      XorSound(n, c, xs[m], ys[m]);
      SolvesPrefix(c, XorGate(c, xs[m], ys[m]), w);
      XorAllComputes(n, b, xs[..m], ys[..m], w);
    }
  }

  function ChunkInputs(first: bool): nat {
    if first then 2 * VALUE_BITS else VALUE_BITS
  }

  /** The net after the optional combination of two shares, and the wires of the value. */
  function ShareNet(first: bool): (r: (Net, seq<int>))
    ensures |r.1| == VALUE_BITS
  {
    var b := Started(ChunkInputs(first));
    if first
    then (XorAll(b, Fresh(0, VALUE_BITS), Fresh(VALUE_BITS, VALUE_BITS)), Fresh(b.next, VALUE_BITS))
    else (b, Fresh(0, VALUE_BITS))
  }

  /** What build_chunk_circuit returns. */
  function ChunkCircuit(sha: Circuit, bits: seq<nat>, first: bool): Circuit
    requires sha.InRange() && GadgetShape(sha) && Indices(bits)
  {
    var n := ChunkInputs(first);
    var (b, p) := ShareNet(first);
    var (c, q) := ChainNet(b, sha, p, bits, n, n + 1);
    var d := XorAll(c, q, Repeat(n, VALUE_BITS));
    Circuit(d.next, VALUE_BITS, if first then VALUE_BITS else 0, VALUE_BITS, d.gates)
  }

  datatype Built = Built(circuit: Circuit) | BadGadgetShape | BadChainBit | BadIndex | BadTileHeight | BadBitWindow

  /** The loop that hashes down `bits`. */
  method ChainGates(b: Builder, sha: Circuit, start: seq<int>, bits: seq<nat>, c0: int, c1: int) returns (p: seq<int>)
    requires sha.InRange() && GadgetShape(sha) && Indices(bits) && |start| == VALUE_BITS
    modifies b
    ensures |p| == VALUE_BITS && (b.State(), p) == ChainNet(old(b.State()), sha, start, bits, c0, c1)
  {
    var pad := PaddingBits();
    var block2 := seq(VALUE_BITS, i requires 0 <= i < VALUE_BITS => if pad[i] then c1 else c0);
    assert block2 == PadWires(c0, c1);
    p := start;
    for i := 0 to |bits|
      invariant |p| == VALUE_BITS && (b.State(), p) == ChainNet(old(b.State()), sha, start, bits[..i], c0, c1)
    {
      hide Embed, EmbedOut, Padding;
      assert bits[..i + 1][..i] == bits[..i];
      var idx := MsbIndex(bits[i]);
      var inv := b.InvW(p[idx]);
      p := p[idx := inv];
      var r := b.ApplyGadget(sha, p + block2);
      p := r.wires;
    }
    assert bits[..|bits|] == bits;
  }

  /** The loop that copies wires to the end of the net, XOR-ed with the constant zero. */
  method XorGates(b: Builder, xs: seq<int>, ys: seq<int>) returns (p: seq<int>)
    requires |xs| == |ys|
    modifies b
    ensures b.State() == XorAll(old(b.State()), xs, ys) && p == Fresh(old(b.next), |xs|)
  {
    p := [];
    for i := 0 to |xs|
      invariant b.State() == XorAll(old(b.State()), xs[..i], ys[..i]) && p == Fresh(old(b.next), i)
    {
      var out := b.XorW(xs[i], ys[i]);
      assert xs[..i + 1][..i] == xs[..i] && ys[..i + 1][..i] == ys[..i];
      p := p + [out];
    }
    assert xs[..|xs|] == xs && ys[..|ys|] == ys;
  }

  /** The builder after the constants and, for a first chunk, the XOR of the two shares. */
  method StartChunk(first: bool) returns (b: Builder, c0: int, c1: int, p: seq<int>)
    ensures fresh(b) && (b.State(), p) == ShareNet(first) && c0 == ChunkInputs(first) && c1 == c0 + 1
  {
    b := new Builder(if first then 2 * VALUE_BITS else VALUE_BITS);
    c0 := b.XorW(0, 0);
    c1 := b.InvW(c0);
    if first {
      p := XorGates(b, Fresh(0, VALUE_BITS), Fresh(VALUE_BITS, VALUE_BITS));
    } else {
      p := Fresh(0, VALUE_BITS);
    }
  }

  /** build_chunk_circuit */
  method BuildChunkCircuit(sha: Circuit, bits: seq<nat>, first: bool) returns (r: Built)
    requires sha.InRange()
    ensures !GadgetShape(sha) ==> r == BadGadgetShape
    ensures GadgetShape(sha) && !Indices(bits) ==> r == BadChainBit
    ensures GadgetShape(sha) && Indices(bits) ==> r == Built(ChunkCircuit(sha, bits, first))
  {
    if sha.n1 + sha.n2 != 512 || sha.n3 != VALUE_BITS {
      return BadGadgetShape;
    }
    for i := 0 to |bits|
      invariant Indices(bits[..i])
    {
      if bits[i] >= INDEX_BITS {
        return BadChainBit;
      }
    }
    hide ChainNet, XorAll, ShareNet;
    var b, c0, c1, start := StartChunk(first);
    var p := ChainGates(b, sha, start, bits, c0, c1);
    p := XorGates(b, p, Repeat(c0, VALUE_BITS));
    var c := b.Finish(VALUE_BITS, if first then VALUE_BITS else 0, VALUE_BITS);
    return Built(c);
  }

  /** build_derivation_circuit */
  method BuildDerivationCircuit(sha: Circuit, index: nat) returns (r: Built)
    requires sha.InRange()
    ensures index > MAX_INDEX ==> r == BadIndex
    ensures index <= MAX_INDEX && !GadgetShape(sha) ==> r == BadGadgetShape
    ensures index <= MAX_INDEX && GadgetShape(sha) ==>
      Indices(SetBits(index)) && r == Built(ChunkCircuit(sha, SetBits(index), true))
  {
    if index > MAX_INDEX {
      return BadIndex;
    }
    if sha.n1 + sha.n2 != 512 || sha.n3 != VALUE_BITS {
      return BadGadgetShape;
    }
    hide ChainNet, XorAll, ShareNet, SetBits;
    IndexBits(index);
    var b, c0, c1, start := StartChunk(true);
    var p := IndexGates(b, sha, start, index, c0, c1);
    p := XorGates(b, p, Repeat(c0, VALUE_BITS));
    var c := b.Finish(VALUE_BITS, VALUE_BITS, VALUE_BITS);
    return Built(c);
  }

  /** The countdown over an index's bits. */
  method IndexGates(b: Builder, sha: Circuit, start: seq<int>, index: nat, c0: int, c1: int) returns (p: seq<int>)
    requires sha.InRange() && GadgetShape(sha) && index <= MAX_INDEX && |start| == VALUE_BITS
    modifies b
    ensures Indices(SetBits(index)) && |p| == VALUE_BITS
    ensures (b.State(), p) == ChainNet(old(b.State()), sha, start, SetBits(index), c0, c1)
  {
    hide ChainNet, SetBits, BitsBelow, Bit;
    p := start;
    ghost var done: seq<nat> := [];
    ghost var before := b.State();
    ChainNone(before, sha, start, c0, c1);
    assert [] + BitsBelow(index, INDEX_BITS) == BitsBelow(index, INDEX_BITS);
    for bit := INDEX_BITS downto 0
      invariant Passed(index, bit, done) && |p| == VALUE_BITS
      invariant (b.State(), p) == ChainNet(before, sha, start, done, c0, c1)
    {
      PassOne(index, bit, done);
      if Bit(index, bit) {
        ChainOne(before, sha, start, done, bit, c0, c1);
        p := ChainGates(b, sha, p, [bit], c0, c1);
        done := done + [bit];
      }
    }
    IndexBits(index);
    NothingBelow(index);
    assert done + [] == done;
  }

  lemma ChainNone(b: Net, sha: Circuit, p: seq<int>, c0: int, c1: int)
    requires sha.InRange() && GadgetShape(sha) && |p| == VALUE_BITS
    ensures ChainNet(b, sha, p, [], c0, c1) == (b, p)
  {
  }

  /** A run of steps and one more is the run, then a run of that one. */
  lemma ChainOne(b: Net, sha: Circuit, p: seq<int>, bits: seq<nat>, bit: nat, c0: int, c1: int)
    requires sha.InRange() && GadgetShape(sha) && |p| == VALUE_BITS && Indices(bits) && bit < INDEX_BITS
    ensures var r := ChainNet(b, sha, p, bits, c0, c1);
      Indices(bits + [bit]) && ChainNet(b, sha, p, bits + [bit], c0, c1) == ChainNet(r.0, sha, r.1, [bit], c0, c1)
  {
    hide StepNet, StepOut;
    assert (bits + [bit])[..|bits|] == bits;
    var r := ChainNet(b, sha, p, bits, c0, c1);
    assert [bit][..0] == [];
    ChainNone(r.0, sha, r.1, c0, c1);
  }

  // ---- the circuits compute the chain ----

  lemma ShareReady(first: bool)
    ensures var (b, p) := ShareNet(first); var n := ChunkInputs(first); Ready(n, b, p, n, n + 1)
    ensures Extends(Started(ChunkInputs(first)), ShareNet(first).0)
  {
    var n := ChunkInputs(first);
    StartedSound(n);
    var b := Started(n);
    assert forall i :: 0 <= i < n ==> KnownWire(n, b, i);
    if first {
      XorAllSound(n, b, Fresh(0, VALUE_BITS), Fresh(VALUE_BITS, VALUE_BITS));
      var c := ShareNet(first).0;
      KnownStays(n, b, c, [n, n + 1]);
      assert KnownWire(n, c, [n, n + 1][0]) && KnownWire(n, c, [n, n + 1][1]);
    }
  }

  function XorHalves(x: seq<bool>): Value
    requires |x| == 2 * VALUE_BITS
  {
    seq(VALUE_BITS, i requires 0 <= i < VALUE_BITS => x[i] != x[VALUE_BITS + i])
  }

  /** The chain's input: the XOR of the two shares in a first chunk, else the chunk's input. */
  function Combined(x: seq<bool>, first: bool): Value
    requires |x| == ChunkInputs(first)
  {
    if first then MsbFirst(XorHalves(x)) else MsbFirst(x)
  }

  lemma XorComputes(x: seq<bool>, w: Assignment)
    requires |x| == ChunkInputs(true) && forall i :: 0 <= i < |x| ==> w(i) == x[i]
    requires Solves(ShareNet(true).0.gates, w)
    ensures Read(w, ShareNet(true).1) == XorHalves(x)
  {
    var n := ChunkInputs(true);
    var b, xs, ys := Started(n), Fresh(0, VALUE_BITS), Fresh(VALUE_BITS, VALUE_BITS);
    StartedSound(n);
    assert forall i :: 0 <= i < n ==> KnownWire(n, b, i);
    hide Started, Sound, KnownWire, Solves, XorAll;
    XorAllComputes(n, b, xs, ys, w);
    forall i | 0 <= i < VALUE_BITS
      ensures Read(w, ShareNet(true).1)[i] == XorHalves(x)[i]
    {
      assert w(b.next + i) == (w(xs[i]) != w(ys[i]));
    }
  }

  lemma ShareComputes(first: bool, x: seq<bool>, w: Assignment)
    requires |x| == ChunkInputs(first) && forall i :: 0 <= i < |x| ==> w(i) == x[i]
    requires Solves(ShareNet(first).0.gates, w)
    ensures ValueOn(w, ShareNet(first).1) == Combined(x, first)
    ensures var n := ChunkInputs(first); !w(n) && w(n + 1)
  {
    hide MsbFirst, Started, XorAll;
    var n := ChunkInputs(first);
    StartedSound(n);
    ShareReady(first);
    SolvesPrefix(Started(n), ShareNet(first).0, w);
    if first {
      XorComputes(x, w);
    } else {
      assert Read(w, ShareNet(first).1) == x;
    }
  }

  lemma ChunkSound(sha: Circuit, bits: seq<nat>, first: bool)
    requires IsGadget(sha) && Indices(bits)
    ensures ChunkCircuit(sha, bits, first).WellFormed()
  {
    hide ChainNet, XorAll, ShareNet;
    var n := ChunkInputs(first);
    var (b, p) := ShareNet(first);
    var (c, q) := ChainNet(b, sha, p, bits, n, n + 1);
    ShareReady(first);
    ChainReady(n, b, sha, p, bits, n, n + 1);
    XorAllSound(n, c, q, Repeat(n, VALUE_BITS));
    LastDefined(n, XorAll(c, q, Repeat(n, VALUE_BITS)), c.next, VALUE_BITS);
  }

  lemma LastDefined(n: nat, b: Net, from: nat, count: nat)
    requires Known(n, b, Fresh(from, count))
    ensures AllDefined(n, b.gates, from, from + count)
  {
    forall w | from <= w < from + count
      ensures DefinedBy(n, b.gates, |b.gates|, w)
    {
      assert KnownWire(n, b, Fresh(from, count)[w - from]);
    }
  }

  /** A chunk circuit hashes its (combined) input down the chunk's bits, for every gadget and every input. */
  lemma ChunkComputes(sha: Circuit, bits: seq<nat>, first: bool, x: seq<bool>)
    requires IsGadget(sha) && Indices(bits) && |x| == ChunkInputs(first)
    ensures ChunkCircuit(sha, bits, first).InRange()
    ensures Circuits.Eval(ChunkCircuit(sha, bits, first), x) == MsbFirst(Chain(GadgetHash(sha), Combined(x, first), bits))
  {
    hide ChainNet, XorAll, ShareNet, Chain, GadgetHash, MsbFirst, Combined, IsGadget;
    GadgetInRange(sha);
    ChunkSound(sha, bits, first);
    var circuit, n := ChunkCircuit(sha, bits, first), ChunkInputs(first);
    var w := Solvable(circuit, x);
    EvalIsSolution(circuit, x, w);
    ShareReady(first);
    var (b, p) := ShareNet(first);
    ChainReady(n, b, sha, p, bits, n, n + 1);
    var (c, q) := ChainNet(b, sha, p, bits, n, n + 1);
    var d := XorAll(c, q, Repeat(n, VALUE_BITS));
    XorAllSound(n, c, q, Repeat(n, VALUE_BITS));
    XorAllComputes(n, c, q, Repeat(n, VALUE_BITS), w);
    SolvesPrefix(c, d, w);
    SolvesPrefix(b, c, w);
    ShareComputes(first, x, w);
    ChainComputes(n, b, sha, p, bits, n, n + 1, w);
    assert Circuits.Eval(circuit, x) == Read(w, q);
    MsbFirstTwice(Read(w, q));
  }
}

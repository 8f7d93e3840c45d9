/** Getting values into and out of a session: authenticated inputs and the checked reveal. */
module Reveals {
  import opened Options
  import opened Blocks
  import opened Auth
  import opened GarbledRun
  import opened TriplePool
  import opened TripleGeneration
  import opened RunStates
  import opened Sessions

  datatype OpenError =
    | BadWireShape
    | PeerShareLength
    | MacDigestMismatch
    | OwnInputLength
    | PeerInputLength
    | PeerInputIndex

  datatype Opening = Bits(bits: seq<bool>) | Rejected(error: OpenError)

  /** reveal_local_share: the share bits, and the MACs that go into the digest. */
  function LocalShare(bundle: seq<Bundle>): (r: (seq<bool>, seq<Block>))
    ensures |r.0| == |r.1| == |bundle|
    ensures forall i :: 0 <= i < |bundle| ==> r.0[i] == bundle[i].Bit() && r.1[i] == bundle[i].mac
  {
    (seq(|bundle|, i requires 0 <= i < |bundle| => bundle[i].Bit()),
     seq(|bundle|, i requires 0 <= i < |bundle| => bundle[i].mac))
  }

  /** The MACs the peer must hold if its share bits are `peer`. */
  function ExpectedMacs(bundle: seq<Bundle>, peer: seq<bool>, delta: Block): (macs: seq<Block>)
    requires |peer| == |bundle|
    ensures |macs| == |bundle|
    ensures forall i :: 0 <= i < |bundle| ==> macs[i] == Xor(bundle[i].key, Select(peer[i], delta))
  {
    if bundle == [] then []
    else [Xor(bundle[0].key, Select(peer[0], delta))] + ExpectedMacs(bundle[1..], peer[1..], delta)
  }

  /** reveal_recipient_bits with verify_peer_mac_digest. */
  method RecipientBits<D(==)>(lambda: seq<bool>, bundle: seq<Bundle>, peer: seq<bool>, peerDigest: D,
                              delta: Block, digest: seq<Block> -> D) returns (r: Opening)
    ensures r == Rejected(BadWireShape) <==> |lambda| != |bundle|
    ensures r == Rejected(PeerShareLength) <==> |lambda| == |bundle| != |peer|
    ensures |lambda| == |bundle| == |peer| ==>
      if digest(ExpectedMacs(bundle, peer, delta)) != peerDigest then r == Rejected(MacDigestMismatch)
      else r.Bits? && |r.bits| == |bundle| && forall i :: 0 <= i < |bundle| ==>
        r.bits[i] == ((bundle[i].Bit() != lambda[i]) != peer[i])
  {
    if |lambda| != |bundle| {
      return Rejected(BadWireShape);
    }
    if |peer| != |bundle| {
      return Rejected(PeerShareLength);
    }
    var n, macs := |bundle|, [];
    for i := 0 to n
      invariant |macs| == i
      invariant forall j :: 0 <= j < i ==> macs[j] == Xor(bundle[j].key, Select(peer[j], delta))
    {
      macs := macs + [Xor(bundle[i].key, Select(peer[i], delta))];
    }
    assert macs == ExpectedMacs(bundle, peer, delta);
    if digest(macs) != peerDigest {
      return Rejected(MacDigestMismatch);
    }
    return Bits(seq(n, i requires 0 <= i < n => (bundle[i].Bit() != lambda[i]) != peer[i]));
  }

  /** What a reveal relies on: related shares and Bob's masked bits. Labels play no part. */
  predicate Stands(a: SecureWires, b: SecureWires, values: seq<bool>, dA: Block, dB: Block) {
    && |a.bundle| == |b.bundle| == |b.lambda| == |values|
    && AllRelated(a.bundle, b.bundle, dA, dB)
    && forall i :: 0 <= i < |values| ==> b.lambda[i] == (values[i] != Opened(a.bundle[i], b.bundle[i]))
  }

  /** strip_labels_for_reveal */
  function Strip(w: SecureWires): SecureWires {
    w.(label0 := [], eval := [])
  }

  lemma CarriedStands(a: SecureWires, b: SecureWires, values: seq<bool>, dA: Block, dB: Block)
    requires Carries(a, b, values, dA, dB)
    ensures Stands(Strip(a), Strip(b), values, dA, dB)
  {
    hide Related;
    forall i | 0 <= i < |values|
      ensures b.lambda[i] == (values[i] != Opened(a.bundle[i], b.bundle[i]))
    {
      assert WireInvariant(a.bundle[i], b.bundle[i], dA, a.label0[i], b.eval[i], b.lambda[i], values[i]);
    }
  }

  lemma HonestMacs(a: seq<Bundle>, b: seq<Bundle>, dA: Block, dB: Block)
    requires AllRelated(a, b, dA, dB)
    ensures ExpectedMacs(b, LocalShare(a).0, dB) == LocalShare(a).1
    ensures ExpectedMacs(a, LocalShare(b).0, dA) == LocalShare(b).1
  {
    forall i | 0 <= i < |a|
      ensures ExpectedMacs(b, LocalShare(a).0, dB)[i] == LocalShare(a).1[i]
      ensures ExpectedMacs(a, LocalShare(b).0, dA)[i] == LocalShare(b).1[i]
    {
      assert Related(a[i], b[i], dA, dB);
    }
  }

  /** What a party sends to open its shares. */
  datatype Message<D> = Message(bits: seq<bool>, digest: D)

  /** The honest message, or the one that arrives in its place. */
  function Arriving<D>(bundle: seq<Bundle>, digest: seq<Block> -> D, forged: Option<Message<D>>): Message<D> {
    if forged.Some? then forged.value else Message(LocalShare(bundle).0, digest(LocalShare(bundle).1))
  }

  /** Does the receiver of an opening accept a message? */
  predicate Accepts<D(==)>(bundle: seq<Bundle>, m: Message<D>, delta: Block, digest: seq<Block> -> D) {
    |m.bits| == |bundle| && digest(ExpectedMacs(bundle, m.bits, delta)) == m.digest
  }

  /** ... and why not. */
  function Refusal<D>(bundle: seq<Bundle>, m: Message<D>): Opening {
    Rejected(if |m.bits| != |bundle| then PeerShareLength else MacDigestMismatch)
  }

  lemma HonestAccepted<D>(mine: seq<Bundle>, theirs: seq<Bundle>, dM: Block, dT: Block, digest: seq<Block> -> D)
    requires AllRelated(mine, theirs, dM, dT)
    ensures Accepts(mine, Arriving(theirs, digest, None), dM, digest) && Accepts(theirs, Arriving(mine, digest, None), dT, digest)
  {
    hide Related;
    HonestMacs(mine, theirs, dM, dT);
  }

  /** reveal_public on both sides: Bob checks Alice's MACs and opens, Alice takes his bits. Both learn exactly the values
  the wires stand for; a forged message is rejected unless its digest fits its bits, and then flips just the values
  whose bits it flips. */
  method RevealPublic<D(==)>(a: SecureWires, b: SecureWires, digest: seq<Block> -> D, forged: Option<Message<D>>,
                             ghost dA: Block, dB: Block, ghost values: seq<bool>) returns (alice: Opening, bob: Opening)
    requires Stands(a, b, values, dA, dB)
    ensures alice == bob && (forged == None ==> bob == Bits(values))
    ensures bob.Bits? <==> Accepts(b.bundle, Arriving(a.bundle, digest, forged), dB, digest)
    ensures bob.Rejected? ==> bob == Refusal(b.bundle, Arriving(a.bundle, digest, forged))
    ensures bob.Bits? ==> |bob.bits| == |values| && forall i :: 0 <= i < |values| ==>
      bob.bits[i] == (values[i] != (Arriving(a.bundle, digest, forged).bits[i] != a.bundle[i].Bit()))
  {
    hide ExpectedMacs;
    var m := Arriving(a.bundle, digest, forged);
    if forged == None {
      HonestAccepted(a.bundle, b.bundle, dA, dB, digest);
    }
    bob := RecipientBits(b.lambda, b.bundle, m.bits, m.digest, dB, digest);
    alice := bob;
  }

  /** decode for one recipient: Bob always learns the values, Alice learns them masked by what she is wrong about and by
  what a forged message that is not rejected has flipped. */
  method RevealToAlice<D(==)>(a: SecureWires, b: SecureWires, digest: seq<Block> -> D, forged: Option<Message<D>>,
                              dA: Block, ghost dB: Block, ghost values: seq<bool>) returns (alice: Opening)
    requires Stands(a, b, values, dA, dB) && |a.lambda| == |values|
    ensures alice.Bits? <==> Accepts(a.bundle, Arriving(b.bundle, digest, forged), dA, digest)
    ensures alice.Rejected? ==> alice == Refusal(a.bundle, Arriving(b.bundle, digest, forged))
    ensures forged == None ==> alice.Bits?
    ensures alice.Bits? ==> |alice.bits| == |values| == |b.lambda| && forall i :: 0 <= i < |values| ==>
      alice.bits[i] == ((values[i] != (a.lambda[i] != b.lambda[i])) != (Arriving(b.bundle, digest, forged).bits[i] != b.bundle[i].Bit()))
    ensures forged == None ==> forall i :: 0 <= i < |values| ==> (alice.bits[i] == values[i] <==> a.lambda[i] == b.lambda[i])
  {
    hide ExpectedMacs;
    var m := Arriving(b.bundle, digest, forged);
    if forged == None {
      HonestAccepted(a.bundle, b.bundle, dA, dB, digest);
    }
    alice := RecipientBits(a.lambda, a.bundle, m.bits, m.digest, dA, digest);
  }

  // ---- inputs ----

  /** finalize_input_open: the masked input bits, from both share bits and both parties' inputs. */
  method FinalizeInputOpen<D(==)>(bundle: seq<Bundle>, own: seq<bool>, peerIndices: seq<nat>, peer: seq<bool>,
                                  peerDigest: D, peerX: seq<bool>, delta: Block, digest: seq<Block> -> D)
    returns (r: Opening)
    ensures |own| != |bundle| ==> r == Rejected(OwnInputLength)
    ensures |own| == |bundle| && |peerX| != |peerIndices| ==> r == Rejected(PeerInputLength)
    ensures |own| == |bundle| && |peerX| == |peerIndices| && (exists j :: 0 <= j < |peerIndices| && peerIndices[j] >= |bundle|) ==>
      r == Rejected(PeerInputIndex)
    ensures |own| == |bundle| != |peer| && |peerX| == |peerIndices| && (forall j :: 0 <= j < |peerIndices| ==> peerIndices[j] < |bundle|) ==>
      r == Rejected(PeerShareLength)
    ensures |own| == |bundle| == |peer| && |peerX| == |peerIndices| && (forall j :: 0 <= j < |peerIndices| ==> peerIndices[j] < |bundle|) ==>
      if digest(ExpectedMacs(bundle, peer, delta)) != peerDigest then r == Rejected(MacDigestMismatch)
      else r == Bits(OpenedInputs(LocalShare(bundle).0, peer, own, peerIndices, peerX))
  {
    hide Toggled, ExpectedMacs;
    var n := |bundle|;
    if |own| != n {
      return Rejected(OwnInputLength);
    }
    if |peerX| != |peerIndices| {
      return Rejected(PeerInputLength);
    }
    for i := 0 to |peerIndices|
      invariant forall j :: 0 <= j < i ==> peerIndices[j] < n
    {
      if peerIndices[i] >= n {
        return Rejected(PeerInputIndex);
      }
    }
    if |peer| != n {
      return Rejected(PeerShareLength);
    }
    if digest(ExpectedMacs(bundle, peer, delta)) != peerDigest {
      return Rejected(MacDigestMismatch);
    }
    var local := LocalShare(bundle).0;
    var lambda := seq(n, i requires 0 <= i < n => (local[i] != peer[i]) != own[i]);
    ghost var start := lambda;
    NoneToggled(start, peerIndices[..0], peerX[..0]);
    for i := 0 to |peerIndices|
      invariant |lambda| == n
      invariant lambda == Toggled(start, peerIndices[..i], peerX[..i])
    {
      OneToggled(start, peerIndices, peerX, i);
      lambda := lambda[peerIndices[i] := lambda[peerIndices[i]] != peerX[i]];
    }
    assert peerIndices[..|peerIndices|] == peerIndices && peerX[..|peerX|] == peerX;
    return Bits(lambda);
  }

  /** `bits` with the bit at each index flipped where the matching entry of `x` is set. */
  function Toggled(bits: seq<bool>, indices: seq<nat>, x: seq<bool>): (r: seq<bool>)
    requires |x| == |indices| && forall j :: 0 <= j < |indices| ==> indices[j] < |bits|
    ensures |r| == |bits|
  {
    if indices == [] then bits
    else
      var m := |indices| - 1;
      var r := Toggled(bits, indices[..m], x[..m]);
      r[indices[m] := r[indices[m]] != x[m]]
  }

  lemma NoneToggled(bits: seq<bool>, indices: seq<nat>, x: seq<bool>)
    requires indices == [] && x == []
    ensures Toggled(bits, indices, x) == bits
  {
  }

  lemma OneToggled(bits: seq<bool>, indices: seq<nat>, x: seq<bool>, i: nat)
    requires i < |indices| == |x| && forall j :: 0 <= j < |indices| ==> indices[j] < |bits|
    ensures var r := Toggled(bits, indices[..i], x[..i]);
      Toggled(bits, indices[..i + 1], x[..i + 1]) == r[indices[i] := r[indices[i]] != x[i]]
  {
    assert indices[..i + 1][..i] == indices[..i] && x[..i + 1][..i] == x[..i];
  }

  function OpenedInputs(local: seq<bool>, peer: seq<bool>, own: seq<bool>, indices: seq<nat>, x: seq<bool>): seq<bool>
    requires |local| == |peer| == |own| && |x| == |indices| && forall j :: 0 <= j < |indices| ==> indices[j] < |local|
  {
    Toggled(seq(|local|, i requires 0 <= i < |local| => (local[i] != peer[i]) != own[i]), indices, x)
  }

  /** The wires `role` owns, in order. */
  function OwnedBy(owners: seq<Role>, role: Role): (s: seq<nat>)
    ensures forall j :: 0 <= j < |s| ==> s[j] < |owners| && owners[s[j]] == role
  {
    if owners == [] then []
    else
      var n := |owners| - 1;
      OwnedBy(owners[..n], role) + if owners[n] == role then [n] else []
  }

  /** What a party sends for the wires it owns, in order. */
  function SentBits(owners: seq<Role>, role: Role, x: seq<bool>): (s: seq<bool>)
    requires |x| == |owners|
    ensures |s| == |OwnedBy(owners, role)|
  {
    if owners == [] then []
    else
      var n := |owners| - 1;
      SentBits(owners[..n], role, x[..n]) + if owners[n] == role then [x[n]] else []
  }

  /** Toggling the peer's wires by what the peer packed toggles exactly those wires by its inputs. */
  lemma {:induction false} ToggledSent(bits: seq<bool>, owners: seq<Role>, role: Role, x: seq<bool>)
    requires |x| == |owners| <= |bits|
    ensures forall i :: 0 <= i < |bits| ==>
      Toggled(bits, OwnedBy(owners, role), SentBits(owners, role, x))[i] ==
        (bits[i] != (i < |owners| && owners[i] == role && x[i]))
  {
    hide Toggled, OwnedBy, SentBits;
    OwnedUnfolds(owners, role, x);
    if owners == [] {
      NothingToggled(bits);
    } else {
      var n := |owners| - 1;
      ToggledSent(bits, owners[..n], role, x[..n]);
      var idx, px := OwnedBy(owners[..n], role), SentBits(owners[..n], role, x[..n]);
      if owners[n] == role {
        ToggledMore(bits, idx, px, n, x[n]);
      } else {
        assert idx + [] == idx && px + [] == px;
      }
    }
  }

  lemma OwnedUnfolds(owners: seq<Role>, role: Role, x: seq<bool>)
    requires |x| == |owners|
    ensures owners == [] ==> OwnedBy(owners, role) == [] && SentBits(owners, role, x) == []
    ensures owners != [] ==> var n := |owners| - 1;
      && OwnedBy(owners, role) == OwnedBy(owners[..n], role) + (if owners[n] == role then [n] else [])
      && SentBits(owners, role, x) == SentBits(owners[..n], role, x[..n]) + if owners[n] == role then [x[n]] else []
  {
  }

  lemma NothingToggled(bits: seq<bool>)
    ensures Toggled(bits, [], []) == bits
  {
  }

  lemma ToggledMore(bits: seq<bool>, indices: seq<nat>, x: seq<bool>, n: nat, bit: bool)
    requires |x| == |indices| && n < |bits| && forall j :: 0 <= j < |indices| ==> indices[j] < |bits|
    ensures var r := Toggled(bits, indices, x); Toggled(bits, indices + [n], x + [bit]) == r[n := r[n] != bit]
  {
    assert (indices + [n])[..|indices|] == indices && (x + [bit])[..|x|] == x;
  }

  /** The clear inputs of the session: every wire's bit comes from its owner. */
  function InputValues(owners: seq<Role>, aliceX: seq<bool>, bobX: seq<bool>): (v: seq<bool>)
    requires |owners| == |aliceX| == |bobX|
    ensures |v| == |owners| && forall i :: 0 <= i < |owners| ==> v[i] == if owners[i] == Alice then aliceX[i] else bobX[i]
  {
    seq(|owners|, i requires 0 <= i < |owners| => if owners[i] == Alice then aliceX[i] else bobX[i])
  }

  /** The bits a party holds before the opening: its inputs on its own wires, zero elsewhere. */
  function OwnBits(owners: seq<Role>, role: Role, x: seq<bool>): (own: seq<bool>)
    requires |owners| == |x|
    ensures |own| == |owners| && forall i :: 0 <= i < |own| ==> own[i] == (owners[i] == role && x[i])
  {
    seq(|owners|, i requires 0 <= i < |owners| => owners[i] == role && x[i])
  }

  lemma OpensInputs(owners: seq<Role>, mine: Role, theirs: Role, x: seq<bool>, y: seq<bool>, a: seq<bool>, b: seq<bool>)
    requires |owners| == |x| == |y| == |a| == |b| && mine != theirs
    ensures var l := OpenedInputs(a, b, OwnBits(owners, mine, x), OwnedBy(owners, theirs), SentBits(owners, theirs, y));
      |l| == |owners| && forall i :: 0 <= i < |owners| ==>
        l[i] == ((a[i] != b[i]) != (if owners[i] == mine then x[i] else y[i]))
  {
    var own := OwnBits(owners, mine, x);
    ToggledSent(seq(|a|, i requires 0 <= i < |a| => (a[i] != b[i]) != own[i]), owners, theirs, y);
  }

  /** The opening of one party's drawn shares, given what the other party sends. */
  method OpenOwn<D(==)>(owners: seq<Role>, mine: Role, theirs: Role, x: seq<bool>, y: seq<bool>, bundle: seq<Bundle>,
                        m: Message<D>, delta: Block, digest: seq<Block> -> D) returns (r: Opening)
    requires |owners| == |x| == |y| == |bundle| && mine != theirs
    ensures r.Bits? <==> Accepts(bundle, m, delta, digest)
    ensures r.Rejected? ==> r == Refusal(bundle, m)
    ensures r.Bits? ==> |r.bits| == |owners| && forall i :: 0 <= i < |owners| ==>
      r.bits[i] == ((bundle[i].Bit() != m.bits[i]) != (if owners[i] == mine then x[i] else y[i]))
  {
    hide Toggled, OpenedInputs, ExpectedMacs;
    r := FinalizeInputOpen(bundle, OwnBits(owners, mine, x), OwnedBy(owners, theirs), m.bits,
                           m.digest, SentBits(owners, theirs, y), delta, digest);
    if r.Bits? {
      OpensInputs(owners, mine, theirs, x, y, LocalShare(bundle).0, m.bits);
    }
  }

  /** Wires built on opened inputs carry them. */
  lemma InputsCarried(a: SecureWires, b: SecureWires, values: seq<bool>, dA: Block, dB: Block)
    requires a.Shaped(Alice) && b.Shaped(Bob) && |a.lambda| == |b.lambda| == |values|
    requires AllRelated(a.bundle, b.bundle, dA, dB) && Lsb(dA) && Lsb(dB)
    requires a.lambda == b.lambda
    requires forall i :: 0 <= i < |values| ==> a.lambda[i] == (Opened(a.bundle[i], b.bundle[i]) != values[i])
    requires forall i :: 0 <= i < |values| ==> b.eval[i] == Xor(a.label0[i], Select(a.lambda[i], dA))
    ensures CarriesBoth(a, b, values, dA, dB)
  {
  }

  datatype InputRun = Wires(alice: SecureWires, bob: SecureWires) | NotOpened(error: OpenError)

  /** The shares a pool hands out from position `pos` on. */
  function SharesAt(stream: (nat, nat) -> Bundle, session: nat, pos: nat, n: nat): (s: seq<Bundle>)
    ensures |s| == n && forall i :: 0 <= i < n ==> s[i] == stream(session, pos + i)
  {
    seq(n, i requires 0 <= i < n => stream(session, pos + i))
  }

  /** Freshly authenticated wires: the next shares of both pools, and Alice's next labels. */
  ghost predicate FreshWires(a: SecureWires, b: SecureWires, alice: Pool, bob: Pool, pos: nat, prg: nat -> Block, at: nat)
    reads alice`session, bob`session
  {
    && |a.bundle| == |b.bundle| == |a.label0|
    && (forall i :: 0 <= i < |a.bundle| ==> a.bundle[i] == alice.stream(alice.session, pos + i) && b.bundle[i] == bob.stream(bob.session, pos + i))
    && forall i :: 0 <= i < |a.label0| ==> a.label0[i] == prg(at + i)
  }

  lemma FreshLabelled(a: SecureWires, b: SecureWires, alice: Pool, bob: Pool, pos: nat, prg: nat -> Block, at: nat)
    requires |a.bundle| == |b.bundle| == |a.label0|
    requires forall i :: 0 <= i < |a.bundle| ==> a.bundle[i] == alice.stream(alice.session, pos + i) && b.bundle[i] == bob.stream(bob.session, pos + i)
    requires forall i :: 0 <= i < |a.label0| ==> a.label0[i] == prg(at + i)
    ensures FreshWires(a, b, alice, bob, pos, prg, at)
  {
  }

  /** The opening at the heart of process_inputs, wire by wire: on fresh shares and on labels that are the blocks of
  Alice's generator from `at` on, both parties hold the same masked bits and every wire carries its owner's bit.
  `forged` reaches Alice in place of Bob's opening; she rejects it unless its digest fits. */
  method OpenInputs<D(==)>(alice: Pool, bob: Pool, owners: seq<Role>, aliceX: seq<bool>, bobX: seq<bool>,
                           prg: nat -> Block, at: nat, digest: seq<Block> -> D, forged: Option<Message<D>>)
    returns (r: InputRun)
    requires PoolsPaired(alice, bob) && |owners| == |aliceX| == |bobX|
    modifies alice`pos, bob`pos
    ensures PoolsPaired(alice, bob) && alice.pos == old(alice.pos) + |owners|
    ensures forged == None ==> r.Wires? && CarriesBoth(r.alice, r.bob, InputValues(owners, aliceX, bobX), alice.delta, bob.delta)
    ensures r.Wires? ==> |r.alice.bundle| == |owners| && FreshWires(r.alice, r.bob, alice, bob, old(alice.pos), prg, at)
    ensures r.Wires? ==> OwnLabels(r.alice, Alice) && OwnLabels(r.bob, Bob) && r.alice.Shaped(Alice) && r.bob.Shaped(Bob)
    ensures forged.Some? ==> (r.Wires? <==>
      Accepts(SharesAt(alice.stream, alice.session, old(alice.pos), |owners|), forged.value, alice.delta, digest))
    ensures forged.Some? && r.Wires? ==> UnderForged(r.alice.bundle, r.alice.lambda, forged.value.bits, InputValues(owners, aliceX, bobX))
  {
    hide Related, CarriesBoth, StreamsRelated, Pool.Current, AllRelated, Accepts, SharesAt, Xor, Select, FreshWires, InputValues, UnderForged;
    var n := |owners|;
    var bundleA := alice.Draw(n);
    var bundleB := bob.Draw(n);
    DrawnAre(alice, bob, old(alice.pos), bundleA, bundleB);
    DrawnRelated(alice, bob, old(alice.pos), bundleA, bundleB);
    var la, lb := OpenBoth(owners, aliceX, bobX, bundleA, bundleB, alice.delta, bob.delta, digest, forged);
    if la.Rejected? {
      return NotOpened(la.error);
    }
    var wa, wb := Labelled(la.bits, lb.bits, bundleA, bundleB, prg, at, alice.delta);
    FreshLabelled(wa, wb, alice, bob, old(alice.pos), prg, at);
    if forged == None {
      InputsCarried(wa, wb, InputValues(owners, aliceX, bobX), alice.delta, bob.delta);
    }
    return Wires(wa, wb);
  }

  lemma AcceptedLength<D>(bundle: seq<Bundle>, m: Message<D>, delta: Block, digest: seq<Block> -> D)
    requires Accepts(bundle, m, delta, digest)
    ensures |m.bits| == |bundle|
  {
    hide ExpectedMacs;
  }

  /** Masked bits opened with forged shares. */
  predicate UnderForged(bundle: seq<Bundle>, lambda: seq<bool>, bits: seq<bool>, values: seq<bool>) {
    |bundle| == |lambda| == |bits| == |values| && forall i :: 0 <= i < |bundle| ==> lambda[i] == ((bundle[i].Bit() != bits[i]) != values[i])
  }

  /** Both parties' openings. */
  method OpenBoth<D(==)>(owners: seq<Role>, aliceX: seq<bool>, bobX: seq<bool>, bundleA: seq<Bundle>, bundleB: seq<Bundle>,
                         dA: Block, dB: Block, digest: seq<Block> -> D, forged: Option<Message<D>>) returns (la: Opening, lb: Opening)
    requires |owners| == |aliceX| == |bobX| == |bundleA| && AllRelated(bundleA, bundleB, dA, dB)
    ensures la.Bits? <==> forged.None? || Accepts(bundleA, forged.value, dA, digest)
    ensures lb.Bits? && |lb.bits| == |owners| && (la.Bits? ==> |la.bits| == |owners|)
    ensures la.Rejected? ==> la == Refusal(bundleA, forged.value)
    ensures la.Bits? && forged.Some? ==> UnderForged(bundleA, la.bits, forged.value.bits, InputValues(owners, aliceX, bobX))
    ensures forged.None? ==> la == lb && forall i :: 0 <= i < |owners| ==>
      la.bits[i] == (Opened(bundleA[i], bundleB[i]) != InputValues(owners, aliceX, bobX)[i])
  {
    hide Related, AllRelated, Accepts, Arriving;
    RelatedLengths(bundleA, bundleB, dA, dB);
    HonestAccepted(bundleA, bundleB, dA, dB, digest);
    ArrivingIs(bundleA, bundleB, digest, forged);
    la := OpenOwn(owners, Alice, Bob, aliceX, bobX, bundleA, Arriving(bundleB, digest, forged), dA, digest);
    lb := OpenOwn(owners, Bob, Alice, bobX, aliceX, bundleB, Arriving(bundleA, digest, None), dB, digest);
    if forged.None? {
      assert la.bits == lb.bits;
    } else if la.Bits? {
      AcceptedLength(bundleA, forged.value, dA, digest);
    }
  }

  lemma RelatedLengths(a: seq<Bundle>, b: seq<Bundle>, dA: Block, dB: Block)
    requires AllRelated(a, b, dA, dB)
    ensures |a| == |b|
  {
  }

  /** Alice's fresh labels, and what she sends of them. */
  method Labelled(la: seq<bool>, lb: seq<bool>, bundleA: seq<Bundle>, bundleB: seq<Bundle>, prg: nat -> Block, at: nat, dA: Block)
    returns (a: SecureWires, b: SecureWires)
    requires |la| == |lb| == |bundleA| == |bundleB|
    ensures a.bundle == bundleA && a.lambda == la && a.eval == [] && |a.label0| == |la| && forall i :: 0 <= i < |la| ==> a.label0[i] == prg(at + i)
    ensures b.bundle == bundleB && b.lambda == lb && b.label0 == [] && |b.eval| == |la|
    ensures forall i :: 0 <= i < |la| ==> b.eval[i] == Xor(a.label0[i], Select(la[i], dA))
  {
    var label0: seq<Block> := seq(|la|, i requires 0 <= i < |la| => prg(at + i));
    var sent: seq<Block> := seq(|la|, i requires 0 <= i < |la| => Xor(label0[i], Select(la[i], dA)));
    a, b := SecureWires(la, bundleA, label0, []), SecureWires(lb, bundleB, [], sent);
  }

  lemma DrawnAre(alice: Pool, bob: Pool, start: nat, a: seq<Bundle>, b: seq<Bundle>)
    requires alice.session == bob.session && |a| == |b|
    requires forall i :: 0 <= i < |a| ==> a[i] == alice.Current()(start + i) && b[i] == bob.Current()(start + i)
    ensures a == SharesAt(alice.stream, alice.session, start, |a|)
    ensures forall i :: 0 <= i < |a| ==> a[i] == alice.stream(alice.session, start + i) && b[i] == bob.stream(bob.session, start + i)
  {
  }

  lemma ArrivingIs<D>(a: seq<Bundle>, b: seq<Bundle>, digest: seq<Block> -> D, forged: Option<Message<D>>)
    requires |a| == |b|
    ensures forged.Some? ==> Arriving(b, digest, forged) == forged.value
    ensures forged == None ==> Arriving(b, digest, forged) == Arriving(b, digest, None)
    ensures var ma, mb := Arriving(a, digest, None), Arriving(b, digest, None);
      && |ma.bits| == |mb.bits| == |a| && forall i :: 0 <= i < |a| ==> ma.bits[i] == a[i].Bit() && mb.bits[i] == b[i].Bit()
  {
  }

  // ---- inputs in groups, one owner each ----

  function Joined(groups: seq<seq<bool>>): seq<bool> {
    if groups == [] then [] else Joined(groups[..|groups| - 1]) + groups[|groups| - 1]
  }

  /** Where group `g` starts among all wires. */
  function Offset(groups: seq<seq<bool>>, g: nat): nat
    requires g <= |groups|
  {
    |Joined(groups[..g])|
  }

  /** The owner of every wire. */
  function WireOwners(owners: seq<Role>, groups: seq<seq<bool>>): (w: seq<Role>)
    requires |owners| == |groups|
    ensures |w| == |Joined(groups)|
  {
    if groups == [] then []
    else
      var m := |groups| - 1;
      WireOwners(owners[..m], groups[..m]) + seq(|groups[m]|, _ => owners[m])
  }

  predicate SameShapes(a: seq<seq<bool>>, b: seq<seq<bool>>) {
    |a| == |b| && forall g :: 0 <= g < |a| ==> |a[g]| == |b[g]|
  }

  lemma {:induction false} SameLength(a: seq<seq<bool>>, b: seq<seq<bool>>)
    requires SameShapes(a, b)
    ensures |Joined(a)| == |Joined(b)|
  {
    if a != [] {
      SameLength(a[..|a| - 1], b[..|b| - 1]);
    }
  }

  /** Group `g` lies between its offset and the next one, and all its wires have its owner. */
  lemma {:induction false} GroupAt(owners: seq<Role>, groups: seq<seq<bool>>, g: nat)
    requires |owners| == |groups| && g < |groups|
    ensures Offset(groups, g + 1) == Offset(groups, g) + |groups[g]| <= |Joined(groups)|
    ensures Joined(groups)[Offset(groups, g)..Offset(groups, g + 1)] == groups[g]
    ensures forall i :: Offset(groups, g) <= i < Offset(groups, g + 1) ==> WireOwners(owners, groups)[i] == owners[g]
  {
    var m := |groups| - 1;
    assert groups[..g + 1][..g] == groups[..g];
    if g < m {
      GroupAt(owners[..m], groups[..m], g);
      assert groups[..m][..g] == groups[..g] && groups[..m][..g + 1] == groups[..g + 1];
      assert Joined(groups)[Offset(groups, g)..Offset(groups, g + 1)] == Joined(groups[..m])[Offset(groups, g)..Offset(groups, g + 1)];
    } else {
      assert groups[..g + 1] == groups;
    }
  }

  datatype Sliced = Part(wires: SecureWires) | BadSlice

  /** slice; labels a party does not hold stay absent. */
  function Slice(w: SecureWires, start: nat, end: nat): Sliced
    requires |w.lambda| == |w.bundle| && (w.label0 == [] || |w.label0| == |w.lambda|) && (w.eval == [] || |w.eval| == |w.lambda|)
  {
    if start > end || end > |w.lambda| then BadSlice
    else Part(SecureWires(w.lambda[start..end], w.bundle[start..end], if w.label0 == [] then [] else w.label0[start..end],
                          if w.eval == [] then [] else w.eval[start..end]))
  }

  /** A slice within bounds of carried wires carries the slice of their values; any other is refused on both sides. */
  lemma SliceCarries(a: SecureWires, b: SecureWires, values: seq<bool>, dA: Block, dB: Block, start: nat, end: nat)
    requires CarriesBoth(a, b, values, dA, dB) && a.eval == [] && b.label0 == []
    ensures var pa, pb := Slice(a, start, end), Slice(b, start, end);
      if start <= end <= |values| then pa.Part? && pb.Part? && CarriesBoth(pa.wires, pb.wires, values[start..end], dA, dB)
      else pa == pb == BadSlice
  {
    hide WireInvariant, Related;
  }

  datatype Authenticated = Inputs(alice: seq<SecureWires>, bob: seq<SecureWires>) | BadInputGroups | InputRejected(error: OpenError)

  /** process_inputs on both sides, each party giving its bits for its own groups and any bits of the same length
  for the other's: group by group the wires are fresh and carry the owner's bits. `next` is where Alice's generator
  stands then. */
  method ProcessInputs<D(==)>(alice: Pool, bob: Pool, owners: seq<Role>, aliceX: seq<seq<bool>>, bobX: seq<seq<bool>>,
                              prg: nat -> Block, at: nat, digest: seq<Block> -> D, forged: Option<Message<D>>)
    returns (r: Authenticated, next: nat)
    requires PoolsPaired(alice, bob) && SameShapes(aliceX, bobX)
    modifies alice`pos, bob`pos
    ensures PoolsPaired(alice, bob)
    ensures |owners| != |aliceX| ==> r == BadInputGroups && next == at && alice.pos == old(alice.pos)
    ensures |owners| == |aliceX| ==> next == at + |Joined(aliceX)| && alice.pos == old(alice.pos) + |Joined(aliceX)|
    ensures |owners| == |aliceX| && forged == None ==> r.Inputs? && forall g :: 0 <= g < |r.alice| ==>
      |r.alice| == |r.bob| == |owners| &&
      CarriesBoth(r.alice[g], r.bob[g], if owners[g] == Alice then aliceX[g] else bobX[g], alice.delta, bob.delta)
    ensures r.Inputs? ==> |r.alice| == |r.bob| == |owners| == |aliceX| && forall g :: 0 <= g < |r.alice| ==>
      FreshWires(r.alice[g], r.bob[g], alice, bob, old(alice.pos) + Offset(aliceX, g), prg, at + Offset(aliceX, g))
    ensures |owners| == |aliceX| && forged.Some? && Joined(aliceX) != [] ==> (r.Inputs? <==>
      Accepts(SharesAt(alice.stream, alice.session, old(alice.pos), |Joined(aliceX)|), forged.value, alice.delta, digest))
  {
    hide PoolsPaired, CarriesBoth, Joined, Offset, WireOwners, FreshWires, Slice, Accepts;
    if |owners| != |aliceX| {
      return BadInputGroups, at;
    }
    SameLength(aliceX, bobX);
    var x, y, all := Joined(aliceX), Joined(bobX), WireOwners(owners, aliceX);
    if x == [] {
      var none := SecureWires([], [], [], []);
      ghost var pos, dA, dB := alice.pos, alice.delta, bob.delta;
      forall g | 0 <= g < |owners|
        ensures CarriesBoth(none, none, if owners[g] == Alice then aliceX[g] else bobX[g], dA, dB)
        ensures FreshWires(none, none, alice, bob, pos + Offset(aliceX, g), prg, at + Offset(aliceX, g))
      {
        EmptyGroup(owners, aliceX, bobX, g, dA, dB);
        NoWires(none, alice, bob, pos + Offset(aliceX, g), prg, at + Offset(aliceX, g));
      }
      return Inputs(seq(|owners|, _ => none), seq(|owners|, _ => none)), at;
    }
    var run := OpenInputs(alice, bob, all, x, y, prg, at, digest, forged);
    if run.NotOpened? {
      return InputRejected(run.error), at + |x|;
    }
    var a, b := run.alice, run.bob;
    FreshSized(a, b, |x|, alice, bob, old(alice.pos), prg, at);
    var as' := SliceGroups(aliceX, a);
    var bs' := SliceGroups(aliceX, b);
    forall g | 0 <= g < |owners|
      ensures FreshWires(as'[g], bs'[g], alice, bob, old(alice.pos) + Offset(aliceX, g), prg, at + Offset(aliceX, g))
      ensures forged == None ==> CarriesBoth(as'[g], bs'[g], if owners[g] == Alice then aliceX[g] else bobX[g], alice.delta, bob.delta)
    {
      GroupAt(owners, aliceX, g);
      SliceFresh(a, b, as'[g], bs'[g], Offset(aliceX, g), Offset(aliceX, g + 1), alice, bob, old(alice.pos), prg, at);
      if forged == None {
        GroupCarries(owners, aliceX, bobX, a, b, as'[g], bs'[g], g, alice.delta, bob.delta);
      }
    }
    return Inputs(as', bs'), at + |x|;
  }

  lemma EmptyGroup(owners: seq<Role>, aliceX: seq<seq<bool>>, bobX: seq<seq<bool>>, g: nat, dA: Block, dB: Block)
    requires SameShapes(aliceX, bobX) && |owners| == |aliceX| && g < |owners| && Joined(aliceX) == []
    ensures var none := SecureWires([], [], [], []); CarriesBoth(none, none, if owners[g] == Alice then aliceX[g] else bobX[g], dA, dB)
  {
    GroupAt(owners, aliceX, g);
  }

  lemma NoWires(none: SecureWires, alice: Pool, bob: Pool, pos: nat, prg: nat -> Block, at: nat)
    requires none == SecureWires([], [], [], [])
    ensures FreshWires(none, none, alice, bob, pos, prg, at)
  {
  }

  /** One entry per wire in all arms a party holds. */
  predicate Sized(w: SecureWires, n: nat) {
    |w.lambda| == |w.bundle| == n && (w.label0 == [] || |w.label0| == n) && (w.eval == [] || |w.eval| == n)
  }

  /** Cutting the opened wires back into the groups. */
  method SliceGroups(groups: seq<seq<bool>>, w: SecureWires) returns (parts: seq<SecureWires>)
    requires Sized(w, |Joined(groups)|)
    ensures |parts| == |groups|
    ensures forall g :: 0 <= g < |groups| ==> Slice(w, Offset(groups, g), Offset(groups, g + 1)) == Part(parts[g])
  {
    hide Joined;
    parts := [];
    var owners := seq(|groups|, _ => Alice);
    var start := 0;
    NoOffset(groups);
    for g := 0 to |groups|
      invariant |parts| == g && start == Offset(groups, g)
      invariant forall k :: 0 <= k < g ==> Slice(w, Offset(groups, k), Offset(groups, k + 1)) == Part(parts[k])
    {
      GroupAt(owners, groups, g);
      parts := parts + [Slice(w, start, start + |groups[g]|).wires];
      start := start + |groups[g]|;
    }
  }

  lemma NoOffset(groups: seq<seq<bool>>)
    ensures Offset(groups, 0) == 0
  {
  }

  lemma FreshSized(a: SecureWires, b: SecureWires, n: nat, alice: Pool, bob: Pool, pos: nat, prg: nat -> Block, at: nat)
    requires FreshWires(a, b, alice, bob, pos, prg, at) && |a.bundle| == n && |a.lambda| == |a.bundle| && |b.lambda| == |b.bundle| == |b.eval|
    requires a.eval == [] && b.label0 == []
    ensures Sized(a, n) && Sized(b, n)
  {
  }

  lemma SliceFresh(a: SecureWires, b: SecureWires, pa: SecureWires, pb: SecureWires, start: nat, end: nat,
                   alice: Pool, bob: Pool, pos: nat, prg: nat -> Block, at: nat)
    requires FreshWires(a, b, alice, bob, pos, prg, at) && Sized(a, |a.bundle|) && Sized(b, |a.bundle|) && start <= end <= |a.bundle|
    requires Slice(a, start, end) == Part(pa) && Slice(b, start, end) == Part(pb)
    ensures FreshWires(pa, pb, alice, bob, pos + start, prg, at + start)
  {
    forall i | 0 <= i < end - start
      ensures pa.bundle[i] == alice.stream(alice.session, pos + start + i) && pb.bundle[i] == bob.stream(bob.session, pos + start + i)
    {
      assert pos + (start + i) == pos + start + i;
    }
    forall i | 0 <= i < |pa.label0|
      ensures pa.label0[i] == prg(at + start + i)
    {
      assert at + (start + i) == at + start + i;
    }
  }

  lemma GroupCarries(owners: seq<Role>, aliceX: seq<seq<bool>>, bobX: seq<seq<bool>>, a: SecureWires, b: SecureWires,
                     pa: SecureWires, pb: SecureWires, g: nat, dA: Block, dB: Block)
    requires SameShapes(aliceX, bobX) && |owners| == |aliceX| && |Joined(aliceX)| == |Joined(bobX)| && g < |owners|
    requires CarriesBoth(a, b, InputValues(WireOwners(owners, aliceX), Joined(aliceX), Joined(bobX)), dA, dB) && a.eval == [] && b.label0 == []
    requires Sized(a, |Joined(aliceX)|) && Sized(b, |Joined(aliceX)|)
    requires Slice(a, Offset(aliceX, g), Offset(aliceX, g + 1)) == Part(pa) && Slice(b, Offset(aliceX, g), Offset(aliceX, g + 1)) == Part(pb)
    ensures CarriesBoth(pa, pb, if owners[g] == Alice then aliceX[g] else bobX[g], dA, dB)
  {
    hide CarriesBoth, Joined, Offset, WireOwners, Slice;
    var values := InputValues(WireOwners(owners, aliceX), Joined(aliceX), Joined(bobX));
    GroupAt(owners, aliceX, g);
    GroupAt(owners, bobX, g);
    SameOffset(aliceX, bobX, g);
    SameOffset(aliceX, bobX, g + 1);
    SliceCarries(a, b, values, dA, dB, Offset(aliceX, g), Offset(aliceX, g + 1));
    assert values[Offset(aliceX, g)..Offset(aliceX, g + 1)] == if owners[g] == Alice then aliceX[g] else bobX[g];
  }

  lemma OpenedShape(a: SecureWires, b: SecureWires, values: seq<bool>, dA: Block, dB: Block)
    requires CarriesBoth(a, b, values, dA, dB)
    ensures |a.lambda| == |a.bundle| == |a.label0| == |b.lambda| == |b.bundle| == |b.eval| == |values|
  {
  }

  lemma SameOffset(a: seq<seq<bool>>, b: seq<seq<bool>>, g: nat)
    requires SameShapes(a, b) && g <= |a|
    ensures Offset(a, g) == Offset(b, g)
  {
    SameLength(a[..g], b[..g]);
  }

  /** public_wires */
  function PublicWires(party: Role, bits: seq<bool>, delta: Block): (w: SecureWires) {
    SecureWires(bits, seq(|bits|, _ => PUBLIC),
                if party == Alice then seq(|bits|, i requires 0 <= i < |bits| => Select(bits[i], delta)) else [],
                if party == Alice then [] else seq(|bits|, _ => ZERO))
  }

  /** Public wires carry their bits for any two Δs. */
  lemma PublicWiresCarry(bits: seq<bool>, dA: Block, dB: Block)
    ensures CarriesBoth(PublicWires(Alice, bits, dA), PublicWires(Bob, bits, dB), bits, dA, dB)
  {
    XorGroup(dA, dA, ZERO);
    XorGroup(ZERO, ZERO, ZERO);
  }
}

/** Runs in which Alice starts from wrong masked bits, as after a program without AND gates: what the gamma check sees. */
module MaskErrors {
  import opened Blocks
  import opened Auth
  import opened Programs
  import opened Garbling
  import opened GarbledRun

  /** Is Alice wrong about the masked bit of a wire? */
  predicate Wrong(la: seq<bool>, lb: seq<bool>, wire: nat)
    requires wire < |la| && wire < |lb|
  {
    la[wire] != lb[wire]
  }

  /** Wrong bits of the operands shift the block Alice hashes by the other operand's MAC. */
  lemma GammaShift(la: bool, lb: bool, e0: bool, e1: bool, a0: Bundle, a1: Bundle, ao: Bundle, asig: Bundle)
    ensures AliceGamma(la != e0, lb != e1, a0, a1, ao, asig) ==
      Xor(AliceGamma(la, lb, a0, a1, ao, asig), Xor(Select(e0, a1.mac), Select(e1, a0.mac)))
  {
    hide Xor, Select;
    var s := Xor(asig.mac, ao.mac);
    SelectLinear(la, e0, a1.mac, a1.mac);
    SelectLinear(lb, e1, a0.mac, a0.mac);
    var x, dx, y, dy := Select(la, a1.mac), Select(e0, a1.mac), Select(lb, a0.mac), Select(e1, a0.mac);
    XorGroup(s, x, dx);
    XorGroup(Xor(s, x), dx, Xor(y, dy));
    XorGroup(dx, y, dy);
    XorGroup(y, dx, dy);
    XorGroup(dx, y, ZERO);
    XorGroup(Xor(s, x), y, Xor(dx, dy));
  }

  /** Do the errors at the operands of gate `i`, if it is an AND, cancel in the block Alice hashes? */
  predicate ErrorsCancel(p: Program, va: View, la: seq<bool>, lb: seq<bool>, i: nat)
    requires Covers(p, va) && i < |p.gates| && |la| == |lb| == p.numWires
  {
    assert p.Defined(i);
    var g := p.gates[i];
    g.typ == AND ==>
      Xor(Select(Wrong(la, lb, g.in0), va.shares[g.in1].mac), Select(Wrong(la, lb, g.in1), va.shares[g.in0].mac)) == ZERO
  }

  /** The two blocks of gate `i` when the parties walk with different masked bits. */
  predicate BlocksAgree(p: Program, va: View, vb: View, sent: seq<bool>, la: seq<bool>, lb: seq<bool>, i: nat)
    requires Covers(p, va) && Covers(p, vb) && i < |p.gates| && |la| == |lb| == p.numWires && |sent| == p.NumAnds()
  {
    if p.gates[i].typ != AND then true else
      AndIndex(p, i);
      assert p.Defined(i);
      var g, k, out := p.gates[i], p.AndsBefore(i), Out(p, i);
      AliceGamma(la[g.in0], la[g.in1], va.shares[g.in0], va.shares[g.in1], va.shares[out], va.sigma[k]) ==
      BobGamma(vb.delta, lb[g.in0], lb[g.in1], sent[k], vb.shares[g.in0], vb.shares[g.in1], vb.shares[out], vb.sigma[k])
  }

  /** With Bob's bits right and truly sent, a gate passes the gamma check exactly when Alice's errors there cancel. */
  lemma GateSeesErrors(p: Program, va: View, vb: View, sent: seq<bool>, la: seq<bool>, lb: seq<bool>, values: seq<bool>, i: nat)
    requires Covers(p, va) && Covers(p, vb) && ViewsPaired(p, va, vb) && i < |p.gates|
    requires |la| == |lb| == |values| == p.numWires && |sent| == p.NumAnds()
    requires p.Defined(i) && p.GateHolds(values, i) && LambdaHolds(p, sent, lb, i)
    requires MaskedBits(p, va, vb, lb, values, p.numWires)
    ensures BlocksAgree(p, va, vb, sent, la, lb, i) <==> ErrorsCancel(p, va, la, lb, i)
  {
    hide AliceGamma, BobGamma, Xor, Select;
    var g, out := p.gates[i], Out(p, i);
    if g.typ == AND {
      AndGateShares(p, va, vb, i);
      var k := p.AndsBefore(i);
      ViewsAgree(p, va, vb);
      var a0, a1, ao, asig := va.shares[g.in0], va.shares[g.in1], va.shares[out], va.sigma[k];
      GammaExact(va, vb, a0, a1, ao, asig, vb.shares[g.in0], vb.shares[g.in1], vb.shares[out], vb.sigma[k],
                 lb[g.in0], lb[g.in1], sent[k]);
      var e0, e1 := Wrong(la, lb, g.in0), Wrong(la, lb, g.in1);
      GammaShift(lb[g.in0], lb[g.in1], e0, e1, a0, a1, ao, asig);
      var right, shift := AliceGamma(lb[g.in0], lb[g.in1], a0, a1, ao, asig), Xor(Select(e0, a1.mac), Select(e1, a0.mac));
      XorCancel(shift, right);
      XorGroup(right, shift, right);
      XorGroup(right, ZERO, ZERO);
      XorCancel(right, Xor(right, shift));
    }
  }

  /** The gamma check of a whole run passes exactly when Alice's errors cancel at every AND gate; a mismatch of the
  digests is certain otherwise, up to a collision of the hash. */
  lemma CheckSeesErrors(p: Program, va: View, vb: View, sent: seq<bool>, la: seq<bool>, lb: seq<bool>, values: seq<bool>)
    requires Covers(p, va) && Covers(p, vb) && ViewsPaired(p, va, vb)
    requires |la| == |lb| == |values| == p.numWires && |sent| == p.NumAnds()
    requires FollowsSent(p, sent, lb, values) && MaskedBits(p, va, vb, lb, values, p.numWires)
    ensures (forall i :: 0 <= i < |p.gates| ==> BlocksAgree(p, va, vb, sent, la, lb, i))
      <==> forall i :: 0 <= i < |p.gates| ==> ErrorsCancel(p, va, la, lb, i)
  {
    hide BlocksAgree, ErrorsCancel, MaskedBits, ViewsPaired;
    forall i | 0 <= i < |p.gates|
      ensures BlocksAgree(p, va, vb, sent, la, lb, i) <==> ErrorsCancel(p, va, la, lb, i)
    {
      assert p.Defined(i) && p.GateHolds(values, i) && LambdaHolds(p, sent, lb, i);
      GateSeesErrors(p, va, vb, sent, la, lb, values, i);
    }
  }

  /** How errors travel: AND outputs are right, since both parties take the sent bit; XOR adds errors and INV keeps them. */
  lemma ErrorsTravel(p: Program, sent: seq<bool>, la: seq<bool>, lb: seq<bool>, i: nat)
    requires p.Topological() && i < |p.gates| && |la| == |lb| == p.numWires
    requires LambdaHolds(p, sent, la, i) && LambdaHolds(p, sent, lb, i)
    ensures p.Defined(i) && match p.gates[i].typ
      case AND => !Wrong(la, lb, Out(p, i))
      case XOR => Wrong(la, lb, Out(p, i)) == (Wrong(la, lb, p.gates[i].in0) != Wrong(la, lb, p.gates[i].in1))
      case INV => Wrong(la, lb, Out(p, i)) == Wrong(la, lb, p.gates[i].in0)
  {
    assert p.Defined(i);
  }

  /** So a run whose AND gates read no wrong wire passes although Alice is wrong elsewhere. */
  lemma UnreadErrorsPass(p: Program, va: View, la: seq<bool>, lb: seq<bool>, i: nat)
    requires Covers(p, va) && i < |p.gates| && |la| == |lb| == p.numWires && p.Defined(i)
    requires !Wrong(la, lb, p.gates[i].in0) && (p.gates[i].typ != INV ==> !Wrong(la, lb, p.gates[i].in1))
    ensures ErrorsCancel(p, va, la, lb, i)
  {
    XorGroup(ZERO, ZERO, ZERO);
  }
}

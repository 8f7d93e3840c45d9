/** Authenticated half-gate garbling: what both parties put on a wire, and why they stay in step. */
module Garbling {
  import opened Blocks
  import opened Auth
  import opened Programs

  /** What one party knows when it walks a program: its share of every wire, its sigma share
  of every AND gate, and the hash both parties key from the common transcript. */
  datatype View = View(delta: Block, shares: seq<Bundle>, sigma: seq<Bundle>,
                       cipher: (nat, Block) -> Block, linear: Block -> Block) {
    /** hash_cir for AND gate `k`: eight gates share a key. */
    function Hash(k: nat, x: Block): Block {
      cipher(k / 8, linear(x))
    }
  }

  predicate Covers(p: Program, v: View) {
    p.Topological() && |v.shares| == p.numWires && |v.sigma| == p.NumAnds()
  }

  /** The wires of gate `i` and the index of its AND. */
  function Out(p: Program, i: nat): nat { p.numInputs + i }

  lemma AndIndex(p: Program, i: nat)
    requires p.Topological() && i < |p.gates| && p.gates[i].typ == AND
    ensures p.AndsBefore(i) < p.NumAnds()
  {
    p.AndsMonotone(i, |p.gates|);
  }

  /** The share of a wire: drawn fresh for an AND, linear in the operands otherwise. */
  predicate ShareHolds(p: Program, draws: seq<Bundle>, shares: seq<Bundle>, i: nat)
    requires p.Topological() && i < |p.gates| && Out(p, i) < |shares|
  {
    var g, out := p.gates[i], Out(p, i);
    assert p.Defined(i);
    match g.typ
    case AND => p.AndsBefore(i) < |draws| && shares[out] == draws[p.AndsBefore(i)]
    case XOR => shares[out] == Add(shares[g.in0], shares[g.in1])
    case INV => shares[out] == shares[g.in0]
  }

  /** One garbled AND gate as it is sent, and the zero label it gives its output. */
  datatype Row = Row(g0: Block, g1: Block, bit: bool)
  datatype Garbled = Garbled(row: Row, label0: Block)

  /** ag2pc_garbler_and_gate */
  function GarbleAnd(v: View, in0: Bundle, in1: Bundle, out: Bundle, sigma: Bundle,
                     k: nat, a0: Block, b0: Block): Garbled {
    var ha0, ha1 := v.Hash(k, a0), v.Hash(k, Xor(a0, v.delta));
    var hb0, hb1 := v.Hash(k, b0), v.Hash(k, Xor(b0, v.delta));
    var g0 := Xor(Xor(Xor(ha0, ha1), in1.key), Select(in1.Bit(), v.delta));
    var g1 := Xor(Xor(Xor(Xor(hb0, hb1), a0), in0.key), Select(in0.Bit(), v.delta));
    var label0 := Xor(Xor(Xor(Xor(Xor(ha0, hb0), sigma.key), Select(sigma.Bit(), v.delta)), out.key),
                     Select(out.Bit(), v.delta));
    Garbled(Row(g0, g1, Lsb1(label0)), label0)
  }

  /** The label the evaluator ends up with and the masked bit it reads off it. */
  datatype Ungarbled = Ungarbled(eval: Block, lambda: bool)

  /** ag2pc_evaluator_and_gate */
  function EvalAnd(v: View, in0: Bundle, in1: Bundle, out: Bundle, sigma: Bundle,
                   k: nat, la: bool, lb: bool, ea: Block, eb: Block, row: Row): Ungarbled {
    var mr := Combine(la, lb, in0, in1, out, sigma).mac;
    var t := Xor(Xor(Xor(Xor(v.Hash(k, ea), v.Hash(k, eb)), Select(la, row.g0)), Select(lb, Xor(row.g1, ea))), mr);
    Ungarbled(t, row.bit != Lsb1(t))
  }

  /** sigma + out + la·in1 + lb·in0: the share of la·lb + λ_out once the operands are masked. */
  function Combine(la: bool, lb: bool, in0: Bundle, in1: Bundle, out: Bundle, sigma: Bundle): Bundle {
    Add(Add(Add(sigma, out), Scale(la, in1)), Scale(lb, in0))
  }

  /** The block Alice hashes for an AND gate in ag2pc_gamma_check_digest. */
  function AliceGamma(la: bool, lb: bool, in0: Bundle, in1: Bundle, out: Bundle, sigma: Bundle): Block {
    Combine(la, lb, in0, in1, out, sigma).mac
  }

  /** The block Bob hashes for an AND gate in ag2pc_evaluator_and_gate. */
  function BobGamma(delta: Block, la: bool, lb: bool, lg: bool,
                    in0: Bundle, in1: Bundle, out: Bundle, sigma: Bundle): Block {
    var t1 := (((((la && lb) != lg) != (la && in1.Bit())) != (lb && in0.Bit())) != sigma.Bit()) != out.Bit();
    Xor(Xor(Xor(Xor(Select(t1, delta), Select(la, in1.key)), Select(lb, in0.key)), sigma.key), out.key)
  }

  // ---- the algebra of one AND gate ----

  /** Adding key and masked Δ is adding the dual. */
  lemma DualFolds(x: Block, s: Bundle, delta: Block)
    ensures Xor(Xor(x, s.key), Select(s.Bit(), delta)) == Xor(x, Dual(s, delta))
  {
    XorGroup(x, s.key, Select(s.Bit(), delta));
  }

  /** Unmasking the first half-gate row. */
  lemma FirstHalf(h0: Block, h1: Block, d: Block, la: bool)
    ensures Xor(if la then h1 else h0, Select(la, Xor(Xor(h0, h1), d))) == Xor(h0, Select(la, d))
  {
    if la {
      XorGroup(h0, h1, d);
      XorGroup(h1, h0, d);
      XorCancel(Xor(h0, d), h1);
    }
  }

  /** Unmasking the second half-gate row, which also carries the first operand's label. */
  lemma SecondHalf(h0: Block, h1: Block, a0: Block, d: Block, delta: Block, la: bool, lb: bool)
    ensures Xor(if lb then h1 else h0, Select(lb, Xor(Xor(Xor(Xor(h0, h1), a0), d), Xor(a0, Select(la, delta)))))
         == Xor(h0, Select(lb, Xor(d, Select(la, delta))))
  {
    if lb {
      var m := Select(la, delta);
      var l := Xor(h1, Xor(Xor(Xor(Xor(h0, h1), a0), d), Xor(a0, m)));
      var r := Xor(h0, Xor(d, m));
      assert forall i | 0 <= i < BLOCK_BITS :: l[i] == r[i];
    }
  }

  /** Collecting the pieces of an evaluated AND gate. */
  lemma Collect(ha: Block, hb: Block, s: Block, o: Block, x: Block, y: Block, c: Block, r: Block)
    ensures Xor(Xor(Xor(ha, x), Xor(hb, Xor(y, c))), Xor(Xor(Xor(Xor(s, o), x), y), r))
         == Xor(Xor(Xor(Xor(ha, hb), s), o), Xor(c, r))
  {
    var h, so := Xor(ha, hb), Xor(s, o);
    calc {
      Xor(Xor(Xor(ha, x), Xor(hb, Xor(y, c))), Xor(Xor(Xor(so, x), y), r));
      { XorSwap(ha, x, hb, Xor(y, c)); XorGroup(x, y, c); }
      Xor(Xor(h, Xor(Xor(x, y), c)), Xor(Xor(Xor(so, x), y), r));
      { XorGroup(so, x, y); XorSwap(so, Xor(x, y), r, ZERO); }
      Xor(Xor(h, Xor(Xor(x, y), c)), Xor(Xor(so, Xor(x, y)), r));
      { Regroup(h, so, Xor(x, y), c, r); }
      Xor(Xor(h, so), Xor(c, r));
      { XorGroup(h, s, o); }
      Xor(Xor(Xor(h, s), o), Xor(c, r));
    }
  }

  lemma Regroup(h: Block, so: Block, xy: Block, c: Block, r: Block)
    ensures Xor(Xor(h, Xor(xy, c)), Xor(Xor(so, xy), r)) == Xor(Xor(h, so), Xor(c, r))
  {
    var l, r' := Xor(Xor(h, Xor(xy, c)), Xor(Xor(so, xy), r)), Xor(Xor(h, so), Xor(c, r));
    assert forall i | 0 <= i < BLOCK_BITS :: l[i] == r'[i];
  }

  /** The shares of the two operands, the output and the product of one AND gate. */
  predicate AndShares(a0: Bundle, a1: Bundle, ao: Bundle, asig: Bundle,
                      b0: Bundle, b1: Bundle, bo: Bundle, bsig: Bundle, dA: Block, dB: Block) {
    && Related(a0, b0, dA, dB) && Related(a1, b1, dA, dB) && Related(ao, bo, dA, dB) && Related(asig, bsig, dA, dB)
    && Opened(asig, bsig) == (Opened(a0, b0) && Opened(a1, b1))
  }

  /** What the combined share opens to: the masked output, less la·lb. */
  lemma CombineOpens(la: bool, lb: bool, a0: Bundle, a1: Bundle, ao: Bundle, asig: Bundle,
                     b0: Bundle, b1: Bundle, bo: Bundle, bsig: Bundle, dA: Block, dB: Block)
    requires AndShares(a0, a1, ao, asig, b0, b1, bo, bsig, dA, dB)
    ensures var ca, cb := Combine(la, lb, a0, a1, ao, asig), Combine(la, lb, b0, b1, bo, bsig);
      && Related(ca, cb, dA, dB)
      && ((la && lb) != Opened(ca, cb))
         == (((la != Opened(a0, b0)) && (lb != Opened(a1, b1))) != Opened(ao, bo))
  {
    hide Related;
    RelatedAdd(asig, bsig, ao, bo, dA, dB);
    RelatedScale(la, a1, b1, dA, dB);
    RelatedScale(lb, a0, b0, dA, dB);
    RelatedAdd(Add(asig, ao), Add(bsig, bo), Scale(la, a1), Scale(la, b1), dA, dB);
    RelatedAdd(Add(Add(asig, ao), Scale(la, a1)), Add(Add(bsig, bo), Scale(la, b1)), Scale(lb, a0), Scale(lb, b0), dA, dB);
  }

  lemma CombineDual(la: bool, lb: bool, x0: Bundle, x1: Bundle, xo: Bundle, xs: Bundle, delta: Block)
    ensures Dual(Combine(la, lb, x0, x1, xo, xs), delta)
         == Xor(Xor(Xor(Dual(xs, delta), Dual(xo, delta)), Select(la, Dual(x1, delta))), Select(lb, Dual(x0, delta)))
  {
    hide Dual, Add, Scale;
    DualAdd(xs, xo, delta);
    DualScale(la, x1, delta);
    DualScale(lb, x0, delta);
    DualAdd(Add(xs, xo), Scale(la, x1), delta);
    DualAdd(Add(Add(xs, xo), Scale(la, x1)), Scale(lb, x0), delta);
  }

  /** The half-gate AND: from operand labels that carry their masked bits the evaluator gets
  an output label that carries the masked product, and reads that bit off bit 1. */
  lemma HalfGateAnd(va: View, vb: View, a0: Bundle, a1: Bundle, ao: Bundle, asig: Bundle,
                    b0: Bundle, b1: Bundle, bo: Bundle, bsig: Bundle, k: nat, la: bool, lb: bool, La: Block, Lb: Block)
    requires AndShares(a0, a1, ao, asig, b0, b1, bo, bsig, va.delta, vb.delta)
    requires va.cipher == vb.cipher && va.linear == vb.linear && Lsb1(va.delta)
    ensures var lo := ((la != Opened(a0, b0)) && (lb != Opened(a1, b1))) != Opened(ao, bo);
      var garbled := GarbleAnd(va, a0, a1, ao, asig, k, La, Lb);
      EvalAnd(vb, b0, b1, bo, bsig, k, la, lb, Xor(La, Select(la, va.delta)), Xor(Lb, Select(lb, va.delta)), garbled.row)
        == Ungarbled(Xor(garbled.label0, Select(lo, va.delta)), lo)
  {
    hide Dual, Related, Combine;
    var d := va.delta;
    var lo := ((la != Opened(a0, b0)) && (lb != Opened(a1, b1))) != Opened(ao, bo);
    var ha0, ha1 := va.Hash(k, La), va.Hash(k, Xor(La, d));
    var hb0, hb1 := va.Hash(k, Lb), va.Hash(k, Xor(Lb, d));
    var D0, D1, Ds, Do := Dual(a0, d), Dual(a1, d), Dual(asig, d), Dual(ao, d);
    var ca, cb := Combine(la, lb, a0, a1, ao, asig), Combine(la, lb, b0, b1, bo, bsig);
    var ea, eb := Xor(La, Select(la, d)), Xor(Lb, Select(lb, d));
    var garbled := GarbleAnd(va, a0, a1, ao, asig, k, La, Lb);
    var row := garbled.row;
    // the garbler's side in terms of duals
    DualFolds(Xor(ha0, ha1), a1, d);
    DualFolds(Xor(Xor(hb0, hb1), La), a0, d);
    DualFolds(Xor(ha0, hb0), asig, d);
    DualFolds(Xor(Xor(ha0, hb0), Ds), ao, d);
    assert garbled.label0 == Xor(Xor(Xor(ha0, hb0), Ds), Do);
    // the evaluator's side
    XorGroup(La, ZERO, ZERO);
    XorGroup(Lb, ZERO, ZERO);
    FirstHalf(ha0, ha1, D1, la);
    SecondHalf(hb0, hb1, La, D0, d, la, lb);
    CombineOpens(la, lb, a0, a1, ao, asig, b0, b1, bo, bsig, d, vb.delta);
    CombineDual(la, lb, a0, a1, ao, asig, d);
    MacIsDual(ca, cb, d, vb.delta);
    var r := Opened(ca, cb);
    SelectLinear(lb, la, D0, d);
    SelectLinear(lb, lb, D0, Select(la, d));
    Rearrange(vb.Hash(k, ea), vb.Hash(k, eb), Select(la, row.g0), Select(lb, Xor(row.g1, ea)), cb.mac);
    Collect(ha0, hb0, Ds, Do, Select(la, D1), Select(lb, D0), Select(la && lb, d), Select(r, d));
    SelectLinear(la && lb, r, d, d);
    var t := Xor(garbled.label0, Select(lo, d));
    assert t[1] == (garbled.label0[1] != (lo && d[1]));
  }

  lemma Rearrange(ha: Block, hb: Block, x: Block, y: Block, m: Block)
    ensures Xor(Xor(Xor(Xor(ha, hb), x), y), m) == Xor(Xor(Xor(ha, x), Xor(hb, y)), m)
  {
    XorGroup(Xor(ha, hb), x, y);
    XorSwap(ha, hb, x, y);
  }

  /** The gamma check of one AND gate: the two blocks agree exactly when the bit Bob claims
  is the masked product. */
  lemma GammaExact(va: View, vb: View, a0: Bundle, a1: Bundle, ao: Bundle, asig: Bundle,
                   b0: Bundle, b1: Bundle, bo: Bundle, bsig: Bundle, la: bool, lb: bool, lg: bool)
    requires AndShares(a0, a1, ao, asig, b0, b1, bo, bsig, va.delta, vb.delta) && vb.delta != ZERO
    ensures AliceGamma(la, lb, a0, a1, ao, asig) == BobGamma(vb.delta, la, lb, lg, b0, b1, bo, bsig)
      <==> lg == (((la != Opened(a0, b0)) && (lb != Opened(a1, b1))) != Opened(ao, bo))
  {
    hide Related;
    var d := vb.delta;
    var ca, cb := Combine(la, lb, a0, a1, ao, asig), Combine(la, lb, b0, b1, bo, bsig);
    CombineOpens(la, lb, a0, a1, ao, asig, b0, b1, bo, bsig, va.delta, d);
    MacIsDual(ca, cb, va.delta, d);
    BobGammaIsDual(d, la, lb, lg, b0, b1, bo, bsig);
    var p, q := Opened(ca, cb), (la && lb) != lg;
    XorCancel(Xor(Dual(cb, d), Select(p, d)), Xor(Dual(cb, d), Select(q, d)));
    XorSwap(Dual(cb, d), Select(p, d), Dual(cb, d), Select(q, d));
    XorGroup(Dual(cb, d), ZERO, ZERO);
    SelectLinear(p, q, d, d);
    XorGroup(Select(p != q, d), ZERO, ZERO);
  }

  lemma BobGammaIsDual(d: Block, la: bool, lb: bool, lg: bool, b0: Bundle, b1: Bundle, bo: Bundle, bsig: Bundle)
    ensures BobGamma(d, la, lb, lg, b0, b1, bo, bsig)
         == Xor(Dual(Combine(la, lb, b0, b1, bo, bsig), d), Select((la && lb) != lg, d))
  {
    var c := Combine(la, lb, b0, b1, bo, bsig);
    AddBits(bsig, bo);
    AddBits(Add(bsig, bo), Scale(la, b1));
    AddBits(Add(Add(bsig, bo), Scale(la, b1)), Scale(lb, b0));
    ScaleBit(la, b1);
    ScaleBit(lb, b0);
    var q := (la && lb) != lg;
    var t1 := q != c.Bit();
    SelectLinear(q, c.Bit(), d, d);
    var m := BobGamma(d, la, lb, lg, b0, b1, bo, bsig);
    KeysReorder(Select(t1, d), Select(la, b1.key), Select(lb, b0.key), bsig.key, bo.key);
    XorGroup(c.key, Select(t1, d), ZERO);
    XorGroup(c.key, Select(c.Bit(), d), Select(q, d));
    XorGroup(Select(q, d), Select(c.Bit(), d), ZERO);
  }

  lemma KeysReorder(t: Block, x: Block, y: Block, s: Block, o: Block)
    ensures Xor(Xor(Xor(Xor(t, x), y), s), o) == Xor(t, Xor(Xor(Xor(s, o), x), y))
  {
    var l, r := Xor(Xor(Xor(Xor(t, x), y), s), o), Xor(t, Xor(Xor(Xor(s, o), x), y));
    assert forall i | 0 <= i < BLOCK_BITS :: l[i] == r[i];
  }
}

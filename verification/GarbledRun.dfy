/** A whole garbled program: the equations each party's walk solves, and what they imply for every wire. */
module GarbledRun {
  import opened Blocks
  import opened Auth
  import opened Programs
  import opened Garbling

  /** Gate `i` on the garbler's side. */
  predicate LabelHolds(p: Program, v: View, labels: seq<Block>, rows: seq<Row>, i: nat)
    requires Covers(p, v) && i < |p.gates| && Out(p, i) < |labels|
  {
    var g, out := p.gates[i], Out(p, i);
    assert p.Defined(i);
    match g.typ
    case AND =>
      AndIndex(p, i);
      var k := p.AndsBefore(i);
      && k < |rows|
      && Garbled(rows[k], labels[out]) ==
        GarbleAnd(v, v.shares[g.in0], v.shares[g.in1], v.shares[out], v.sigma[k], k, labels[g.in0], labels[g.in1])
    case XOR => labels[out] == Xor(labels[g.in0], labels[g.in1])
    case INV => labels[out] == Xor(labels[g.in0], v.delta)
  }

  /** Gate `i` on the evaluator's side. */
  predicate EvalHolds(p: Program, v: View, evals: seq<Block>, lambda: seq<bool>, rows: seq<Row>, i: nat)
    requires Covers(p, v) && i < |p.gates| && Out(p, i) < |evals| == |lambda|
  {
    var g, out := p.gates[i], Out(p, i);
    assert p.Defined(i);
    match g.typ
    case AND =>
      AndIndex(p, i);
      var k := p.AndsBefore(i);
      && k < |rows|
      && Ungarbled(evals[out], lambda[out]) ==
        EvalAnd(v, v.shares[g.in0], v.shares[g.in1], v.shares[out], v.sigma[k], k,
                lambda[g.in0], lambda[g.in1], evals[g.in0], evals[g.in1], rows[k])
    case XOR => evals[out] == Xor(evals[g.in0], evals[g.in1]) && lambda[out] == (lambda[g.in0] != lambda[g.in1])
    case INV => evals[out] == evals[g.in0] && lambda[out] == !lambda[g.in0]
  }

  /** Gate `i` of a walk over masked bits in which AND outputs are taken from `sent`. */
  predicate LambdaHolds(p: Program, sent: seq<bool>, lambda: seq<bool>, i: nat)
    requires p.Topological() && i < |p.gates| && Out(p, i) < |lambda|
  {
    var g, out := p.gates[i], Out(p, i);
    assert p.Defined(i);
    match g.typ
    case AND => p.AndsBefore(i) < |sent| && lambda[out] == sent[p.AndsBefore(i)]
    case XOR => lambda[out] == (lambda[g.in0] != lambda[g.in1])
    case INV => lambda[out] == !lambda[g.in0]
  }

  /** The shares of XOR and INV outputs follow from the operands'. */
  predicate ShareLinear(p: Program, shares: seq<Bundle>, i: nat)
    requires p.Topological() && i < |p.gates| && Out(p, i) < |shares|
  {
    var g, out := p.gates[i], Out(p, i);
    assert p.Defined(i);
    match g.typ
    case AND => true
    case XOR => shares[out] == Add(shares[g.in0], shares[g.in1])
    case INV => shares[out] == shares[g.in0]
  }

  /** The sigma shares of gate `i`, if it is an AND, stand for the product of its operands' masks. */
  predicate SigmaHolds(p: Program, va: View, vb: View, i: nat)
    requires Covers(p, va) && Covers(p, vb) && i < |p.gates|
  {
    if p.gates[i].typ != AND then true else
      AndIndex(p, i);
      assert p.Defined(i);
      var g, k := p.gates[i], p.AndsBefore(i);
      Opened(va.sigma[k], vb.sigma[k]) ==
        (Opened(va.shares[g.in0], vb.shares[g.in0]) && Opened(va.shares[g.in1], vb.shares[g.in1]))
  }

  /** The two parties' views of one program. */
  ghost predicate ViewsPaired(p: Program, va: View, vb: View)
    requires Covers(p, va) && Covers(p, vb)
  {
    && va.cipher == vb.cipher && va.linear == vb.linear
    && Lsb1(va.delta) && vb.delta != ZERO
    && AllRelated(va.shares, vb.shares, va.delta, vb.delta)
    && AllRelated(va.sigma, vb.sigma, va.delta, vb.delta)
    && (forall i :: 0 <= i < |p.gates| ==> ShareLinear(p, va.shares, i) && ShareLinear(p, vb.shares, i))
    && (forall i :: 0 <= i < |p.gates| ==> SigmaHolds(p, va, vb, i))
  }

  /** The two-party invariant of one wire: the masked bit hides the value under the two shares,
  and the evaluator's label is the garbler's zero label moved by that bit. */
  predicate WireInvariant(a: Bundle, b: Bundle, dA: Block, label0: Block, eval: Block, lambda: bool, value: bool) {
    && lambda == (value != Opened(a, b))
    && eval == Xor(label0, Select(lambda, dA))
  }

  predicate MaskedBits(p: Program, va: View, vb: View, lambda: seq<bool>, values: seq<bool>, n: nat)
    requires Covers(p, va) && Covers(p, vb) && |lambda| == |values| == p.numWires && n <= p.numWires
  {
    forall w :: 0 <= w < n ==> lambda[w] == (values[w] != Opened(va.shares[w], vb.shares[w]))
  }

  /** The mask two shares put on a wire. */
  predicate Mask(va: View, vb: View, wire: nat)
    requires wire < |va.shares| && wire < |vb.shares|
  {
    Opened(va.shares[wire], vb.shares[wire])
  }

  /** The masks of an XOR or INV output follow the masks of its operands. */
  lemma MaskLinear(p: Program, va: View, vb: View, i: nat)
    requires Covers(p, va) && Covers(p, vb) && ViewsPaired(p, va, vb) && i < |p.gates|
    ensures p.Defined(i)
    ensures p.gates[i].typ == XOR ==>
      Mask(va, vb, Out(p, i)) == (Mask(va, vb, p.gates[i].in0) != Mask(va, vb, p.gates[i].in1))
    ensures p.gates[i].typ == INV ==> Mask(va, vb, Out(p, i)) == Mask(va, vb, p.gates[i].in0)
  {
    assert p.Defined(i) && ShareLinear(p, va.shares, i) && ShareLinear(p, vb.shares, i);
    var g := p.gates[i];
    if g.typ == XOR {
      AddBits(va.shares[g.in0], va.shares[g.in1]);
      AddBits(vb.shares[g.in0], vb.shares[g.in1]);
    }
  }

  /** The shares of an AND gate meet what the gate algebra asks for. */
  lemma AndGateShares(p: Program, va: View, vb: View, i: nat)
    requires Covers(p, va) && Covers(p, vb) && ViewsPaired(p, va, vb) && i < |p.gates| && p.gates[i].typ == AND
    ensures p.Defined(i) && p.AndsBefore(i) < p.NumAnds()
    ensures var g, k, out := p.gates[i], p.AndsBefore(i), Out(p, i);
      AndShares(va.shares[g.in0], va.shares[g.in1], va.shares[out], va.sigma[k],
                vb.shares[g.in0], vb.shares[g.in1], vb.shares[out], vb.sigma[k], va.delta, vb.delta)
  {
    AndIndex(p, i);
    assert p.Defined(i) && SigmaHolds(p, va, vb, i);
  }

  /** One gate of an honest run carries the wire invariant from its operands to its output. */
  lemma GateInStep(p: Program, va: View, vb: View, labels: seq<Block>, rows: seq<Row>,
                   evals: seq<Block>, lambda: seq<bool>, values: seq<bool>, i: nat)
    requires Covers(p, va) && Covers(p, vb) && ViewsPaired(p, va, vb) && i < |p.gates|
    requires |labels| == |evals| == |lambda| == |values| == p.numWires && |rows| == p.NumAnds()
    requires LabelHolds(p, va, labels, rows, i) && EvalHolds(p, vb, evals, lambda, rows, i)
    requires p.Defined(i) && p.GateHolds(values, i)
    requires forall w :: 0 <= w < Out(p, i) ==>
      WireInvariant(va.shares[w], vb.shares[w], va.delta, labels[w], evals[w], lambda[w], values[w])
    ensures var out := Out(p, i);
      WireInvariant(va.shares[out], vb.shares[out], va.delta, labels[out], evals[out], lambda[out], values[out])
  {
    hide ViewsPaired, GarbleAnd, EvalAnd;
    var g, out, d := p.gates[i], Out(p, i), va.delta;
    MaskLinear(p, va, vb, i);
    match g.typ {
      case AND =>
        AndGateShares(p, va, vb, i);
        var k := p.AndsBefore(i);
        ViewsAgree(p, va, vb);
        HalfGateAnd(va, vb, va.shares[g.in0], va.shares[g.in1], va.shares[out], va.sigma[k],
                    vb.shares[g.in0], vb.shares[g.in1], vb.shares[out], vb.sigma[k],
                    k, lambda[g.in0], lambda[g.in1], labels[g.in0], labels[g.in1]);
      case XOR =>
        XorSwap(labels[g.in0], Select(lambda[g.in0], d), labels[g.in1], Select(lambda[g.in1], d));
        SelectLinear(lambda[g.in0], lambda[g.in1], d, d);
      case INV =>
        var l, e := labels[g.in0], Select(lambda[g.in0], d);
        XorGroup(l, d, Select(!lambda[g.in0], d));
        SelectLinear(true, !lambda[g.in0], d, d);
    }
  }

  lemma ViewsAgree(p: Program, va: View, vb: View)
    requires Covers(p, va) && Covers(p, vb) && ViewsPaired(p, va, vb)
    ensures va.cipher == vb.cipher && va.linear == vb.linear && Lsb1(va.delta) && vb.delta != ZERO
  {
  }

  predicate Shaped(p: Program, labels: seq<Block>, rows: seq<Row>, evals: seq<Block>, lambda: seq<bool>, values: seq<bool>) {
    |labels| == |evals| == |lambda| == |values| == p.numWires && |rows| == p.NumAnds()
  }

  /** Both parties followed the protocol on every gate, starting from inputs in step. */
  predicate Honest(p: Program, va: View, vb: View, labels: seq<Block>, rows: seq<Row>,
                   evals: seq<Block>, lambda: seq<bool>, values: seq<bool>)
    requires Covers(p, va) && Covers(p, vb) && Shaped(p, labels, rows, evals, lambda, values)
  {
    && (forall i :: 0 <= i < |p.gates| ==> LabelHolds(p, va, labels, rows, i))
    && (forall i :: 0 <= i < |p.gates| ==> EvalHolds(p, vb, evals, lambda, rows, i))
    && (forall i :: 0 <= i < |p.gates| ==> p.Defined(i) && p.GateHolds(values, i))
    && WiresInStep(p, va, vb, labels, evals, lambda, values, p.numInputs)
  }

  /** The first `n` wires satisfy the two-party invariant. */
  predicate WiresInStep(p: Program, va: View, vb: View, labels: seq<Block>,
                   evals: seq<Block>, lambda: seq<bool>, values: seq<bool>, n: nat)
    requires |va.shares| == |vb.shares| == |labels| == |evals| == |lambda| == |values| && n <= |values|
  {
    forall w :: 0 <= w < n ==>
      WireInvariant(va.shares[w], vb.shares[w], va.delta, labels[w], evals[w], lambda[w], values[w])
  }

  lemma OneMoreWire(p: Program, va: View, vb: View, labels: seq<Block>, rows: seq<Row>,
                    evals: seq<Block>, lambda: seq<bool>, values: seq<bool>, i: nat)
    requires Covers(p, va) && Covers(p, vb) && Shaped(p, labels, rows, evals, lambda, values)
    requires ViewsPaired(p, va, vb) && Honest(p, va, vb, labels, rows, evals, lambda, values)
    requires i < |p.gates| && WiresInStep(p, va, vb, labels, evals, lambda, values, Out(p, i))
    ensures WiresInStep(p, va, vb, labels, evals, lambda, values, Out(p, i) + 1)
  {
    hide ViewsPaired, LabelHolds, EvalHolds, WireInvariant, Program.GateHolds;
    GateInStep(p, va, vb, labels, rows, evals, lambda, values, i);
  }

  /** Every wire of an honest run satisfies the two-party invariant, whatever the program. */
  lemma {:induction false} RunInStep(p: Program, va: View, vb: View, labels: seq<Block>, rows: seq<Row>,
                                     evals: seq<Block>, lambda: seq<bool>, values: seq<bool>, n: nat)
    requires Covers(p, va) && Covers(p, vb) && Shaped(p, labels, rows, evals, lambda, values)
    requires ViewsPaired(p, va, vb) && Honest(p, va, vb, labels, rows, evals, lambda, values) && n <= |p.gates|
    ensures WiresInStep(p, va, vb, labels, evals, lambda, values, p.numInputs + n)
  {
    if n > 0 {
      hide ViewsPaired, Honest, WiresInStep;
      RunInStep(p, va, vb, labels, rows, evals, lambda, values, n - 1);
      OneMoreWire(p, va, vb, labels, rows, evals, lambda, values, n - 1);
    }
  }

  /** The two blocks hashed for gate `i` in the gamma check. */
  predicate GammaAgrees(p: Program, va: View, vb: View, sent: seq<bool>, lambda: seq<bool>, i: nat)
    requires Covers(p, va) && Covers(p, vb) && i < |p.gates| && |lambda| == p.numWires && |sent| == p.NumAnds()
  {
    if p.gates[i].typ != AND then true else
      AndIndex(p, i);
      assert p.Defined(i);
      var g, k, out := p.gates[i], p.AndsBefore(i), Out(p, i);
      AliceGamma(lambda[g.in0], lambda[g.in1], va.shares[g.in0], va.shares[g.in1], va.shares[out], va.sigma[k]) ==
      BobGamma(vb.delta, lambda[g.in0], lambda[g.in1], sent[k],
               vb.shares[g.in0], vb.shares[g.in1], vb.shares[out], vb.sigma[k])
  }

  /** Is the bit Bob sends for gate `i`, if it is an AND, the masked value of its output? */
  predicate SentTrue(p: Program, va: View, vb: View, sent: seq<bool>, values: seq<bool>, i: nat)
    requires Covers(p, va) && Covers(p, vb) && i < |p.gates| && |values| == p.numWires && |sent| == p.NumAnds()
  {
    if p.gates[i].typ != AND then true else
      AndIndex(p, i);
      sent[p.AndsBefore(i)] == (values[Out(p, i)] != Opened(va.shares[Out(p, i)], vb.shares[Out(p, i)]))
  }

  /** With true masked bits on all earlier wires, gate `i` passes the check exactly when its own bit is true. */
  lemma GateGamma(p: Program, va: View, vb: View, sent: seq<bool>, lambda: seq<bool>, values: seq<bool>, i: nat)
    requires Covers(p, va) && Covers(p, vb) && ViewsPaired(p, va, vb) && i < |p.gates|
    requires |lambda| == |values| == p.numWires && |sent| == p.NumAnds()
    requires p.Defined(i) && p.GateHolds(values, i) && LambdaHolds(p, sent, lambda, i)
    requires MaskedBits(p, va, vb, lambda, values, Out(p, i))
    ensures GammaAgrees(p, va, vb, sent, lambda, i) <==> SentTrue(p, va, vb, sent, values, i)
    ensures SentTrue(p, va, vb, sent, values, i) ==> MaskedBits(p, va, vb, lambda, values, Out(p, i) + 1)
  {
    hide ViewsPaired, AliceGamma, BobGamma;
    MaskLinear(p, va, vb, i);
    var g, out := p.gates[i], Out(p, i);
    if g.typ == AND {
      AndGateShares(p, va, vb, i);
      var k := p.AndsBefore(i);
      ViewsAgree(p, va, vb);
      GammaExact(va, vb, va.shares[g.in0], va.shares[g.in1], va.shares[out], va.sigma[k],
                 vb.shares[g.in0], vb.shares[g.in1], vb.shares[out], vb.sigma[k],
                 lambda[g.in0], lambda[g.in1], sent[k]);
    }
  }

  predicate AllAgree(p: Program, va: View, vb: View, sent: seq<bool>, lambda: seq<bool>, n: nat)
    requires Covers(p, va) && Covers(p, vb) && n <= |p.gates| && |lambda| == p.numWires && |sent| == p.NumAnds()
  {
    forall i :: 0 <= i < n ==> GammaAgrees(p, va, vb, sent, lambda, i)
  }

  predicate AllTrue(p: Program, va: View, vb: View, sent: seq<bool>, values: seq<bool>, n: nat)
    requires Covers(p, va) && Covers(p, vb) && n <= |p.gates| && |values| == p.numWires && |sent| == p.NumAnds()
  {
    forall i :: 0 <= i < n ==> SentTrue(p, va, vb, sent, values, i)
  }

  lemma OneMoreGate(p: Program, va: View, vb: View, sent: seq<bool>, lambda: seq<bool>, values: seq<bool>, n: nat)
    requires Covers(p, va) && Covers(p, vb) && n < |p.gates|
    requires |lambda| == |values| == p.numWires && |sent| == p.NumAnds()
    ensures AllAgree(p, va, vb, sent, lambda, n + 1) <==>
      AllAgree(p, va, vb, sent, lambda, n) && GammaAgrees(p, va, vb, sent, lambda, n)
    ensures AllTrue(p, va, vb, sent, values, n + 1) <==>
      AllTrue(p, va, vb, sent, values, n) && SentTrue(p, va, vb, sent, values, n)
  {
    hide GammaAgrees, SentTrue;
  }

  lemma NoGates(p: Program, va: View, vb: View, sent: seq<bool>, lambda: seq<bool>, values: seq<bool>)
    requires Covers(p, va) && Covers(p, vb) && |lambda| == |values| == p.numWires && |sent| == p.NumAnds()
    ensures AllAgree(p, va, vb, sent, lambda, 0) && AllTrue(p, va, vb, sent, values, 0)
  {
  }

  /** Masked bits that follow the program from `sent`, next to the values in the clear. */
  predicate FollowsSent(p: Program, sent: seq<bool>, lambda: seq<bool>, values: seq<bool>)
    requires p.Topological() && |lambda| == |values| == p.numWires && |sent| == p.NumAnds()
  {
    forall i :: 0 <= i < |p.gates| ==> p.Defined(i) && p.GateHolds(values, i) && LambdaHolds(p, sent, lambda, i)
  }

  /** The gamma check is exact: for whatever rows Bob was given, the two hash inputs agree at
  every gate if and only if every masked bit he sends is the true one. */
  lemma {:induction false} GammaCheckExact(p: Program, va: View, vb: View, sent: seq<bool>,
                                           lambda: seq<bool>, values: seq<bool>, n: nat)
    requires Covers(p, va) && Covers(p, vb) && ViewsPaired(p, va, vb) && n <= |p.gates|
    requires |lambda| == |values| == p.numWires && |sent| == p.NumAnds()
    requires FollowsSent(p, sent, lambda, values)
    requires MaskedBits(p, va, vb, lambda, values, p.numInputs)
    ensures AllAgree(p, va, vb, sent, lambda, n) <==> AllTrue(p, va, vb, sent, values, n)
    ensures AllTrue(p, va, vb, sent, values, n) ==> MaskedBits(p, va, vb, lambda, values, p.numInputs + n)
  {
    hide AllAgree, AllTrue, MaskedBits, LambdaHolds, Program.GateHolds, ViewsPaired, Covers;
    if n == 0 {
      NoGates(p, va, vb, sent, lambda, values);
    } else {
      GammaCheckExact(p, va, vb, sent, lambda, values, n - 1);
      OneMoreGate(p, va, vb, sent, lambda, values, n - 1);
      if AllTrue(p, va, vb, sent, values, n - 1) {
        GateGamma(p, va, vb, sent, lambda, values, n - 1);
      }
    }
  }
}

/** A session of two honest parties: programs run, outputs feed further programs, values are revealed. */
module Sessions {
  import opened Options
  import opened Blocks
  import opened Auth
  import opened Programs
  import opened Slots
  import opened Garbling
  import opened GarbledRun
  import opened Mitccrh
  import opened Triples
  import opened TriplePool
  import opened TripleGeneration
  import opened RunStates
  import opened Walks

  /** What the two parties' wires carry: related shares, and on every wire the two-party
  invariant for the given value. */
  predicate Carries(a: SecureWires, b: SecureWires, values: seq<bool>, dA: Block, dB: Block) {
    && a.Shaped(Alice) && b.Shaped(Bob) && |a.lambda| == |b.lambda| == |values|
    && AllRelated(a.bundle, b.bundle, dA, dB)
    && forall i :: 0 <= i < |values| ==>
      WireInvariant(a.bundle[i], b.bundle[i], dA, a.label0[i], b.eval[i], b.lambda[i], values[i])
  }

  /** ... and Alice knows the masked bits too. */
  predicate CarriesBoth(a: SecureWires, b: SecureWires, values: seq<bool>, dA: Block, dB: Block) {
    Carries(a, b, values, dA, dB) && a.lambda == b.lambda
  }

  /** A party holds labels of its own kind only. */
  predicate OwnLabels(w: SecureWires, party: Role) {
    if party == Alice then w.eval == [] else w.label0 == []
  }

  /** The shares computed by the two slot passes are related on every wire. */
  lemma {:induction false} SharesRelated(p: Program, drawsA: seq<Bundle>, drawsB: seq<Bundle>, dA: Block, dB: Block,
                                         a: seq<Bundle>, b: seq<Bundle>, n: nat)
    requires p.Topological() && n <= |p.gates| && |a| == |b| == p.numWires
    requires AllRelated(a[..p.numInputs], b[..p.numInputs], dA, dB) && AllRelated(drawsA, drawsB, dA, dB)
    requires forall i :: 0 <= i < |p.gates| ==> ShareHolds(p, drawsA, a, i)
    requires forall i :: 0 <= i < |p.gates| ==> ShareHolds(p, drawsB, b, i)
    ensures AllRelated(a[..p.numInputs + n], b[..p.numInputs + n], dA, dB)
  {
    if n > 0 {
      hide Related, ShareHolds;
      SharesRelated(p, drawsA, drawsB, dA, dB, a, b, n - 1);
      var m := p.numInputs + n - 1;
      assert forall w :: 0 <= w < m ==> a[..m][w] == a[w] && b[..m][w] == b[w];
      ShareRelated(p, drawsA, drawsB, dA, dB, a, b, n - 1);
    }
  }

  lemma ShareRelated(p: Program, drawsA: seq<Bundle>, drawsB: seq<Bundle>, dA: Block, dB: Block,
                     a: seq<Bundle>, b: seq<Bundle>, i: nat)
    requires p.Topological() && i < |p.gates| && |a| == |b| == p.numWires
    requires forall w :: 0 <= w < Out(p, i) ==> Related(a[w], b[w], dA, dB)
    requires AllRelated(drawsA, drawsB, dA, dB) && ShareHolds(p, drawsA, a, i) && ShareHolds(p, drawsB, b, i)
    ensures Related(a[Out(p, i)], b[Out(p, i)], dA, dB)
  {
    hide Related;
    var g := p.gates[i];
    assert p.Defined(i);
    if g.typ == XOR {
      RelatedAdd(a[g.in0], b[g.in0], a[g.in1], b[g.in1], dA, dB);
    }
  }

  /** What one party holds after its liveness and slot passes. */
  ghost predicate Prepared(s: RunState, p: Program, inputs: SecureWires, draws: seq<Bundle>, shares: seq<Bundle>)
    reads s, s.mitc
  {
    && s.Planned(p) && |s.wireSlot| == |s.maskInput| == s.numSlots
    && inputs.Shaped(s.party) && |inputs.lambda| == p.numInputs
    && |shares| == p.numWires && shares[..p.numInputs] == inputs.bundle
    && RunState.SharesUpTo(p, draws, shares, s.repA, s.repB, |p.gates|)
    && s.PassedGates(p, s.phys, inputs, shares, |p.gates|)
    && (s.party == Alice ==> inputs.label0 <= s.labelSlot && |s.labelSlot| == s.numSlots)
    && (s.party == Bob ==> inputs.eval <= s.evalSlot && |s.evalSlot| == s.numSlots)
    && s.mitc.Valid() && s.mitc.drawn == 0
  }

  /** The first half of run_program for one party. */
  method Prepare(party: Role, pool: Pool, p: Program, inputs: SecureWires,
                 cipher: (nat, Block) -> Block, linear: Block -> Block)
    returns (s: RunState, ghost shares: seq<Bundle>)
    requires p.Topological() && inputs.Shaped(party) && |inputs.lambda| == p.numInputs
    modifies pool`pos
    ensures fresh(s) && fresh(s.mitc) && s.party == party && s.delta == pool.delta
    ensures s.mitc.cipher == cipher && s.mitc.sigma == linear
    ensures Prepared(s, p, inputs, Drawn(pool.Current(), old(pool.pos), p.NumAnds()), shares)
    ensures pool.pos == old(pool.pos) + Batched(p.NumAnds())
  {
    var mitc := new Mitccrh8(cipher, linear);
    s := new RunState(party, pool.delta, inputs, mitc);
    s.LivenessPass(p);
    shares := s.SlotMaskPass(p, pool, inputs);
  }

  lemma SigmaPairs(p: Program, va: View, vb: View, i: nat, repA_A: seq<Bundle>, repB_A: seq<Bundle>,
                   repA_B: seq<Bundle>, repB_B: seq<Bundle>)
    requires Covers(p, va) && Covers(p, vb) && i < |p.gates|
    requires |repA_A| == |repB_A| == |repA_B| == |repB_B| == p.NumAnds()
    requires RunState.OperandsHold(p, repA_A, repB_A, va.shares, i)
    requires RunState.OperandsHold(p, repA_B, repB_B, vb.shares, i)
    requires forall k :: 0 <= k < p.NumAnds() ==>
      Opened(va.sigma[k], vb.sigma[k]) == (Opened(repA_A[k], repA_B[k]) && Opened(repB_A[k], repB_B[k]))
    ensures SigmaHolds(p, va, vb, i)
  {
    if p.gates[i].typ == AND {
      AndIndex(p, i);
      assert p.Defined(i);
    }
  }

  /** After the two slot passes and the triple generation the two views are paired. */
  lemma ViewsPair(p: Program, sa: RunState, sb: RunState, ia: SecureWires, ib: SecureWires,
                  drawsA: seq<Bundle>, drawsB: seq<Bundle>, a: seq<Bundle>, b: seq<Bundle>)
    requires Prepared(sa, p, ia, drawsA, a) && Prepared(sb, p, ib, drawsB, b)
    requires NormalDeltas(sa.delta, sb.delta)
    requires sa.mitc.cipher == sb.mitc.cipher && sa.mitc.sigma == sb.mitc.sigma
    requires AllRelated(ia.bundle, ib.bundle, sa.delta, sb.delta) && AllRelated(drawsA, drawsB, sa.delta, sb.delta)
    requires |sa.sigma| == |sb.sigma| == p.NumAnds() && AllRelated(sa.sigma, sb.sigma, sa.delta, sb.delta)
    requires |sa.repA| == |sa.repB| == |sb.repA| == |sb.repB| == p.NumAnds()
    requires forall k :: 0 <= k < p.NumAnds() ==>
      Opened(sa.sigma[k], sb.sigma[k]) == (Opened(sa.repA[k], sb.repA[k]) && Opened(sa.repB[k], sb.repB[k]))
    ensures Covers(p, ViewOf(sa, a)) && Covers(p, ViewOf(sb, b)) && ViewsPaired(p, ViewOf(sa, a), ViewOf(sb, b))
  {
    hide Related, ShareHolds, ShareLinear, SigmaHolds, RunState.OperandsHold;
    SharesRelated(p, drawsA, drawsB, sa.delta, sb.delta, a, b, |p.gates|);
    assert a[..p.numWires] == a && b[..p.numWires] == b;
    assert sb.delta[0] && !ZERO[0];
    forall i | 0 <= i < |p.gates|
      ensures ShareLinear(p, a, i) && ShareLinear(p, b, i) && SigmaHolds(p, ViewOf(sa, a), ViewOf(sb, b), i)
    {
      HoldsLinear(p, drawsA, a, i);
      HoldsLinear(p, drawsB, b, i);
      SigmaPairs(p, ViewOf(sa, a), ViewOf(sb, b), i, sa.repA, sa.repB, sb.repA, sb.repB);
    }
  }

  lemma HoldsLinear(p: Program, draws: seq<Bundle>, shares: seq<Bundle>, i: nat)
    requires p.Topological() && i < |p.gates| && Out(p, i) < |shares| && ShareHolds(p, draws, shares, i)
    ensures ShareLinear(p, shares, i)
  {
  }

  lemma SlotsHeld(s: RunState, p: Program, inputs: SecureWires, draws: seq<Bundle>, shares: seq<Bundle>)
    requires Prepared(s, p, inputs, draws, shares) && |s.sigma| == p.NumAnds()
    ensures Walking(s, p, shares, 0)
    ensures forall w :: 0 <= w < p.numInputs ==> s.maskInput[w] == inputs.lambda[w]
    ensures Holds(p, s.life, s.phys, s.maskInput, inputs.lambda, 0)
  {
    hide Describes, ShareHolds, ShareLinear, Allocate;
    WalkAgain(p, s.life, s.phys, s.wireSlot, shares);
    forall i | 0 <= i < |p.gates|
      ensures ShareLinear(p, shares, i)
    {
      HoldsLinear(p, draws, shares, i);
    }
    InputMasks(s, p, inputs);
    InputsHeld(p, s.life, s.phys, s.maskInput, inputs.lambda);
  }

  lemma InputMasks(s: RunState, p: Program, inputs: SecureWires)
    requires s.Planned(p) && |inputs.lambda| == p.numInputs && |s.maskInput| == s.numSlots
    requires Holds(p, s.life, s.phys, s.maskInput, s.BlankMasks(inputs.lambda, |p.gates|), |p.gates|)
    ensures p.numInputs <= |s.maskInput|
    ensures forall w :: 0 <= w < p.numInputs ==> s.maskInput[w] == inputs.lambda[w]
  {
    AllocationStable(p, s.life, 0, |p.gates|);
    forall w | 0 <= w < p.numInputs
      ensures s.maskInput[w] == inputs.lambda[w]
    {
      assert s.life.persist[w] && s.phys[w] == Allocate(p, s.life, 0).phys[w];
      assert s.life.Live(w, |p.gates|);
    }
  }

  lemma StartGarbler(s: RunState, p: Program, inputs: SecureWires, draws: seq<Bundle>, shares: seq<Bundle>)
    requires Prepared(s, p, inputs, draws, shares) && |s.sigma| == p.NumAnds() && s.party == Alice
    ensures AtGarbler(s, p, shares, inputs.label0, [], 0)
  {
    hide Describes, ShareHolds, ShareLinear, Allocate, Walking, Held;
    SlotsHeld(s, p, inputs, draws, shares);
    InputsHeld(p, s.life, s.phys, s.labelSlot, inputs.label0);
    WalkingPlanned(s, p, shares, 0);
  }

  lemma StartEvaluator(s: RunState, p: Program, inputs: SecureWires, draws: seq<Bundle>, shares: seq<Bundle>, rows: seq<Row>)
    requires Prepared(s, p, inputs, draws, shares) && |s.sigma| == p.NumAnds() && s.party == Bob
    requires |rows| == p.NumAnds() <= |s.lambdaAnd|
    ensures AtEvaluator(s, p, shares, inputs.eval, inputs.lambda, rows, [], 0)
  {
    hide Describes, ShareHolds, ShareLinear, Allocate, Walking, Held;
    SlotsHeld(s, p, inputs, draws, shares);
    InputsHeld(p, s.life, s.phys, s.evalSlot, inputs.eval);
    WalkingPlanned(s, p, shares, 0);
  }

  /** After the garbler's walk Alice's slots are ready for the gamma pass. */
  lemma StartGamma(s: RunState, p: Program, shares: seq<Bundle>, labels: seq<Block>, rows: seq<Row>, masks: seq<bool>)
    requires AtGarbler(s, p, shares, labels, rows, |p.gates|)
    requires |s.maskInput| == s.numSlots && |masks| == p.numInputs && |s.lambdaAnd| == p.NumAnds()
    requires Holds(p, s.life, s.phys, s.maskInput, masks, 0)
    ensures AtGammaPass(s, p, shares, masks, [], 0)
  {
    hide Describes, ShareLinear, Allocate;
    WalkAgain(p, s.life, s.phys, s.wireSlot, shares);
  }

  /** The honest run meets the hypotheses of the wire theorem, so both parties end in step. */
  lemma RunsInStep(p: Program, sa: RunState, sb: RunState, ia: SecureWires, ib: SecureWires, values: seq<bool>,
                   a: seq<Bundle>, b: seq<Bundle>, labels: seq<Block>, rows: seq<Row>,
                   evals: seq<Block>, lambda: seq<bool>, gamma: seq<Block>)
    requires AtGarbler(sa, p, a, labels, rows, |p.gates|)
    requires AtEvaluator(sb, p, b, evals, lambda, rows, gamma, |p.gates|)
    requires Covers(p, ViewOf(sa, a)) && Covers(p, ViewOf(sb, b)) && ViewsPaired(p, ViewOf(sa, a), ViewOf(sb, b))
    requires ia.Shaped(Alice) && ib.Shaped(Bob) && |values| == p.numInputs
    requires ia.label0 <= labels && ib.eval <= evals && ib.lambda <= lambda
    requires a[..p.numInputs] == ia.bundle && b[..p.numInputs] == ib.bundle
    requires Carries(ia, ib, values, sa.delta, sb.delta)
    ensures var wires := p.Wires(values, |p.gates|);
      WiresInStep(p, ViewOf(sa, a), ViewOf(sb, b), labels, evals, lambda, wires, p.numWires)
  {
    hide ViewsPaired, Walking, LabelHolds, EvalHolds, WireInvariant, GammaUpTo, Holds, Program.GateHolds;
    WalkingPlanned(sa, p, a, |p.gates|);
    var wires := p.Wires(values, |p.gates|);
    p.WiresSolve(values);
    assert wires[..p.numInputs] == values;
    forall w | 0 <= w < p.numInputs
      ensures WireInvariant(a[w], b[w], sa.delta, labels[w], evals[w], lambda[w], wires[w])
    {
      assert a[w] == a[..p.numInputs][w] && b[w] == b[..p.numInputs][w] && wires[w] == wires[..p.numInputs][w];
      assert labels[w] == ia.label0[w] && evals[w] == ib.eval[w] && lambda[w] == ib.lambda[w];
      assert WireInvariant(ia.bundle[w], ib.bundle[w], sa.delta, ia.label0[w], ib.eval[w], ib.lambda[w], values[w]);
    }
    RunInStep(p, ViewOf(sa, a), ViewOf(sb, b), labels, rows, evals, lambda, wires, |p.gates|);
  }

  /** Masked bits follow from the inputs' and the AND gates'. */
  lemma {:induction false} LambdaUnique(p: Program, sent: seq<bool>, sent': seq<bool>, x: seq<bool>, y: seq<bool>, n: nat)
    requires p.Topological() && |x| == |y| == p.numWires && n <= |p.gates|
    requires x[..p.numInputs] == y[..p.numInputs] && p.NumAnds() == |sent| <= |sent'| && sent == sent'[..|sent|]
    requires forall i :: 0 <= i < |p.gates| ==> LambdaHolds(p, sent, x, i)
    requires forall i :: 0 <= i < |p.gates| ==> LambdaHolds(p, sent', y, i)
    ensures x[..p.numInputs + n] == y[..p.numInputs + n]
  {
    if n > 0 {
      LambdaUnique(p, sent, sent', x, y, n - 1);
      var i := n - 1;
      var m := Out(p, i);
      assert p.Defined(i) && LambdaHolds(p, sent, x, i) && LambdaHolds(p, sent', y, i);
      assert forall w :: 0 <= w < m ==> x[w] == x[..m][w] == y[..m][w] == y[w];
      assert x[m] == y[m];
      assert x[..m + 1] == x[..m] + [x[m]] && y[..m + 1] == y[..m] + [y[m]];
    }
  }

  /** Two gamma transcripts that agree at every AND gate are the same. */
  lemma {:induction false} SameGamma(p: Program, va: View, vb: View, sent: seq<bool>, lambda: seq<bool>,
                                     x: seq<Block>, y: seq<Block>, n: nat)
    requires Covers(p, va) && Covers(p, vb) && n <= |p.gates| && |lambda| == p.numWires && |sent| == p.NumAnds()
    requires |x| == |y| == p.NumAnds() && AllAgree(p, va, vb, sent, lambda, |p.gates|)
    requires forall i :: 0 <= i < |p.gates| ==> LambdaHolds(p, sent, lambda, i)
    requires forall i :: 0 <= i < |p.gates| ==> AliceBlock(p, va, lambda, x, i)
    requires forall i :: 0 <= i < |p.gates| ==> GammaBlock(p, vb, lambda, y, i)
    ensures p.AndsBefore(n) <= p.NumAnds() && x[..p.AndsBefore(n)] == y[..p.AndsBefore(n)]
  {
    p.AndsMonotone(n, |p.gates|);
    if n > 0 {
      hide AliceGamma, BobGamma;
      SameGamma(p, va, vb, sent, lambda, x, y, n - 1);
      var i := n - 1;
      assert AliceBlock(p, va, lambda, x, i) && GammaBlock(p, vb, lambda, y, i) && LambdaHolds(p, sent, lambda, i);
      assert GammaAgrees(p, va, vb, sent, lambda, i);
      if p.gates[i].typ == AND {
        AndIndex(p, i);
        var k := p.AndsBefore(i);
        assert x[k] == y[k];
        assert x[..k + 1] == x[..k] + [x[k]] && y[..k + 1] == y[..k] + [y[k]];
      }
    }
  }

  /** In an honest run the two gamma transcripts are equal and Alice ends with Bob's masked bits. */
  lemma HonestGamma(p: Program, va: View, vb: View, values: seq<bool>, sent: seq<bool>, sentB: seq<bool>,
                    la: seq<bool>, lb: seq<bool>, ga: seq<Block>, gb: seq<Block>)
    requires Covers(p, va) && Covers(p, vb) && ViewsPaired(p, va, vb) && |values| == p.numInputs
    requires |la| == |lb| == p.numWires && la[..p.numInputs] == lb[..p.numInputs]
    requires |sent| == p.NumAnds() <= |sentB| && sent == sentB[..|sent|]
    requires AliceGammaUpTo(p, va, la, sent, ga, |p.gates|) && GammaUpTo(p, vb, lb, sentB, gb, |p.gates|)
    requires MaskedBits(p, va, vb, lb, p.Wires(values, |p.gates|), p.numWires)
    ensures la == lb && ga == gb
  {
    hide ViewsPaired, GammaAgrees, AliceBlock, GammaBlock, Program.GateHolds;
    LambdaUnique(p, sent, sentB, la, lb, |p.gates|);
    assert la[..p.numWires] == la && lb[..p.numWires] == lb;
    var wires := p.Wires(values, |p.gates|);
    p.WiresSolve(values);
    forall i | 0 <= i < |p.gates|
      ensures SentTrue(p, va, vb, sent, wires, i)
    {
      assert LambdaHolds(p, sent, la, i);
      if p.gates[i].typ == AND {
        AndIndex(p, i);
      }
    }
    assert AllTrue(p, va, vb, sent, wires, |p.gates|);
    GammaCheckExact(p, va, vb, sent, la, wires, |p.gates|);
    SameGamma(p, va, vb, sent, la, ga, gb, |p.gates|);
    assert ga[..p.NumAnds()] == ga && gb[..p.NumAnds()] == gb;
  }

  // ---- run_program ----

  datatype RunError = BadInputLength | BadInputShape | FeqMismatch
  datatype RunResult = Done(alice: SecureWires, bob: SecureWires) | Failed(error: RunError)

  /** What a session takes from the world: hash functions keyed by common transcripts, digests,
  and the bucket count, all the same for both parties. */
  datatype Env<!D(==)> = Env(tripleCipher: (nat, Block) -> Block, garbleCipher: (nat, Block) -> Block,
                             linear: Block -> Block, digest: seq<Block> -> D, rotation: nat -> nat, bucket: nat,
                             feqForged: Option<D>, gammaForged: Option<D>)
  {
    /** At least one bucket, and no digest replaced on its way to the other party. */
    predicate Honest() {
      bucket >= 1 && feqForged.None? && gammaForged.None?
    }
  }

  // ---- what a run computes ----

  /** Everything a run computes on its way: both parties' shares, the operands and sigma shares of the AND gates,
  the garbler's labels and rows, the evaluator's labels and masked bits, and the blocks of the gamma check. */
  datatype Trace = Trace(sharesA: seq<Bundle>, sharesB: seq<Bundle>,
                         aliceA: seq<Bundle>, aliceB: seq<Bundle>, bobA: seq<Bundle>, bobB: seq<Bundle>,
                         sigmaA: seq<Bundle>, sigmaB: seq<Bundle>, labels: seq<Block>, rows: seq<Row>,
                         evals: seq<Block>, lambda: seq<bool>, gamma: seq<Block>)

  /** The shares of one party: its inputs', one drawn from the pool's stream per AND gate, and the linear ones. */
  ghost predicate SharesFrom(p: Program, stream: (nat, nat) -> Bundle, session: nat, pos: nat, inputs: seq<Bundle>,
                             shares: seq<Bundle>, repA: seq<Bundle>, repB: seq<Bundle>)
    requires p.Topological()
  {
    && |shares| == p.numWires && |inputs| == p.numInputs && shares[..p.numInputs] == inputs && |repA| == |repB| == p.NumAnds()
    && (forall i :: 0 <= i < |p.gates| ==> ShareLinear(p, shares, i) && RunState.OperandsHold(p, repA, repB, shares, i))
    && forall i :: 0 <= i < |p.gates| && p.gates[i].typ == AND ==> shares[Out(p, i)] == stream(session, pos + p.AndsBefore(i))
  }

  /** The first half of a run that starts at position `pos` of both pools. */
  ghost predicate SharesTraced(p: Program, f: Source, pos: nat, ia: SecureWires, ib: SecureWires, t: Trace)
    requires p.Topological()
  {
    && SharesFrom(p, f.alice, f.session, pos, ia.bundle, t.sharesA, t.aliceA, t.aliceB)
    && SharesFrom(p, f.bob, f.session, pos, ib.bundle, t.sharesB, t.bobA, t.bobB)
  }

  /** The sigma shares are what opening the accumulator of the program's operands gives. */
  ghost predicate SigmasTraced<D>(p: Program, env: Env<D>, f: Source, pos: nat, t: Trace)
    requires p.Topological() && env.bucket >= 1
  {
    && |t.aliceA| == |t.aliceB| == |t.bobA| == |t.bobB| == |t.sigmaA| == |t.sigmaB| == p.NumAnds()
    && var acc := Accumulated(f, pos + Batched(p.NumAnds()), env.rotation, env.bucket, t.aliceA, t.aliceB, t.bobA, t.bobB);
       forall k :: 0 <= k < p.NumAnds() ==>
         (t.sigmaA[k], t.sigmaB[k]) == Sigma(acc[k], Opened(t.aliceA[k], t.bobA[k]), Opened(t.aliceB[k], t.bobB[k]), f.dA, f.dB)
  }

  /** Is the digest of the triple generation replaced by one that does not fit? */
  ghost predicate FeqRefused<D>(p: Program, env: Env<D>, f: Source, pos: nat, t: Trace)
    requires p.Topological() && env.bucket >= 1 && |t.aliceA| == |t.aliceB| == |t.bobA| == |t.bobB|
  {
    && p.NumAnds() > 0 && env.feqForged.Some?
    && env.feqForged.value != env.digest(WholeTranscript(env.tripleCipher, f, pos + Batched(p.NumAnds()), env.bucket, t.aliceA, t.aliceB, t.bobA, t.bobB))
  }

  /** ... and that of the gamma check? */
  ghost predicate GammaRefused<D>(p: Program, env: Env<D>, t: Trace)
    requires p.Topological()
  {
    p.NumAnds() > 0 && env.gammaForged.Some? && env.gammaForged.value != env.digest(t.gamma)
  }

  /** The second half: garbling, evaluating, and the evaluator's side of the gamma check. */
  ghost predicate WalksTraced<D>(p: Program, env: Env<D>, f: Source, ia: SecureWires, ib: SecureWires, t: Trace)
    requires p.Topological()
  {
    && |t.sharesA| == |t.sharesB| == |t.labels| == |t.evals| == |t.lambda| == p.numWires
    && |t.sigmaA| == |t.sigmaB| == |t.gamma| == p.NumAnds()
    && var va := View(f.dA, t.sharesA, t.sigmaA, env.garbleCipher, env.linear);
       var vb := View(f.dB, t.sharesB, t.sigmaB, env.garbleCipher, env.linear);
       && ia.label0 <= t.labels && ib.eval <= t.evals && ib.lambda <= t.lambda
       && LabelsUpTo(p, va, t.labels, t.rows, |p.gates|) && EvalsUpTo(p, vb, t.evals, t.lambda, t.rows, |p.gates|)
       && forall i :: 0 <= i < |p.gates| ==> GammaBlock(p, vb, t.lambda, t.gamma, i)
  }

  lemma StepMasks(p: Program, va: View, vb: View, labels: seq<Block>, evals: seq<Block>, lambda: seq<bool>, values: seq<bool>)
    requires Covers(p, va) && Covers(p, vb) && |labels| == |evals| == |lambda| == |values| == p.numWires
    requires WiresInStep(p, va, vb, labels, evals, lambda, values, p.numWires)
    ensures MaskedBits(p, va, vb, lambda, values, p.numWires)
  {
    forall w | 0 <= w < p.numWires
      ensures lambda[w] == (values[w] != Opened(va.shares[w], vb.shares[w]))
    {
      assert WireInvariant(va.shares[w], vb.shares[w], va.delta, labels[w], evals[w], lambda[w], values[w]);
    }
  }

  /** The garbler's walk against the evaluator's. */
  method GarbleAndEvaluate(p: Program, sa: RunState, sb: RunState, ia: SecureWires, ib: SecureWires,
                           ghost values: seq<bool>, ghost a: seq<Bundle>, ghost b: seq<Bundle>,
                           ghost drawsA: seq<Bundle>, ghost drawsB: seq<Bundle>)
    returns (gammaB: seq<Block>, ghost labels: seq<Block>, ghost evals: seq<Block>,
             ghost lambda: seq<bool>, ghost rows: seq<Row>)
    requires sa != sb && sa.mitc != sb.mitc && sa.party == Alice && sb.party == Bob
    requires Prepared(sa, p, ia, drawsA, a) && Prepared(sb, p, ib, drawsB, b)
    requires |sa.sigma| == |sb.sigma| == p.NumAnds() && p.NumAnds() <= |sb.lambdaAnd|
    requires ViewsPaired(p, ViewOf(sa, a), ViewOf(sb, b))
    requires |values| == p.numInputs && CarriesBoth(ia, ib, values, sa.delta, sb.delta)
    modifies sa`wireSlot, sa`labelSlot, sa.mitc, sb`wireSlot, sb`evalSlot, sb`maskInput, sb`lambdaAnd, sb.mitc
    ensures AtGarbler(sa, p, a, labels, rows, |p.gates|)
    ensures AtEvaluator(sb, p, b, evals, lambda, rows, gammaB, |p.gates|)
    ensures ia.label0 <= labels && ib.eval <= evals && ib.lambda <= lambda
    ensures WiresInStep(p, ViewOf(sa, a), ViewOf(sb, b), labels, evals, lambda, p.Wires(values, |p.gates|), p.numWires)
  {
    hide ViewsPaired, Walking, LabelsUpTo, EvalsUpTo, Describes, Allocate, WiresInStep, Holds;
    StartGarbler(sa, p, ia, drawsA, a);
    var sent;
    sent, labels, rows := GarblerPath(sa, p, a, ia.label0);
    WalkingPlanned(sa, p, a, |p.gates|);
    AndsKnown(p, rows, ViewOf(sa, a), labels, |p.gates|);
    StartEvaluator(sb, p, ib, drawsB, b, rows);
    gammaB, evals, lambda := EvaluatorPath(sb, p, sent, rows, b, ib.eval, ib.lambda);
    RunsInStep(p, sa, sb, ia, ib, values, a, b, labels, rows, evals, lambda, gammaB);
  }

  /** The gamma check: Bob sends his masked bits, Alice hashes hers, Bob compares what arrives with his own. */
  method GammaCheck<D(==)>(p: Program, env: Env<D>, sa: RunState, sb: RunState, ghost masks: seq<bool>, gammaB: seq<Block>,
                           ghost values: seq<bool>, ghost a: seq<Bundle>, ghost b: seq<Bundle>, ghost labels: seq<Block>,
                           ghost evals: seq<Block>, ghost lambda: seq<bool>, ghost rows: seq<Row>)
    returns (ok: bool)
    requires sa != sb && AtGarbler(sa, p, a, labels, rows, |p.gates|)
    requires AtEvaluator(sb, p, b, evals, lambda, rows, gammaB, |p.gates|)
    requires |values| == p.numInputs && ViewsPaired(p, ViewOf(sa, a), ViewOf(sb, b))
    requires WiresInStep(p, ViewOf(sa, a), ViewOf(sb, b), labels, evals, lambda, p.Wires(values, |p.gates|), p.numWires)
    requires |sa.maskInput| == sa.numSlots && |masks| == p.numInputs && masks <= lambda
    requires Holds(p, sa.life, sa.phys, sa.maskInput, masks, 0)
    modifies sa`wireSlot, sa`maskInput, sa`lambdaAnd
    ensures ok <==> env.gammaForged.None? || env.gammaForged.value == env.digest(gammaB)
    ensures Walking(sa, p, a, |p.gates|) && Holds(p, sa.life, sa.phys, sa.maskInput, lambda, |p.gates|)
  {
    hide ViewsPaired, Walking, LabelsUpTo, EvalsUpTo, GammaUpTo, AliceGammaUpTo, Describes, Allocate, WiresInStep, Holds;
    WalkingPlanned(sa, p, a, |p.gates|);
    WalkingPlanned(sb, p, b, |p.gates|);
    GammaCount(p, ViewOf(sb, b), lambda, sb.lambdaAnd, gammaB, |p.gates|);
    sa.lambdaAnd := sb.lambdaAnd[..sa.numAnds];
    StartGamma(sa, p, a, labels, rows, masks);
    ghost var la;
    var gammaA;
    gammaA, la := GammaPass(sa, p, a, masks);
    StepMasks(p, ViewOf(sa, a), ViewOf(sb, b), labels, evals, lambda, p.Wires(values, |p.gates|));
    assert la[..p.numInputs] == masks == lambda[..p.numInputs];
    HonestGamma(p, ViewOf(sa, a), ViewOf(sb, b), values, sa.lambdaAnd, sb.lambdaAnd, la, lambda, gammaA, gammaB);
    var received := if env.gammaForged.Some? then env.gammaForged.value else env.digest(gammaA);
    ok := env.digest(gammaB) == received;
  }

  /** ag2pc_gather_outputs */
  method GatherOutputs(s: RunState, p: Program, ghost shares: seq<Bundle>, ghost labels: seq<Block>, ghost masks: seq<bool>)
    returns (out: SecureWires)
    requires Walking(s, p, shares, |p.gates|) && |labels| == |masks| == p.numWires
    requires Holds(p, s.life, s.phys, s.maskInput, masks, |p.gates|)
    requires s.party == Alice ==> Holds(p, s.life, s.phys, s.labelSlot, labels, |p.gates|)
    requires s.party == Bob ==> Holds(p, s.life, s.phys, s.evalSlot, labels, |p.gates|)
    ensures out.Shaped(s.party) && |out.lambda| == |p.outputs| && OwnLabels(out, s.party)
    ensures |shares| == p.numWires && forall j :: 0 <= j < |p.outputs| ==>
      && p.outputs[j] < p.numWires
      && out.bundle[j] == shares[p.outputs[j]] && out.lambda[j] == masks[p.outputs[j]]
    ensures s.party == Alice ==> forall j :: 0 <= j < |p.outputs| ==> out.label0[j] == labels[p.outputs[j]]
    ensures s.party == Bob ==> forall j :: 0 <= j < |p.outputs| ==> out.eval[j] == labels[p.outputs[j]]
  {
    hide Holds, Describes, Allocate;
    FinalShares(s, p, shares);
    var lambda := Gather(s, p, s.maskInput, masks);
    var bundle := Gather(s, p, s.wireSlot, shares);
    var label0, eval := [], [];
    if s.party == Alice {
      label0 := Gather(s, p, s.labelSlot, labels);
    } else {
      eval := Gather(s, p, s.evalSlot, labels);
    }
    out := SecureWires(lambda, bundle, label0, eval);
  }

  lemma FinalShares(s: RunState, p: Program, shares: seq<Bundle>)
    requires Walking(s, p, shares, |p.gates|)
    ensures |shares| == p.numWires && s.Planned(p)
    ensures Holds(p, s.life, s.phys, s.wireSlot, shares, |p.gates|)
  {
  }

  /** Outputs picked from wires in step are in step. */
  lemma OutputsInStep(p: Program, va: View, vb: View, labels: seq<Block>, evals: seq<Block>, lambda: seq<bool>,
                      values: seq<bool>, masks: seq<bool>, oa: SecureWires, ob: SecureWires)
    requires Covers(p, va) && Covers(p, vb) && ViewsPaired(p, va, vb) && |values| == p.numInputs
    requires |labels| == |evals| == |lambda| == |masks| == p.numWires
    requires WiresInStep(p, va, vb, labels, evals, lambda, p.Wires(values, |p.gates|), p.numWires)
    requires oa.Shaped(Alice) && ob.Shaped(Bob) && |oa.lambda| == |ob.lambda| == |p.outputs|
    requires forall j :: 0 <= j < |p.outputs| ==>
      && p.outputs[j] < p.numWires
      && oa.bundle[j] == va.shares[p.outputs[j]] && oa.lambda[j] == masks[p.outputs[j]] && oa.label0[j] == labels[p.outputs[j]]
    requires forall j :: 0 <= j < |p.outputs| ==>
      && p.outputs[j] < p.numWires
      && ob.bundle[j] == vb.shares[p.outputs[j]] && ob.lambda[j] == lambda[p.outputs[j]] && ob.eval[j] == evals[p.outputs[j]]
    ensures Carries(oa, ob, p.Eval(values), va.delta, vb.delta)
    ensures masks == lambda ==> oa.lambda == ob.lambda
  {
    hide WireInvariant, Related;
    var wires := p.Wires(values, |p.gates|);
    forall j | 0 <= j < |p.outputs|
      ensures Related(oa.bundle[j], ob.bundle[j], va.delta, vb.delta)
      ensures WireInvariant(oa.bundle[j], ob.bundle[j], va.delta, oa.label0[j], ob.eval[j], ob.lambda[j], p.Eval(values)[j])
    {
      var w := p.outputs[j];
      assert Related(va.shares[w], vb.shares[w], va.delta, vb.delta);
      assert WireInvariant(va.shares[w], vb.shares[w], va.delta, labels[w], evals[w], lambda[w], wires[w]);
    }
  }

  /** Two prepared states that belong together. */
  ghost predicate BothPrepared(p: Program, sa: RunState, sb: RunState, ia: SecureWires, ib: SecureWires,
                               drawsA: seq<Bundle>, drawsB: seq<Bundle>, a: seq<Bundle>, b: seq<Bundle>)
    reads sa, sb, sa.mitc, sb.mitc
  {
    && sa != sb && sa.mitc != sb.mitc && sa.party == Alice && sb.party == Bob
    && sa.mitc.cipher == sb.mitc.cipher && sa.mitc.sigma == sb.mitc.sigma
    && Prepared(sa, p, ia, drawsA, a) && Prepared(sb, p, ib, drawsB, b)
    && AllRelated(drawsA, drawsB, sa.delta, sb.delta)
  }

  /** The slot passes of both parties. */
  method PrepareBoth<D(==)>(alice: Pool, bob: Pool, p: Program, env: Env<D>, ia: SecureWires, ib: SecureWires)
    returns (sa: RunState, sb: RunState, ghost a: seq<Bundle>, ghost b: seq<Bundle>,
             ghost drawsA: seq<Bundle>, ghost drawsB: seq<Bundle>)
    requires PoolsPaired(alice, bob) && p.Topological()
    requires ia.Shaped(Alice) && ib.Shaped(Bob) && |ia.lambda| == |ib.lambda| == p.numInputs
    modifies alice`pos, bob`pos
    ensures PoolsPaired(alice, bob) && alice.pos == old(alice.pos) + Batched(p.NumAnds())
    ensures fresh({sa, sb, sa.mitc, sb.mitc}) && sa.delta == alice.delta && sb.delta == bob.delta
    ensures BothPrepared(p, sa, sb, ia, ib, drawsA, drawsB, a, b)
    ensures sa.mitc.cipher == env.garbleCipher && sa.mitc.sigma == env.linear
    ensures drawsA == Drawn(alice.Current(), old(alice.pos), p.NumAnds()) && drawsB == Drawn(bob.Current(), old(bob.pos), p.NumAnds())
  {
    hide Related, Batched, RunState.SharesUpTo, RunState.PassedGates, RunState.Planned;
    drawsA, drawsB := Drawn(alice.Current(), alice.pos, p.NumAnds()), Drawn(bob.Current(), bob.pos, p.NumAnds());
    sa, a := Prepare(Alice, alice, p, ia, env.garbleCipher, env.linear);
    sb, b := Prepare(Bob, bob, p, ib, env.garbleCipher, env.linear);
  }

  /** The triple generation for the program's AND gates. */
  method Sigmas<D(==)>(alice: Pool, bob: Pool, p: Program, env: Env<D>, sa: RunState, sb: RunState,
                       ia: SecureWires, ib: SecureWires, ghost drawsA: seq<Bundle>, ghost drawsB: seq<Bundle>,
                       ghost a: seq<Bundle>, ghost b: seq<Bundle>) returns (ok: bool)
    requires PoolsPaired(alice, bob) && env.bucket >= 1
    requires BothPrepared(p, sa, sb, ia, ib, drawsA, drawsB, a, b) && sa.delta == alice.delta && sb.delta == bob.delta
    requires AllRelated(ia.bundle, ib.bundle, sa.delta, sb.delta)
    modifies alice`pos, bob`pos, sa`sigma, sb`sigma, sa`lambdaAnd, sb`lambdaAnd
    ensures PoolsPaired(alice, bob) && BothPrepared(p, sa, sb, ia, ib, drawsA, drawsB, a, b)
    ensures alice.pos == old(alice.pos) + p.NumAnds() * (3 * env.bucket - 2)
    ensures |sa.repA| == |sa.repB| == |sb.repA| == |sb.repB| == p.NumAnds()
    ensures !ok <==>
      && p.NumAnds() > 0 && env.feqForged.Some?
      && env.feqForged.value != env.digest(WholeTranscript(env.tripleCipher, SourceOf(alice, bob), old(alice.pos), env.bucket, sa.repA, sa.repB, sb.repA, sb.repB))
    ensures ok ==>
      && |sa.sigma| == |sb.sigma| == p.NumAnds() && p.NumAnds() <= |sb.lambdaAnd|
      && Covers(p, ViewOf(sa, a)) && Covers(p, ViewOf(sb, b)) && ViewsPaired(p, ViewOf(sa, a), ViewOf(sb, b))
      && var acc := Accumulated(SourceOf(alice, bob), old(alice.pos), env.rotation, env.bucket, sa.repA, sa.repB, sb.repA, sb.repB);
         forall k :: 0 <= k < p.NumAnds() ==>
           (sa.sigma[k], sb.sigma[k]) == Sigma(acc[k], Opened(sa.repA[k], sb.repA[k]), Opened(sa.repB[k], sb.repB[k]), alice.delta, bob.delta)
  {
    hide Related, ViewsPaired, Opened, RunState.SharesUpTo, Holds, Describes, Allocate, Accumulated, WholeTranscript, Sigma, StreamsRelated;
    Recorded(sa, sb, p, ia, ib, drawsA, drawsB, a, b);
    var sigmas := ComputeInplace(alice, bob, env.tripleCipher, env.linear, env.digest, env.feqForged, env.rotation, env.bucket,
                                 sa.repA, sa.repB, sb.repA, sb.repB);
    if sigmas.FeqMismatch? {
      return false;
    }
    ok := true;
    sa.sigma, sb.sigma := sigmas.value.0, sigmas.value.1;
    var n := if sa.numAnds > 1 then sa.numAnds else 1;
    sa.lambdaAnd, sb.lambdaAnd := NoBits(n), NoBits(n);
    ViewsPair(p, sa, sb, ia, ib, drawsA, drawsB, a, b);
  }

  lemma Recorded(sa: RunState, sb: RunState, p: Program, ia: SecureWires, ib: SecureWires,
                 drawsA: seq<Bundle>, drawsB: seq<Bundle>, a: seq<Bundle>, b: seq<Bundle>)
    requires Prepared(sa, p, ia, drawsA, a) && Prepared(sb, p, ib, drawsB, b)
    requires AllRelated(ia.bundle, ib.bundle, sa.delta, sb.delta) && AllRelated(drawsA, drawsB, sa.delta, sb.delta)
    ensures |sa.repA| == |sa.repB| == |sb.repA| == |sb.repB| == p.NumAnds()
    ensures AllRelated(sa.repA, sb.repA, sa.delta, sb.delta) && AllRelated(sa.repB, sb.repB, sa.delta, sb.delta)
  {
    hide Related, ShareHolds;
    SharesRelated(p, drawsA, drawsB, sa.delta, sb.delta, a, b, |p.gates|);
    assert a[..p.numWires] == a && b[..p.numWires] == b;
    forall k | 0 <= k < p.NumAnds()
      ensures Related(sa.repA[k], sb.repA[k], sa.delta, sb.delta) && Related(sa.repB[k], sb.repB[k], sa.delta, sb.delta)
    {
      var i := AndAt(p, k, |p.gates|);
      assert p.Defined(i) && RunState.OperandsHold(p, sa.repA, sa.repB, a, i) && RunState.OperandsHold(p, sb.repA, sb.repB, b, i);
    }
  }

  /** The gate whose AND has index `k`. */
  lemma {:induction false} AndAt(p: Program, k: nat, n: nat) returns (i: nat)
    requires n <= |p.gates| && k < p.AndsBefore(n)
    ensures i < n && p.gates[i].typ == AND && p.AndsBefore(i) == k
  {
    if k < p.AndsBefore(n - 1) {
      i := AndAt(p, k, n - 1);
    } else {
      i := n - 1;
    }
  }

  /** Without AND gates Bob's masked bits are the program run on his masked input bits. */
  lemma WithoutAnds(p: Program, v: View, inputs: seq<bool>, evals: seq<Block>, lambda: seq<bool>, rows: seq<Row>)
    requires Covers(p, v) && p.NumAnds() == 0 && |inputs| == p.numInputs
    requires |evals| == |lambda| == p.numWires && inputs <= lambda
    requires EvalsUpTo(p, v, evals, lambda, rows, |p.gates|)
    ensures lambda == p.Wires(inputs, |p.gates|)
  {
    hide EvalAnd;
    forall i | 0 <= i < |p.gates|
      ensures p.Defined(i) && p.GateHolds(lambda, i)
    {
      assert p.Defined(i) && EvalHolds(p, v, evals, lambda, rows, i);
      if p.gates[i].typ == AND {
        AndIndex(p, i);
      }
    }
    p.WiresSolve(inputs);
    var wires := p.Wires(inputs, |p.gates|);
    p.SolutionUnique(inputs, lambda, wires, p.numWires);
    assert lambda[..p.numWires] == lambda && wires[..p.numWires] == wires;
  }

  /** The second half of run_program on both sides. */
  method Finish<D(==)>(p: Program, env: Env<D>, sa: RunState, sb: RunState, ia: SecureWires, ib: SecureWires,
                       ghost values: seq<bool>, ghost a: seq<Bundle>, ghost b: seq<Bundle>,
                       ghost drawsA: seq<Bundle>, ghost drawsB: seq<Bundle>)
    returns (r: RunResult, ghost labels: seq<Block>, ghost rows: seq<Row>, ghost evals: seq<Block>, ghost lambda: seq<bool>, ghost gamma: seq<Block>)
    requires BothPrepared(p, sa, sb, ia, ib, drawsA, drawsB, a, b)
    requires |sa.sigma| == |sb.sigma| == p.NumAnds() && p.NumAnds() <= |sb.lambdaAnd|
    requires ViewsPaired(p, ViewOf(sa, a), ViewOf(sb, b))
    requires |values| == p.numInputs && CarriesBoth(ia, ib, values, sa.delta, sb.delta)
    modifies sa`wireSlot, sa`labelSlot, sa`maskInput, sa`lambdaAnd, sa.mitc, sb`wireSlot, sb`evalSlot, sb`maskInput, sb`lambdaAnd, sb.mitc
    ensures Covers(p, ViewOf(sa, a)) && Covers(p, ViewOf(sb, b)) && |labels| == |evals| == |lambda| == p.numWires && |gamma| == p.NumAnds()
    ensures ia.label0 <= labels && ib.eval <= evals && ib.lambda <= lambda
    ensures LabelsUpTo(p, ViewOf(sa, a), labels, rows, |p.gates|) && EvalsUpTo(p, ViewOf(sb, b), evals, lambda, rows, |p.gates|)
    ensures forall i :: 0 <= i < |p.gates| ==> GammaBlock(p, ViewOf(sb, b), lambda, gamma, i)
    ensures r == Failed(RunError.FeqMismatch) || r.Done?
    ensures r.Failed? <==> p.NumAnds() > 0 && env.gammaForged.Some? && env.gammaForged.value != env.digest(gamma)
    ensures r.Done? ==> Carries(r.alice, r.bob, p.Eval(values), sa.delta, sb.delta) && OwnLabels(r.alice, Alice) && OwnLabels(r.bob, Bob)
    ensures r.Done? ==> PickedOutputs(p, a, b, labels, evals, lambda, r.alice, r.bob)
    ensures r.Done? && p.NumAnds() > 0 ==> r.alice.lambda == r.bob.lambda
    ensures r.Done? && p.NumAnds() == 0 ==> r.bob.lambda == p.Eval(ib.lambda)
    ensures r.Done? && p.NumAnds() == 0 ==> |r.alice.lambda| == |p.outputs| && forall j :: 0 <= j < |p.outputs| ==>
      r.alice.lambda[j] == (p.outputs[j] < p.numInputs && ia.lambda[p.outputs[j]])
  {
    hide Related, ViewsPaired, WiresInStep, WireInvariant, Holds, Walking, GammaUpTo, EvalsUpTo, LabelsUpTo, RunState.SharesUpTo, PickedOutputs, GammaBlock;
    hide Prepared, AtGarbler, AtEvaluator, Carries, RunState.Planned, Covers;
    PreparedParts(sa, p, ia, drawsA, a);
    PreparedParts(sb, p, ib, drawsB, b);
    SlotsHeld(sa, p, ia, drawsA, a);
    var gammaB;
    gammaB, labels, evals, lambda, rows := GarbleAndEvaluate(p, sa, sb, ia, ib, values, a, b, drawsA, drawsB);
    gamma := gammaB;
    WalksEnd(p, sa, sb, a, b, labels, rows, evals, lambda, gamma);
    ghost var masks := sa.BlankMasks(ia.lambda, |p.gates|);
    if p.NumAnds() == 0 {
      WithoutAnds(p, ViewOf(sb, b), ib.lambda, evals, lambda, rows);
    }
    if sa.numAnds > 0 {
      var ok := GammaCheck(p, env, sa, sb, ia.lambda, gammaB, values, a, b, labels, evals, lambda, rows);
      if !ok {
        r := Failed(RunError.FeqMismatch);
        return;
      }
      masks := lambda;
    }
    var oa := GatherOutputs(sa, p, a, labels, masks);
    var ob := GatherOutputs(sb, p, b, evals, lambda);
    OutputsInStep(p, ViewOf(sa, a), ViewOf(sb, b), labels, evals, lambda, values, masks, oa, ob);
    OutputsPicked(p, a, b, labels, evals, lambda, oa, ob);
    r := Done(oa, ob);
  }

  lemma PreparedParts(s: RunState, p: Program, inputs: SecureWires, draws: seq<Bundle>, shares: seq<Bundle>)
    requires Prepared(s, p, inputs, draws, shares)
    ensures p.Topological() && s.numAnds == p.NumAnds() && |shares| == p.numWires && |inputs.lambda| == p.numInputs
    ensures |s.maskInput| == s.numSlots && s.Planned(p)
    ensures |s.phys| == p.numWires && Sized(p, s.life) && Holds(p, s.life, s.phys, s.maskInput, s.BlankMasks(inputs.lambda, |p.gates|), |p.gates|)
  {
  }

  lemma WalksEnd(p: Program, sa: RunState, sb: RunState, a: seq<Bundle>, b: seq<Bundle>, labels: seq<Block>, rows: seq<Row>,
                 evals: seq<Block>, lambda: seq<bool>, gamma: seq<Block>)
    requires AtGarbler(sa, p, a, labels, rows, |p.gates|) && AtEvaluator(sb, p, b, evals, lambda, rows, gamma, |p.gates|)
    ensures Walking(sa, p, a, |p.gates|) && Walking(sb, p, b, |p.gates|)
    ensures Covers(p, ViewOf(sa, a)) && Covers(p, ViewOf(sb, b)) && |labels| == |evals| == |lambda| == p.numWires && |gamma| == p.NumAnds()
    ensures LabelsUpTo(p, ViewOf(sa, a), labels, rows, |p.gates|) && EvalsUpTo(p, ViewOf(sb, b), evals, lambda, rows, |p.gates|)
    ensures forall i :: 0 <= i < |p.gates| ==> GammaBlock(p, ViewOf(sb, b), lambda, gamma, i)
    ensures Holds(p, sa.life, sa.phys, sa.labelSlot, labels, |p.gates|)
    ensures Holds(p, sb.life, sb.phys, sb.evalSlot, evals, |p.gates|) && Holds(p, sb.life, sb.phys, sb.maskInput, lambda, |p.gates|)
  {
    hide Holds, LabelsUpTo, EvalsUpTo, GammaBlock, GammaUpTo, Allocate, Describes;
    WalkingPlanned(sa, p, a, |p.gates|);
    WalkingPlanned(sb, p, b, |p.gates|);
    GammaBlocks(p, ViewOf(sb, b), lambda, sb.lambdaAnd, gamma);
  }

  lemma GammaBlocks(p: Program, v: View, lambda: seq<bool>, sent: seq<bool>, gamma: seq<Block>)
    requires Covers(p, v) && |lambda| == p.numWires && GammaUpTo(p, v, lambda, sent, gamma, |p.gates|)
    ensures |gamma| == p.NumAnds() && forall i :: 0 <= i < |p.gates| ==> GammaBlock(p, v, lambda, gamma, i)
  {
    hide GammaBlock;
  }

  /** The outputs are picked from what the walks computed. */
  predicate PickedOutputs(p: Program, a: seq<Bundle>, b: seq<Bundle>, labels: seq<Block>, evals: seq<Block>, lambda: seq<bool>,
                          oa: SecureWires, ob: SecureWires)
    requires p.Topological() && |a| == |b| == |labels| == |evals| == |lambda| == p.numWires
  {
    && |oa.bundle| == |ob.bundle| == |oa.label0| == |ob.eval| == |ob.lambda| == |p.outputs|
    && forall j :: 0 <= j < |p.outputs| ==>
      && p.outputs[j] < p.numWires && oa.bundle[j] == a[p.outputs[j]] && ob.bundle[j] == b[p.outputs[j]]
      && oa.label0[j] == labels[p.outputs[j]] && ob.eval[j] == evals[p.outputs[j]] && ob.lambda[j] == lambda[p.outputs[j]]
  }

  lemma OutputsPicked(p: Program, a: seq<Bundle>, b: seq<Bundle>, labels: seq<Block>, evals: seq<Block>, lambda: seq<bool>,
                      oa: SecureWires, ob: SecureWires)
    requires p.Topological() && |a| == |b| == |labels| == |evals| == |lambda| == p.numWires
    requires oa.Shaped(Alice) && ob.Shaped(Bob) && |oa.lambda| == |ob.lambda| == |p.outputs|
    requires forall j :: 0 <= j < |p.outputs| ==> p.outputs[j] < p.numWires && oa.bundle[j] == a[p.outputs[j]] && oa.label0[j] == labels[p.outputs[j]]
    requires forall j :: 0 <= j < |p.outputs| ==>
      p.outputs[j] < p.numWires && ob.bundle[j] == b[p.outputs[j]] && ob.lambda[j] == lambda[p.outputs[j]] && ob.eval[j] == evals[p.outputs[j]]
    ensures PickedOutputs(p, a, b, labels, evals, lambda, oa, ob)
  {
  }

  /** Does Alice end a run with the masked bit of output `j`? She gets the bits of gate outputs only from
  the gamma pass, which a program without AND gates skips; then she keeps her input bits and reads zero elsewhere. */
  predicate KnownToAlice(p: Program, lambda: seq<bool>, j: nat)
    requires p.Topological() && |lambda| == p.numInputs && j < |p.outputs|
  {
    p.NumAnds() > 0 || p.outputs[j] < p.numInputs || !p.Eval(lambda)[j]
  }

  lemma InputOutput(p: Program, inputs: seq<bool>, j: nat)
    requires p.Topological() && |inputs| == p.numInputs && j < |p.outputs| && p.outputs[j] < p.numInputs
    ensures p.Eval(inputs)[j] == inputs[p.outputs[j]]
  {
    p.WiresExtend(inputs, 0, |p.gates|);
    assert p.Wires(inputs, |p.gates|)[..p.numInputs][p.outputs[j]] == inputs[p.outputs[j]];
  }

  lemma SharesFromPass(p: Program, s: RunState, inputs: SecureWires, stream: (nat, nat) -> Bundle, session: nat, pos: nat,
                       draws: seq<Bundle>, shares: seq<Bundle>)
    requires Prepared(s, p, inputs, draws, shares) && |s.repA| == |s.repB| == p.NumAnds() == |draws|
    requires forall k :: 0 <= k < |draws| ==> draws[k] == stream(session, pos + k)
    ensures SharesFrom(p, stream, session, pos, inputs.bundle, shares, s.repA, s.repB)
  {
    hide ShareLinear, RunState.OperandsHold, RunState.SharesUpTo, ShareHolds, Prepared, SharesFrom;
    PreparedShares(p, s, inputs, draws, shares);
    forall i | 0 <= i < |p.gates|
      ensures ShareLinear(p, shares, i) && RunState.OperandsHold(p, s.repA, s.repB, shares, i)
      ensures p.gates[i].typ == AND ==> shares[Out(p, i)] == stream(session, pos + p.AndsBefore(i))
    {
      PassedShare(p, draws, shares, s.repA, s.repB, i);
    }
    SharesFromParts(p, stream, session, pos, inputs.bundle, shares, s.repA, s.repB);
  }

  lemma SharesFromParts(p: Program, stream: (nat, nat) -> Bundle, session: nat, pos: nat, inputs: seq<Bundle>,
                        shares: seq<Bundle>, repA: seq<Bundle>, repB: seq<Bundle>)
    requires p.Topological() && |shares| == p.numWires && |inputs| == p.numInputs && shares[..p.numInputs] == inputs && |repA| == |repB| == p.NumAnds()
    requires forall i :: 0 <= i < |p.gates| ==> ShareLinear(p, shares, i) && RunState.OperandsHold(p, repA, repB, shares, i)
    requires forall i :: 0 <= i < |p.gates| && p.gates[i].typ == AND ==> shares[Out(p, i)] == stream(session, pos + p.AndsBefore(i))
    ensures SharesFrom(p, stream, session, pos, inputs, shares, repA, repB)
  {
    hide ShareLinear, RunState.OperandsHold, Program.Topological, Program.AndsBefore, Out;
  }

  lemma PreparedShares(p: Program, s: RunState, inputs: SecureWires, draws: seq<Bundle>, shares: seq<Bundle>)
    requires Prepared(s, p, inputs, draws, shares)
    ensures p.Topological() && |shares| == p.numWires && |inputs.bundle| == p.numInputs && shares[..p.numInputs] == inputs.bundle
    ensures RunState.SharesUpTo(p, draws, shares, s.repA, s.repB, |p.gates|)
  {
    hide RunState.SharesUpTo, Holds, Allocate, Describes;
  }

  lemma PassedShare(p: Program, draws: seq<Bundle>, shares: seq<Bundle>, repA: seq<Bundle>, repB: seq<Bundle>, i: nat)
    requires p.Topological() && |shares| == p.numWires && i < |p.gates| && RunState.SharesUpTo(p, draws, shares, repA, repB, |p.gates|)
    ensures ShareLinear(p, shares, i) && RunState.OperandsHold(p, repA, repB, shares, i)
    ensures p.gates[i].typ == AND ==> p.AndsBefore(i) < |draws| && shares[Out(p, i)] == draws[p.AndsBefore(i)]
  {
    assert ShareHolds(p, draws, shares, i);
  }

  /** The passes of run_program: slots and shares, triples, both walks and the gamma check, gathering. */
  method RunPasses<D(==)>(alice: Pool, bob: Pool, p: Program, env: Env<D>, ia: SecureWires, ib: SecureWires,
                          ghost values: seq<bool>) returns (r: RunResult, ghost t: Trace)
    requires PoolsPaired(alice, bob) && env.bucket >= 1 && p.Topological()
    requires |values| == p.numInputs && CarriesBoth(ia, ib, values, alice.delta, bob.delta)
    modifies alice`pos, bob`pos
    ensures PoolsPaired(alice, bob)
    ensures alice.pos == old(alice.pos) + Batched(p.NumAnds()) + p.NumAnds() * (3 * env.bucket - 2)
    ensures RunsTo(p, env, SourceOf(alice, bob), old(alice.pos), ia, ib, t, r)
    ensures r.Done? ==> Carries(r.alice, r.bob, p.Eval(values), alice.delta, bob.delta)
    ensures r.Done? && p.NumAnds() > 0 ==> r.alice.lambda == r.bob.lambda
    ensures r.Done? && p.NumAnds() == 0 ==> r.bob.lambda == p.Eval(ib.lambda)
    ensures r.Done? && p.NumAnds() == 0 ==> |r.alice.lambda| == |p.outputs| && forall j :: 0 <= j < |p.outputs| ==>
      r.alice.lambda[j] == (p.outputs[j] < p.numInputs && ia.lambda[p.outputs[j]])
    ensures r.Done? ==> OwnLabels(r.alice, Alice) && OwnLabels(r.bob, Bob)
  {
    hide Related, ViewsPaired, WireInvariant, RunState.SharesUpTo, Prepared, StreamsRelated, SharesFrom, Accumulated, WholeTranscript, Sigma,
         LabelsUpTo, EvalsUpTo, GammaBlock, PickedOutputs, Opened;
    var sa, sb;
    ghost var a, b, drawsA, drawsB;
    ghost var f, pos := SourceOf(alice, bob), alice.pos;
    sa, sb, a, b, drawsA, drawsB := PrepareBoth(alice, bob, p, env, ia, ib);
    var ok := Sigmas(alice, bob, p, env, sa, sb, ia, ib, drawsA, drawsB, a, b);
    SharesFromPass(p, sa, ia, f.alice, f.session, pos, drawsA, a);
    SharesFromPass(p, sb, ib, f.bob, f.session, pos, drawsB, b);
    t := Trace(a, b, sa.repA, sa.repB, sb.repA, sb.repB, [], [], [], [], [], [], []);
    if !ok {
      r := Failed(RunError.FeqMismatch);
      return;
    }
    ghost var labels, rows, evals, lambda, gamma;
    r, labels, rows, evals, lambda, gamma := Finish(p, env, sa, sb, ia, ib, values, a, b, drawsA, drawsB);
    t := Trace(a, b, sa.repA, sa.repB, sb.repA, sb.repB, sa.sigma, sb.sigma, labels, rows, evals, lambda, gamma);
  }

  /** What a run amounts to: its trace follows from the program, the environment, the pools' streams and the inputs
  alone; it fails exactly where a digest was replaced by one that does not fit; and its outputs are the trace's. */
  ghost predicate RunsTo<D>(p: Program, env: Env<D>, f: Source, pos: nat, ia: SecureWires, ib: SecureWires, t: Trace, r: RunResult)
    requires p.Topological() && env.bucket >= 1
  {
    && SharesTraced(p, f, pos, ia, ib, t)
    && if FeqRefused(p, env, f, pos, t) then r == Failed(RunError.FeqMismatch)
       else
         && SigmasTraced(p, env, f, pos, t) && WalksTraced(p, env, f, ia, ib, t)
         && if GammaRefused(p, env, t) then r == Failed(RunError.FeqMismatch)
            else r.Done? && PickedOutputs(p, t.sharesA, t.sharesB, t.labels, t.evals, t.lambda, r.alice, r.bob)
  }

  /** The outputs are what a run of the program yields from these inputs, keys and positions of the pools. */
  ghost predicate Outcome<D>(p: Program, env: Env<D>, f: Source, pos: nat, ia: SecureWires, ib: SecureWires, oa: SecureWires, ob: SecureWires) {
    p.Topological() && env.bucket >= 1 && exists t :: RunsTo(p, env, f, pos, ia, ib, t, Done(oa, ob))
  }

  lemma HonestRun<D>(p: Program, env: Env<D>, f: Source, pos: nat, ia: SecureWires, ib: SecureWires, t: Trace, r: RunResult)
    requires p.Topological() && env.bucket >= 1 && RunsTo(p, env, f, pos, ia, ib, t, r)
    ensures env.Honest() ==> r.Done?
  {
    hide SharesFrom, SigmasTraced, WalksTraced, PickedOutputs;
  }

  /** run_program on both sides. Honest parties never abort: the outputs are those of the run's trace, and they carry
  the values the program computes in the clear. Alice's masked bit of an output agrees with Bob's exactly when
  `KnownToAlice`. */
  method RunProgram<D(==)>(alice: Pool, bob: Pool, p: Program, env: Env<D>, ia: SecureWires, ib: SecureWires,
                           ghost values: seq<bool>) returns (r: RunResult, ghost t: Trace)
    requires PoolsPaired(alice, bob) && env.bucket >= 1 && p.Topological()
    requires CarriesBoth(ia, ib, values, alice.delta, bob.delta)
    modifies alice, bob
    ensures PoolsPaired(alice, bob)
    ensures |values| != p.numInputs <==> r == Failed(BadInputLength)
    ensures |values| == p.numInputs ==> RunsTo(p, env, old(SourceOf(alice, bob)), old(alice.pos), ia, ib, t, r)
    ensures r.Done? ==>
      && alice.pos == 0 && alice.session == old(alice.session) + (if old(alice.pos) > 0 || p.NumAnds() > 0 then 1 else 0)
      && Carries(r.alice, r.bob, p.Eval(values), alice.delta, bob.delta) && OwnLabels(r.alice, Alice) && OwnLabels(r.bob, Bob)
      && |ia.lambda| == p.numInputs && forall j :: 0 <= j < |p.outputs| ==>
        (r.alice.lambda[j] == r.bob.lambda[j] <==> KnownToAlice(p, ia.lambda, j))
    ensures |values| == p.numInputs && env.Honest() ==> r.Done?
  {
    if |ia.lambda| != p.numInputs || |ib.lambda| != p.numInputs {
      return Failed(BadInputLength), Trace([], [], [], [], [], [], [], [], [], [], [], [], []);
    }
    hide CarriesBoth, StreamsRelated, KnownToAlice, Carries, SharesTraced, SigmasTraced, WalksTraced, PickedOutputs;
    r, t := RunPasses(alice, bob, p, env, ia, ib, values);
    HonestRun(p, env, old(SourceOf(alice, bob)), old(alice.pos), ia, ib, t, r);
    if r.Failed? {
      return;
    }
    DrawsSome(p.NumAnds(), env.bucket);
    MaskedOutputs(p, ia.lambda, r.alice.lambda, r.bob.lambda);
    alice.FlushCheck();
    bob.FlushCheck();
  }

  lemma DrawsSome(ands: nat, bucket: nat)
    requires bucket >= 1
    ensures Batched(ands) + ands * (3 * bucket - 2) > 0 <==> ands > 0
    ensures ands * (3 * bucket - 2) >= 0
  {
    if ands > 0 {
      assert (ands + DRAW_BATCH - 1) / DRAW_BATCH >= 1;
    } else {
      assert Batched(0) == 0;
    }
  }

  lemma MaskedOutputs(p: Program, inputs: seq<bool>, la: seq<bool>, lb: seq<bool>)
    requires p.Topological() && |inputs| == p.numInputs && |la| == |lb| == |p.outputs|
    requires p.NumAnds() > 0 ==> la == lb
    requires p.NumAnds() == 0 ==> lb == p.Eval(inputs)
    requires p.NumAnds() == 0 ==> forall j :: 0 <= j < |p.outputs| ==>
      la[j] == (p.outputs[j] < p.numInputs && inputs[p.outputs[j]])
    ensures forall j :: 0 <= j < |p.outputs| ==> (la[j] == lb[j] <==> KnownToAlice(p, inputs, j))
  {
    forall j | 0 <= j < |p.outputs|
      ensures la[j] == lb[j] <==> KnownToAlice(p, inputs, j)
    {
      if p.outputs[j] < p.numInputs {
        InputOutput(p, inputs, j);
      }
    }
  }

  /** One NOT gate on a wire whose masked bit is clear: Bob ends with a set bit, Alice with a clear one. */
  lemma NotGateUnknownToAlice()
    ensures var p := Program(1, 2, [1], [Gate(INV, 0, 0)]);
      p.Topological() && p.Eval([false]) == [true] && !KnownToAlice(p, [false], 0)
  {
    var p := Program(1, 2, [1], [Gate(INV, 0, 0)]);
    assert p.Defined(0);
    assert p.AndsBefore(1) == p.AndsBefore(0) == 0;
    assert p.Wires([false], 0) == [false];
    assert p.Wires([false], 1) == [false, true];
  }
}

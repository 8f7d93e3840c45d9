/** What a run of a program yields is fixed by the program, the keys, the pools and the inputs. */
module Traces {
  import opened Options
  import opened Blocks
  import opened Auth
  import opened Programs
  import opened Garbling
  import opened GarbledRun
  import opened Triples
  import opened TripleGeneration
  import opened RunStates
  import opened Walks
  import opened Sessions

  predicate Same<T(==)>(x: seq<T>, y: seq<T>, n: nat) {
    n <= |x| && n <= |y| && forall w :: 0 <= w < n ==> x[w] == y[w]
  }

  lemma SameAll<T>(x: seq<T>, y: seq<T>)
    requires |x| == |y| && Same(x, y, |x|)
    ensures x == y
  {
  }

  lemma SamePrefix<T>(x: seq<T>, y: seq<T>, prefix: seq<T>)
    requires prefix <= x && prefix <= y
    ensures Same(x, y, |prefix|)
  {
    forall w | 0 <= w < |prefix|
      ensures x[w] == y[w]
    {
      assert prefix[w] == x[w] && prefix[w] == y[w];
    }
  }

  /** The inputs and the pool fix a party's shares. */
  lemma {:induction false} SharesUnique(p: Program, stream: (nat, nat) -> Bundle, session: nat, pos: nat, inputs: seq<Bundle>,
                                        x: seq<Bundle>, xA: seq<Bundle>, xB: seq<Bundle>, y: seq<Bundle>, yA: seq<Bundle>, yB: seq<Bundle>, n: nat)
    requires p.Topological() && n <= |p.gates|
    requires SharesFrom(p, stream, session, pos, inputs, x, xA, xB) && SharesFrom(p, stream, session, pos, inputs, y, yA, yB)
    ensures Same(x, y, p.numInputs + n)
  {
    if n == 0 {
      SamePrefix(x, y, inputs);
    } else {
      SharesUnique(p, stream, session, pos, inputs, x, xA, xB, y, yA, yB, n - 1);
      var i := n - 1;
      assert p.Defined(i) && ShareLinear(p, x, i) && ShareLinear(p, y, i);
    }
  }

  /** ... and with them the recorded operands of the AND gates. */
  lemma {:induction false} OperandsUnique(p: Program, shares: seq<Bundle>, xA: seq<Bundle>, xB: seq<Bundle>, yA: seq<Bundle>, yB: seq<Bundle>, n: nat)
    requires p.Topological() && n <= |p.gates| && |shares| == p.numWires && |xA| == |xB| == |yA| == |yB| == p.NumAnds()
    requires forall i :: 0 <= i < |p.gates| ==> RunState.OperandsHold(p, xA, xB, shares, i) && RunState.OperandsHold(p, yA, yB, shares, i)
    ensures Same(xA, yA, p.AndsBefore(n)) && Same(xB, yB, p.AndsBefore(n))
  {
    p.AndsMonotone(n, |p.gates|);
    if n > 0 {
      OperandsUnique(p, shares, xA, xB, yA, yB, n - 1);
      assert p.Defined(n - 1) && RunState.OperandsHold(p, xA, xB, shares, n - 1) && RunState.OperandsHold(p, yA, yB, shares, n - 1);
    }
  }

  /** Shares and keys fix the garbler's labels and rows. */
  lemma {:induction false} LabelsUnique(p: Program, v: View, x: seq<Block>, rx: seq<Row>, y: seq<Block>, ry: seq<Row>, n: nat)
    requires Covers(p, v) && n <= |p.gates| && |x| == |y| == p.numWires && Same(x, y, p.numInputs)
    requires LabelsUpTo(p, v, x, rx, |p.gates|) && LabelsUpTo(p, v, y, ry, |p.gates|)
    ensures Same(x, y, p.numInputs + n) && Same(rx, ry, p.AndsBefore(n))
  {
    hide GarbleAnd;
    p.AndsMonotone(n, |p.gates|);
    if n > 0 {
      LabelsUnique(p, v, x, rx, y, ry, n - 1);
      assert p.Defined(n - 1) && LabelHolds(p, v, x, rx, n - 1) && LabelHolds(p, v, y, ry, n - 1);
    }
  }

  /** ... and the rows the evaluator's labels and masked bits. */
  lemma {:induction false} EvalsUnique(p: Program, v: View, rows: seq<Row>, x: seq<Block>, lx: seq<bool>, y: seq<Block>, ly: seq<bool>, n: nat)
    requires Covers(p, v) && n <= |p.gates| && |x| == |y| == |lx| == |ly| == p.numWires && Same(x, y, p.numInputs) && Same(lx, ly, p.numInputs)
    requires EvalsUpTo(p, v, x, lx, rows, |p.gates|) && EvalsUpTo(p, v, y, ly, rows, |p.gates|)
    ensures Same(x, y, p.numInputs + n) && Same(lx, ly, p.numInputs + n)
  {
    hide EvalAnd;
    if n > 0 {
      EvalsUnique(p, v, rows, x, lx, y, ly, n - 1);
      assert p.Defined(n - 1) && EvalHolds(p, v, x, lx, rows, n - 1) && EvalHolds(p, v, y, ly, rows, n - 1);
    }
  }

  lemma {:induction false} GammaUnique(p: Program, v: View, lambda: seq<bool>, x: seq<Block>, y: seq<Block>, n: nat)
    requires Covers(p, v) && n <= |p.gates| && |lambda| == p.numWires && |x| == |y| == p.NumAnds()
    requires forall i :: 0 <= i < |p.gates| ==> GammaBlock(p, v, lambda, x, i) && GammaBlock(p, v, lambda, y, i)
    ensures Same(x, y, p.AndsBefore(n))
  {
    hide BobGamma;
    p.AndsMonotone(n, |p.gates|);
    if n > 0 {
      GammaUnique(p, v, lambda, x, y, n - 1);
      assert p.Defined(n - 1) && GammaBlock(p, v, lambda, x, n - 1) && GammaBlock(p, v, lambda, y, n - 1);
    }
  }

  /** Shares and operands of two traces of the same run. */
  lemma SharesFixed(p: Program, stream: (nat, nat) -> Bundle, session: nat, pos: nat, inputs: seq<Bundle>,
                    x: seq<Bundle>, xA: seq<Bundle>, xB: seq<Bundle>, y: seq<Bundle>, yA: seq<Bundle>, yB: seq<Bundle>)
    requires p.Topological()
    requires SharesFrom(p, stream, session, pos, inputs, x, xA, xB) && SharesFrom(p, stream, session, pos, inputs, y, yA, yB)
    ensures x == y && xA == yA && xB == yB
  {
    hide Same, ShareLinear, RunState.OperandsHold;
    SharesUnique(p, stream, session, pos, inputs, x, xA, xB, y, yA, yB, |p.gates|);
    SameAll(x, y);
    OperandsUnique(p, x, xA, xB, yA, yB, |p.gates|);
    SameAll(xA, yA);
    SameAll(xB, yB);
  }

  lemma SigmasFixed<D>(p: Program, env: Env<D>, f: Source, pos: nat, t: Trace, u: Trace)
    requires p.Topological() && env.bucket >= 1 && SigmasTraced(p, env, f, pos, t) && SigmasTraced(p, env, f, pos, u)
    requires t.aliceA == u.aliceA && t.aliceB == u.aliceB && t.bobA == u.bobA && t.bobB == u.bobB
    ensures t.sigmaA == u.sigmaA && t.sigmaB == u.sigmaB
  {
    hide Accumulated, Sigma, Opened, Batched;
    forall k | 0 <= k < p.NumAnds()
      ensures t.sigmaA[k] == u.sigmaA[k] && t.sigmaB[k] == u.sigmaB[k]
    {
      assert (t.sigmaA[k], t.sigmaB[k]) == (u.sigmaA[k], u.sigmaB[k]);
    }
  }

  lemma WalksFixed<D>(p: Program, env: Env<D>, f: Source, ia: SecureWires, ib: SecureWires, t: Trace, u: Trace)
    requires p.Topological() && WalksTraced(p, env, f, ia, ib, t) && WalksTraced(p, env, f, ia, ib, u)
    requires |ia.label0| == |ib.eval| == |ib.lambda| == p.numInputs
    requires t.sharesA == u.sharesA && t.sharesB == u.sharesB && t.sigmaA == u.sigmaA && t.sigmaB == u.sigmaB
    ensures t.labels == u.labels && t.rows == u.rows && t.evals == u.evals && t.lambda == u.lambda && t.gamma == u.gamma
  {
    hide Same, LabelHolds, EvalHolds, GammaBlock;
    var va := View(f.dA, t.sharesA, t.sigmaA, env.garbleCipher, env.linear);
    var vb := View(f.dB, t.sharesB, t.sigmaB, env.garbleCipher, env.linear);
    SamePrefix(t.labels, u.labels, ia.label0);
    LabelsUnique(p, va, t.labels, t.rows, u.labels, u.rows, |p.gates|);
    SameAll(t.labels, u.labels);
    SameAll(t.rows, u.rows);
    SamePrefix(t.evals, u.evals, ib.eval);
    SamePrefix(t.lambda, u.lambda, ib.lambda);
    EvalsUnique(p, vb, t.rows, t.evals, t.lambda, u.evals, u.lambda, |p.gates|);
    SameAll(t.evals, u.evals);
    SameAll(t.lambda, u.lambda);
    GammaUnique(p, vb, t.lambda, t.gamma, u.gamma, |p.gates|);
    SameAll(t.gamma, u.gamma);
  }

  /** Two outcomes of the same run agree in everything but the bits Alice remembers, which `KnownToAlice` settles. */
  lemma RunUnique<D>(p: Program, env: Env<D>, f: Source, pos: nat, ia: SecureWires, ib: SecureWires, t: Trace, r: RunResult, u: Trace, s: RunResult)
    requires p.Topological() && env.bucket >= 1 && |ia.label0| == |ib.eval| == |ib.lambda| == p.numInputs
    requires RunsTo(p, env, f, pos, ia, ib, t, r) && RunsTo(p, env, f, pos, ia, ib, u, s)
    ensures r.Done? <==> s.Done?
    ensures r.Failed? ==> r == s
    ensures r.Done? ==>
      && t == u && r.alice.bundle == s.alice.bundle && r.alice.label0 == s.alice.label0
      && r.bob.bundle == s.bob.bundle && r.bob.eval == s.bob.eval && r.bob.lambda == s.bob.lambda
  {
    hide SharesFrom, SigmasTraced, WalksTraced, PickedOutputs, WholeTranscript;
    SharesFixed(p, f.alice, f.session, pos, ia.bundle, t.sharesA, t.aliceA, t.aliceB, u.sharesA, u.aliceA, u.aliceB);
    SharesFixed(p, f.bob, f.session, pos, ib.bundle, t.sharesB, t.bobA, t.bobB, u.sharesB, u.bobA, u.bobB);
    OperandCounts(p, f, pos, ia, ib, t);
    OperandCounts(p, f, pos, ia, ib, u);
    if !FeqRefused(p, env, f, pos, t) {
      SigmasFixed(p, env, f, pos, t, u);
      WalksFixed(p, env, f, ia, ib, t, u);
      assert t == u;
      if r.Done? {
        WalkSizes(p, env, f, ia, ib, t);
        PickedFixed(p, t, r, s);
      }
    }
  }

  lemma OperandCounts(p: Program, f: Source, pos: nat, ia: SecureWires, ib: SecureWires, t: Trace)
    requires p.Topological() && SharesTraced(p, f, pos, ia, ib, t)
    ensures |t.aliceA| == |t.aliceB| == |t.bobA| == |t.bobB|
  {
  }

  lemma WalkSizes<D>(p: Program, env: Env<D>, f: Source, ia: SecureWires, ib: SecureWires, t: Trace)
    requires p.Topological() && WalksTraced(p, env, f, ia, ib, t)
    ensures |t.sharesA| == |t.sharesB| == |t.labels| == |t.evals| == |t.lambda| == p.numWires
  {
  }

  lemma PickedFixed(p: Program, t: Trace, r: RunResult, s: RunResult)
    requires p.Topological() && |t.sharesA| == |t.sharesB| == |t.labels| == |t.evals| == |t.lambda| == p.numWires && r.Done? && s.Done?
    requires PickedOutputs(p, t.sharesA, t.sharesB, t.labels, t.evals, t.lambda, r.alice, r.bob)
    requires PickedOutputs(p, t.sharesA, t.sharesB, t.labels, t.evals, t.lambda, s.alice, s.bob)
    ensures r.alice.bundle == s.alice.bundle && r.alice.label0 == s.alice.label0
    ensures r.bob.bundle == s.bob.bundle && r.bob.eval == s.bob.eval && r.bob.lambda == s.bob.lambda
  {
  }
}

/** The second and third walk over a program: garbling, evaluating, and Alice's gamma pass.

Each overwrites the recycled slots in place. */
module Walks {
  import opened Blocks
  import opened Auth
  import opened Programs
  import opened Slots
  import opened Garbling
  import opened GarbledRun
  import opened RunStates
  import opened Chunks

  const GARBLE_CHUNK: nat := 65536

  /** What the state's party sees of the program, given its share of every wire. */
  ghost function ViewOf(s: RunState, shares: seq<Bundle>): View
    reads s`sigma
  {
    View(s.delta, shares, s.sigma, s.mitc.cipher, s.mitc.sigma)
  }

  /** A state whose slots are planned and hold this party's shares, `i` gates into a walk. */
  ghost predicate Walking(s: RunState, p: Program, shares: seq<Bundle>, i: nat)
    reads s`life, s`phys, s`numSlots, s`numAnds, s`sigma, s`wireSlot
  {
    && s.Planned(p) && |s.wireSlot| == s.numSlots && i <= |p.gates| && Covers(p, ViewOf(s, shares))
    && (forall j :: 0 <= j < |p.gates| ==> ShareLinear(p, shares, j))
    && Held(p, s.life, s.phys, s.wireSlot, shares, i)
  }

  /** The slot of gate `i`'s output exists and no live wire is in it. */
  lemma OutputSlot(s: RunState, p: Program, i: nat)
    requires s.Planned(p) && i < |p.gates|
    ensures |s.phys| == p.numWires && s.phys[Out(p, i)] < s.numSlots
    ensures NeverClobbers(p, s.life, s.phys, |p.gates|)
  {
    AllocationSafe(p, s.life, |p.gates|);
  }

  /** The share of gate `i`'s output is back in its slot: recomputed for XOR and INV,
  never overwritten for AND. */
  method RestoreShare(s: RunState, p: Program, i: nat, ghost shares: seq<Bundle>)
    requires Walking(s, p, shares, i) && i < |p.gates|
    modifies s`wireSlot
    ensures Walking(s, p, shares, i + 1)
  {
    hide Held, Allocate, Describes, NeverClobbers, FreeListSound, Holds;
    var g, out := p.gates[i], Out(p, i);
    OutputSlot(s, p, i);
    assert p.Defined(i) && ShareLinear(p, shares, i);
    ReadsHeld(p, s.life, s.phys, s.wireSlot, shares, i, g.in0);
    match g.typ {
      case AND =>
        AndKeeps(p, s.life, s.phys, s.wireSlot, shares, i);
      case XOR =>
        ReadsHeld(p, s.life, s.phys, s.wireSlot, shares, i, g.in1);
        RestoreKeeps(p, s.life, s.phys, s.wireSlot, shares, i);
        var lhs, rhs := s.wireSlot[s.phys[g.in0]], s.wireSlot[s.phys[g.in1]];
        s.wireSlot := s.wireSlot[s.phys[out] := Bundle(Xor(lhs.mac, rhs.mac), Xor(lhs.key, rhs.key))];
      case INV =>
        RestoreKeeps(p, s.life, s.phys, s.wireSlot, shares, i);
        s.wireSlot := s.wireSlot[s.phys[out] := s.wireSlot[s.phys[g.in0]]];
    }
  }

  /** Writing `x` to the slot of gate `i`'s output extends what the slots hold by one wire. */
  lemma Stored<T>(s: RunState, p: Program, mem: seq<T>, want: seq<T>, x: T, i: nat)
    requires s.Planned(p) && i < |p.gates| && |mem| == s.numSlots && |want| == Out(p, i)
    requires Holds(p, s.life, s.phys, mem, want, i)
    ensures s.phys[Out(p, i)] < |mem|
    ensures Holds(p, s.life, s.phys, mem[s.phys[Out(p, i)] := x], want + [x], i + 1)
  {
    hide Holds, Allocate, Describes, NeverClobbers, FreeListSound;
    OutputSlot(s, p, i);
    RunState.HoldsExtends(p, s.life, s.phys, mem, want, x, i);
    StoreKeeps(p, s.life, s.phys, mem, mem[s.phys[Out(p, i)] := x], want + [x], i);
  }

  /** The operand values of gate `i`, read from the slots of a walk. */
  lemma Operands<T>(s: RunState, p: Program, mem: seq<T>, want: seq<T>, i: nat)
    requires s.Planned(p) && i < |p.gates| && |want| >= Out(p, i)
    requires Holds(p, s.life, s.phys, mem, want, i)
    ensures var g := p.gates[i];
      && p.Defined(i) && |s.phys| == p.numWires && s.phys[g.in0] < |mem| && mem[s.phys[g.in0]] == want[g.in0]
      && (g.typ != INV ==> s.phys[g.in1] < |mem| && mem[s.phys[g.in1]] == want[g.in1])
  {
    hide Holds, Allocate, Describes;
    var g := p.gates[i];
    assert p.Defined(i);
    ReadsValue(p, s.life, s.phys, mem, want, i, g.in0);
    if g.typ != INV {
      ReadsValue(p, s.life, s.phys, mem, want, i, g.in1);
    }
  }

  /** The shares an AND gate works on, read from the slots of a walk. */
  lemma AndOperands(s: RunState, p: Program, shares: seq<Bundle>, i: nat)
    requires Walking(s, p, shares, i) && i < |p.gates| && p.gates[i].typ == AND
    ensures var g := p.gates[i];
      && p.Defined(i) && |s.phys| == p.numWires && p.AndsBefore(i) < p.NumAnds()
      && s.phys[g.in0] < |s.wireSlot| && s.wireSlot[s.phys[g.in0]] == shares[g.in0]
      && s.phys[g.in1] < |s.wireSlot| && s.wireSlot[s.phys[g.in1]] == shares[g.in1]
      && s.phys[Out(p, i)] < |s.wireSlot| && s.wireSlot[s.phys[Out(p, i)]] == shares[Out(p, i)]
  {
    hide Held, Allocate, Describes;
    var g := p.gates[i];
    assert p.Defined(i);
    AndIndex(p, i);
    ReadsHeld(p, s.life, s.phys, s.wireSlot, shares, i, g.in0);
    ReadsHeld(p, s.life, s.phys, s.wireSlot, shares, i, g.in1);
    AndKeeps(p, s.life, s.phys, s.wireSlot, shares, i);
  }

  // ---- the garbler ----

  /** ag2pc_garbler_and_gate */
  method GarblerAndGate(s: RunState, p: Program, i: nat, k: nat, ghost shares: seq<Bundle>, ghost labels: seq<Block>)
    returns (row: Row, label0: Block)
    requires Walking(s, p, shares, i) && i < |p.gates| && p.gates[i].typ == AND && k == p.AndsBefore(i)
    requires |labels| == Out(p, i) && Holds(p, s.life, s.phys, s.labelSlot, labels, i)
    requires s.mitc.Valid() && s.mitc.drawn == k
    modifies s.mitc
    ensures s.mitc.Valid() && s.mitc.drawn == k + 1
    ensures p.Defined(i) && k < p.NumAnds()
    ensures var g, v := p.gates[i], ViewOf(s, shares);
      Garbled(row, label0) == GarbleAnd(v, shares[g.in0], shares[g.in1], shares[Out(p, i)], s.sigma[k], k,
                                        labels[g.in0], labels[g.in1])
  {
    hide Walking, Holds, RunState.Planned;
    assert s.Planned(p) by { WalkingPlanned(s, p, shares, i); }
    Operands(s, p, s.labelSlot, labels, i);
    AndOperands(s, p, shares, i);
    WalkingPlanned(s, p, shares, i);
    var g, out := p.gates[i], Out(p, i);
    var mlA0, mlB0 := s.labelSlot[s.phys[g.in0]], s.labelSlot[s.phys[g.in1]];
    var mlA1, mlB1 := Xor(mlA0, s.delta), Xor(mlB0, s.delta);
    var buf := s.mitc.Hash([mlA0, mlA1, mlB0, mlB1], 1, 4, true);
    var in0, in1, wOut, sigma := s.wireSlot[s.phys[g.in0]], s.wireSlot[s.phys[g.in1]], s.wireSlot[s.phys[out]], s.sigma[k];
    var g0 := Xor(Xor(Xor(buf[0], buf[1]), in1.key), Select(Lsb(in1.mac), s.delta));
    var g1 := Xor(Xor(Xor(Xor(buf[2], buf[3]), mlA0), in0.key), Select(Lsb(in0.mac), s.delta));
    label0 := Xor(Xor(Xor(Xor(Xor(buf[0], buf[2]), sigma.key), Select(Lsb(sigma.mac), s.delta)), wOut.key),
                  Select(Lsb(wOut.mac), s.delta));
    row := Row(g0, g1, Lsb1(label0));
  }

  lemma WalkingPlanned(s: RunState, p: Program, shares: seq<Bundle>, i: nat)
    requires Walking(s, p, shares, i)
    ensures s.Planned(p) && Covers(p, ViewOf(s, shares)) && |s.sigma| == p.NumAnds()
  {
  }

  /** The garbler's equations for the first `n` gates. */
  ghost predicate LabelsUpTo(p: Program, v: View, labels: seq<Block>, rows: seq<Row>, n: nat)
    requires Covers(p, v) && n <= |p.gates| && |labels| == p.numInputs + n
  {
    |rows| == p.AndsBefore(n) && forall i :: 0 <= i < n ==> LabelHolds(p, v, labels, rows, i)
  }

  lemma OneMoreLabel(p: Program, v: View, labels: seq<Block>, rows: seq<Row>, n: nat, label0: Block, more: seq<Row>)
    requires Covers(p, v) && n < |p.gates| && |labels| == p.numInputs + n && LabelsUpTo(p, v, labels, rows, n)
    requires |more| == if p.gates[n].typ == AND then 1 else 0
    requires LabelHolds(p, v, labels + [label0], rows + more, n)
    ensures LabelsUpTo(p, v, labels + [label0], rows + more, n + 1)
  {
    hide GarbleAnd;
    forall i | 0 <= i < n
      ensures LabelHolds(p, v, labels + [label0], rows + more, i)
    {
      assert p.Defined(i) && LabelHolds(p, v, labels, rows, i);
    }
  }

  /** The garbler's walk after `i` gates: shares and zero labels of all live wires are in their slots. */
  ghost predicate AtGarbler(s: RunState, p: Program, shares: seq<Bundle>, labels: seq<Block>, rows: seq<Row>, i: nat)
    reads s, s.mitc
  {
    && Walking(s, p, shares, i)
    && |s.labelSlot| == s.numSlots && |labels| == p.numInputs + i
    && Holds(p, s.life, s.phys, s.labelSlot, labels, i)
    && s.mitc.Valid() && s.mitc.drawn == p.AndsBefore(i)
    && LabelsUpTo(p, ViewOf(s, shares), labels, rows, i)
  }

  /** One gate of ag2pc_garbler_path. */
  method GarblerGate(s: RunState, p: Program, i: nat, ghost shares: seq<Bundle>, ghost labels: seq<Block>,
                     k: nat, ghost rows: seq<Row>)
    returns (more: seq<Row>, ghost labels': seq<Block>)
    requires AtGarbler(s, p, shares, labels, rows, i) && i < |p.gates| && k == p.AndsBefore(i)
    modifies s`wireSlot, s`labelSlot, s.mitc
    ensures |more| == if p.gates[i].typ == AND then 1 else 0
    ensures labels <= labels' && AtGarbler(s, p, shares, labels', rows + more, i + 1)
  {
    hide Holds, Walking, RunState.Planned, LabelsUpTo, GarbleAnd;
    WalkingPlanned(s, p, shares, i);
    Operands(s, p, s.labelSlot, labels, i);
    var g, out := p.gates[i], Out(p, i);
    var label0: Block;
    more := [];
    match g.typ {
      case AND =>
        var row;
        row, label0 := GarblerAndGate(s, p, i, k, shares, labels);
        more := [row];
        AndsKnown(p, rows, ViewOf(s, shares), labels, i);
      case XOR =>
        label0 := Xor(s.labelSlot[s.phys[g.in0]], s.labelSlot[s.phys[g.in1]]);
      case INV =>
        label0 := Xor(s.labelSlot[s.phys[g.in0]], s.delta);
    }
    assert LabelHolds(p, ViewOf(s, shares), labels + [label0], rows + more, i);
    OneMoreLabel(p, ViewOf(s, shares), labels, rows, i, label0, more);
    Stored(s, p, s.labelSlot, labels, label0, i);
    RestoreShare(s, p, i, shares);
    s.labelSlot := s.labelSlot[s.phys[out] := label0];
    labels' := labels + [label0];
    WalkingPlanned(s, p, shares, i + 1);
  }

  lemma AndsKnown(p: Program, rows: seq<Row>, v: View, labels: seq<Block>, i: nat)
    requires Covers(p, v) && i <= |p.gates| && |labels| == p.numInputs + i && LabelsUpTo(p, v, labels, rows, i)
    ensures |rows| == p.AndsBefore(i)
  {
  }

  /** ag2pc_garbler_path up to the gamma check: walks all gates and sends the rows in chunks. */
  method GarblerPath(s: RunState, p: Program, ghost shares: seq<Bundle>, ghost inputs: seq<Block>)
    returns (sent: seq<seq<Row>>, ghost labels: seq<Block>, ghost rows: seq<Row>)
    requires AtGarbler(s, p, shares, inputs, [], 0)
    modifies s`wireSlot, s`labelSlot, s.mitc
    ensures inputs <= labels && AtGarbler(s, p, shares, labels, rows, |p.gates|)
    ensures sent == Split(rows, GARBLE_CHUNK)
  {
    hide AtGarbler;
    sent, labels, rows := [], inputs, [];
    var chunk: seq<Row>, andIndex := [], 0;
    ghost var done: seq<Row>, full := [], 0;
    for i := 0 to |p.gates|
      invariant inputs <= labels && AtGarbler(s, p, shares, labels, rows, i)
      invariant andIndex == p.AndsBefore(i)
      invariant rows == done + chunk && |done| == GARBLE_CHUNK * full && |chunk| < GARBLE_CHUNK
      invariant sent == Split(done, GARBLE_CHUNK)
    {
      var more;
      more, labels := GarblerGate(s, p, i, shares, labels, andIndex, rows);
      assert rows + more == done + (chunk + more);
      chunk, rows, andIndex := chunk + more, rows + more, andIndex + |more|;
      if |chunk| == GARBLE_CHUNK {
        SplitAppend(done, chunk, GARBLE_CHUNK, full);
        sent := sent + [chunk];
        done, full, chunk := done + chunk, full + 1, [];
      }
    }
    if |chunk| > 0 {
      SplitAppend(done, chunk, GARBLE_CHUNK, full);
      sent := sent + [chunk];
    } else {
      assert rows == done;
    }
  }

  // ---- the evaluator ----

  /** The evaluator's equations for the first `n` gates. */
  ghost predicate EvalsUpTo(p: Program, v: View, evals: seq<Block>, lambda: seq<bool>, rows: seq<Row>, n: nat)
    requires Covers(p, v) && n <= |p.gates| && |evals| == |lambda| == p.numInputs + n
  {
    forall i :: 0 <= i < n ==> EvalHolds(p, v, evals, lambda, rows, i)
  }

  lemma OneMoreEval(p: Program, v: View, evals: seq<Block>, lambda: seq<bool>, rows: seq<Row>, n: nat, e: Block, l: bool)
    requires Covers(p, v) && n < |p.gates| && |evals| == |lambda| == p.numInputs + n
    requires EvalsUpTo(p, v, evals, lambda, rows, n)
    requires EvalHolds(p, v, evals + [e], lambda + [l], rows, n)
    ensures EvalsUpTo(p, v, evals + [e], lambda + [l], rows, n + 1)
  {
    hide EvalAnd;
    forall i | 0 <= i < n
      ensures EvalHolds(p, v, evals + [e], lambda + [l], rows, i)
    {
      assert p.Defined(i) && EvalHolds(p, v, evals, lambda, rows, i);
    }
  }

  /** The block the evaluator hashes for gate `i`, if it is an AND. */
  predicate GammaBlock(p: Program, v: View, lambda: seq<bool>, gamma: seq<Block>, i: nat)
    requires Covers(p, v) && i < |p.gates| && Out(p, i) < |lambda|
  {
    if p.gates[i].typ != AND then true else
      AndIndex(p, i);
      assert p.Defined(i);
      var g, k, out := p.gates[i], p.AndsBefore(i), Out(p, i);
      k < |gamma| && gamma[k] == BobGamma(v.delta, lambda[g.in0], lambda[g.in1], lambda[out],
                                          v.shares[g.in0], v.shares[g.in1], v.shares[out], v.sigma[k])
  }

  /** The masked bits recorded for the AND gates among the first `n` gates, and the blocks hashed for them. */
  ghost predicate GammaUpTo(p: Program, v: View, lambda: seq<bool>, sent: seq<bool>, gamma: seq<Block>, n: nat)
    requires Covers(p, v) && n <= |p.gates| && |lambda| == p.numInputs + n
  {
    && |gamma| == p.AndsBefore(n) <= |sent|
    && (forall i :: 0 <= i < n ==> LambdaHolds(p, sent, lambda, i))
    && (forall i :: 0 <= i < n ==> GammaBlock(p, v, lambda, gamma, i))
  }

  lemma OneMoreGamma(p: Program, v: View, lambda: seq<bool>, sent: seq<bool>, gamma: seq<Block>, n: nat,
                     l: bool, sent': seq<bool>, more: seq<Block>)
    requires Covers(p, v) && n < |p.gates| && |lambda| == p.numInputs + n && GammaUpTo(p, v, lambda, sent, gamma, n)
    requires |more| == if p.gates[n].typ == AND then 1 else 0
    requires |sent'| == |sent| >= p.AndsBefore(n + 1) && sent'[..p.AndsBefore(n)] == sent[..p.AndsBefore(n)]
    requires LambdaHolds(p, sent', lambda + [l], n) && GammaBlock(p, v, lambda + [l], gamma + more, n)
    ensures GammaUpTo(p, v, lambda + [l], sent', gamma + more, n + 1)
  {
    hide BobGamma;
    forall i | 0 <= i < n
      ensures LambdaHolds(p, sent', lambda + [l], i) && GammaBlock(p, v, lambda + [l], gamma + more, i)
    {
      assert p.Defined(i) && LambdaHolds(p, sent, lambda, i) && GammaBlock(p, v, lambda, gamma, i);
      p.AndsMonotone(i, n);
      if p.gates[i].typ == AND {
        var k := p.AndsBefore(i);
        assert sent'[..p.AndsBefore(n)][k] == sent[..p.AndsBefore(n)][k];
      }
    }
  }

  /** The evaluator's walk after `i` gates. */
  ghost predicate AtEvaluator(s: RunState, p: Program, shares: seq<Bundle>, evals: seq<Block>, lambda: seq<bool>,
                              rows: seq<Row>, gamma: seq<Block>, i: nat)
    reads s, s.mitc
  {
    && Walking(s, p, shares, i)
    && |s.evalSlot| == s.numSlots == |s.maskInput| && |evals| == |lambda| == p.numInputs + i
    && Holds(p, s.life, s.phys, s.evalSlot, evals, i)
    && Holds(p, s.life, s.phys, s.maskInput, lambda, i)
    && s.mitc.Valid() && s.mitc.drawn == p.AndsBefore(i)
    && EvalsUpTo(p, ViewOf(s, shares), evals, lambda, rows, i)
    && |rows| == p.NumAnds() <= |s.lambdaAnd|
    && GammaUpTo(p, ViewOf(s, shares), lambda, s.lambdaAnd, gamma, i)
  }

  /** ag2pc_evaluator_and_gate: the output's label and masked bit, and the block for the gamma hash. */
  method EvaluatorAndGate(s: RunState, p: Program, i: nat, k: nat, row: Row,
                          ghost shares: seq<Bundle>, ghost evals: seq<Block>, ghost lambda: seq<bool>)
    returns (t: Block, lg: bool, m: Block)
    requires Walking(s, p, shares, i) && i < |p.gates| && p.gates[i].typ == AND && k == p.AndsBefore(i)
    requires |evals| == |lambda| == Out(p, i)
    requires Holds(p, s.life, s.phys, s.evalSlot, evals, i) && Holds(p, s.life, s.phys, s.maskInput, lambda, i)
    requires s.mitc.Valid() && s.mitc.drawn == k
    modifies s.mitc
    ensures s.mitc.Valid() && s.mitc.drawn == k + 1
    ensures p.Defined(i) && k < p.NumAnds()
    ensures var g, v := p.gates[i], ViewOf(s, shares);
      && Ungarbled(t, lg) == EvalAnd(v, shares[g.in0], shares[g.in1], shares[Out(p, i)], s.sigma[k], k,
                                     lambda[g.in0], lambda[g.in1], evals[g.in0], evals[g.in1], row)
      && m == BobGamma(s.delta, lambda[g.in0], lambda[g.in1], lg,
                       shares[g.in0], shares[g.in1], shares[Out(p, i)], s.sigma[k])
  {
    hide Walking, Holds, RunState.Planned;
    WalkingPlanned(s, p, shares, i);
    Operands(s, p, s.evalSlot, evals, i);
    Operands(s, p, s.maskInput, lambda, i);
    AndOperands(s, p, shares, i);
    var g, out := p.gates[i], Out(p, i);
    var la, lb := s.maskInput[s.phys[g.in0]], s.maskInput[s.phys[g.in1]];
    var in0, in1, wOut, sigma := s.wireSlot[s.phys[g.in0]], s.wireSlot[s.phys[g.in1]], s.wireSlot[s.phys[out]], s.sigma[k];
    var ea, eb := s.evalSlot[s.phys[g.in0]], s.evalSlot[s.phys[g.in1]];
    var mr := Xor(Xor(Xor(sigma.mac, wOut.mac), Select(la, in1.mac)), Select(lb, in0.mac));
    var buf := s.mitc.Hash([ea, eb], 1, 2, true);
    t := Xor(Xor(Xor(Xor(buf[0], buf[1]), Select(la, row.g0)), Select(lb, Xor(row.g1, ea))), mr);
    lg := row.bit != Lsb1(t);
    var t1 := (((((la && lb) != lg) != (la && Lsb(in1.mac))) != (lb && Lsb(in0.mac))) != Lsb(sigma.mac)) != Lsb(wOut.mac);
    m := Xor(Xor(Xor(Xor(Select(t1, s.delta), Select(la, in1.key)), Select(lb, in0.key)), sigma.key), wOut.key);
  }

  /** What gate `i` puts on the evaluator's output wire and adds to the gamma hash. */
  method EvaluatorValues(s: RunState, p: Program, i: nat, k: nat, row: Row, ghost shares: seq<Bundle>,
                         ghost evals: seq<Block>, ghost lambda: seq<bool>, ghost rows: seq<Row>, gamma: seq<Block>)
    returns (e: Block, l: bool, sent: seq<bool>, more: seq<Block>)
    requires AtEvaluator(s, p, shares, evals, lambda, rows, gamma, i) && i < |p.gates| && k == p.AndsBefore(i)
    requires p.gates[i].typ == AND ==> k < |rows| && row == rows[k]
    modifies s.mitc
    ensures s.mitc.Valid() && s.mitc.drawn == p.AndsBefore(i + 1)
    ensures |sent| == |s.lambdaAnd| && k <= |sent| && sent[..k] == s.lambdaAnd[..k]
    ensures |more| == if p.gates[i].typ == AND then 1 else 0
    ensures EvalHolds(p, ViewOf(s, shares), evals + [e], lambda + [l], rows, i)
    ensures LambdaHolds(p, sent, lambda + [l], i)
    ensures GammaBlock(p, ViewOf(s, shares), lambda + [l], gamma + more, i)
  {
    hide Holds, Walking, RunState.Planned, EvalsUpTo, GammaUpTo, EvalAnd, BobGamma;
    WalkingPlanned(s, p, shares, i);
    Operands(s, p, s.evalSlot, evals, i);
    Operands(s, p, s.maskInput, lambda, i);
    var g := p.gates[i];
    more, sent := [], s.lambdaAnd;
    GammaCount(p, ViewOf(s, shares), lambda, s.lambdaAnd, gamma, i);
    match g.typ {
      case AND =>
        var m;
        e, l, m := EvaluatorAndGate(s, p, i, k, row, shares, evals, lambda);
        more := [m];
        sent := sent[k := l];
      case XOR =>
        e := Xor(s.evalSlot[s.phys[g.in0]], s.evalSlot[s.phys[g.in1]]);
        l := s.maskInput[s.phys[g.in0]] != s.maskInput[s.phys[g.in1]];
      case INV =>
        e := s.evalSlot[s.phys[g.in0]];
        l := !s.maskInput[s.phys[g.in0]];
    }
  }

  /** One gate of ag2pc_evaluator_path. */
  method EvaluatorGate(s: RunState, p: Program, i: nat, k: nat, row: Row, ghost shares: seq<Bundle>,
                       ghost evals: seq<Block>, ghost lambda: seq<bool>, ghost rows: seq<Row>, gamma: seq<Block>)
    returns (gamma': seq<Block>, ghost evals': seq<Block>, ghost lambda': seq<bool>)
    requires AtEvaluator(s, p, shares, evals, lambda, rows, gamma, i) && i < |p.gates| && k == p.AndsBefore(i)
    requires p.gates[i].typ == AND ==> k < |rows| && row == rows[k]
    modifies s`wireSlot, s`evalSlot, s`maskInput, s`lambdaAnd, s.mitc
    ensures evals <= evals' && lambda <= lambda'
    ensures AtEvaluator(s, p, shares, evals', lambda', rows, gamma', i + 1)
  {
    hide Holds, Walking, RunState.Planned, EvalsUpTo, GammaUpTo, EvalHolds, LambdaHolds, GammaBlock, NeverClobbers;
    var e, l, sent, more := EvaluatorValues(s, p, i, k, row, shares, evals, lambda, rows, gamma);
    var out := Out(p, i);
    WalkingPlanned(s, p, shares, i);
    OutputSlot(s, p, i);
    p.AndsMonotone(i + 1, |p.gates|);
    OneMoreEval(p, ViewOf(s, shares), evals, lambda, rows, i, e, l);
    OneMoreGamma(p, ViewOf(s, shares), lambda, s.lambdaAnd, gamma, i, l, sent, more);
    Stored(s, p, s.evalSlot, evals, e, i);
    Stored(s, p, s.maskInput, lambda, l, i);
    RestoreShare(s, p, i, shares);
    s.evalSlot := s.evalSlot[s.phys[out] := e];
    s.maskInput := s.maskInput[s.phys[out] := l];
    s.lambdaAnd := sent;
    gamma', evals', lambda' := gamma + more, evals + [e], lambda + [l];
    WalkingPlanned(s, p, shares, i + 1);
  }

  lemma GammaCount(p: Program, v: View, lambda: seq<bool>, sent: seq<bool>, gamma: seq<Block>, n: nat)
    requires Covers(p, v) && n <= |p.gates| && |lambda| == p.numInputs + n && GammaUpTo(p, v, lambda, sent, gamma, n)
    ensures |gamma| == p.AndsBefore(n) <= |sent|
  {
  }

  /** The evaluator holds the rows from `next` up to the end of the chunks received so far. */
  predicate InboxAt(rows: seq<Row>, chunk: seq<Row>, pos: nat, next: nat, received: nat) {
    && pos <= |chunk|
    && next + |chunk| - pos == (if GARBLE_CHUNK * received < |rows| then GARBLE_CHUNK * received else |rows|)
    && chunk[pos..] == rows[next..next + |chunk| - pos]
  }

  /** The next garbled row, receiving a chunk when the current one is used up. */
  method NextRow(inbox: seq<seq<Row>>, ghost rows: seq<Row>, chunk: seq<Row>, pos: nat, ghost next: nat, received: nat)
    returns (row: Row, chunk': seq<Row>, pos': nat, received': nat)
    requires inbox == Split(rows, GARBLE_CHUNK) && InboxAt(rows, chunk, pos, next, received) && next < |rows|
    ensures row == rows[next] && InboxAt(rows, chunk', pos', next + 1, received')
  {
    chunk', pos', received' := chunk, pos, received;
    if pos' == |chunk'| {
      ChunkAt(rows, GARBLE_CHUNK, received);
      chunk', pos', received' := inbox[received], 0, received + 1;
    }
    row := chunk'[pos'];
    assert row == chunk'[pos'..][0] == rows[next];
    assert chunk'[pos' + 1..] == chunk'[pos'..][1..];
    pos' := pos' + 1;
  }

  /** ag2pc_evaluator_path up to the gamma check, for whatever rows arrive in the agreed chunks. */
  method EvaluatorPath(s: RunState, p: Program, inbox: seq<seq<Row>>, ghost rows: seq<Row>,
                       ghost shares: seq<Bundle>, ghost inputs: seq<Block>, ghost masks: seq<bool>)
    returns (gamma: seq<Block>, ghost evals: seq<Block>, ghost lambda: seq<bool>)
    requires AtEvaluator(s, p, shares, inputs, masks, rows, [], 0)
    requires inbox == Split(rows, GARBLE_CHUNK)
    modifies s`wireSlot, s`evalSlot, s`maskInput, s`lambdaAnd, s.mitc
    ensures inputs <= evals && masks <= lambda
    ensures AtEvaluator(s, p, shares, evals, lambda, rows, gamma, |p.gates|)
  {
    hide AtEvaluator, InboxAt;
    gamma, evals, lambda := [], inputs, masks;
    var chunk: seq<Row>, pos, andIndex, received := [], 0, 0, 0;
    EmptyInbox(rows);
    for i := 0 to |p.gates|
      invariant inputs <= evals && masks <= lambda
      invariant AtEvaluator(s, p, shares, evals, lambda, rows, gamma, i)
      invariant andIndex == p.AndsBefore(i) && InboxAt(rows, chunk, pos, andIndex, received)
    {
      var row := Row(ZERO, ZERO, false);
      if p.gates[i].typ == AND {
        RowsDue(s, p, shares, evals, lambda, rows, gamma, i);
        row, chunk, pos, received := NextRow(inbox, rows, chunk, pos, andIndex, received);
      }
      gamma, evals, lambda := EvaluatorGate(s, p, i, andIndex, row, shares, evals, lambda, rows, gamma);
      if p.gates[i].typ == AND {
        andIndex := andIndex + 1;
      }
    }
  }

  lemma EmptyInbox(rows: seq<Row>)
    ensures InboxAt(rows, [], 0, 0, 0)
  {
  }

  lemma RowsDue(s: RunState, p: Program, shares: seq<Bundle>, evals: seq<Block>, lambda: seq<bool>,
                rows: seq<Row>, gamma: seq<Block>, i: nat)
    requires AtEvaluator(s, p, shares, evals, lambda, rows, gamma, i)
    requires i < |p.gates| && p.gates[i].typ == AND
    ensures p.AndsBefore(i) < |rows|
  {
    AndIndex(p, i);
  }

  // ---- Alice's gamma pass ----

  /** The masked bits of the first `n` gates and the blocks Alice hashes for them. */
  ghost predicate AliceGammaUpTo(p: Program, v: View, lambda: seq<bool>, sent: seq<bool>, gamma: seq<Block>, n: nat)
    requires Covers(p, v) && n <= |p.gates| && |lambda| == p.numInputs + n
  {
    && |gamma| == p.AndsBefore(n)
    && (forall i :: 0 <= i < n ==> LambdaHolds(p, sent, lambda, i))
    && (forall i :: 0 <= i < n ==> AliceBlock(p, v, lambda, gamma, i))
  }

  predicate AliceBlock(p: Program, v: View, lambda: seq<bool>, gamma: seq<Block>, i: nat)
    requires Covers(p, v) && i < |p.gates| && Out(p, i) < |lambda|
  {
    if p.gates[i].typ != AND then true else
      AndIndex(p, i);
      assert p.Defined(i);
      var g, k, out := p.gates[i], p.AndsBefore(i), Out(p, i);
      k < |gamma| && gamma[k] == AliceGamma(lambda[g.in0], lambda[g.in1], v.shares[g.in0], v.shares[g.in1],
                                            v.shares[out], v.sigma[k])
  }

  lemma OneMoreAliceGamma(p: Program, v: View, lambda: seq<bool>, sent: seq<bool>, gamma: seq<Block>, n: nat,
                          l: bool, more: seq<Block>)
    requires Covers(p, v) && n < |p.gates| && |lambda| == p.numInputs + n && AliceGammaUpTo(p, v, lambda, sent, gamma, n)
    requires |more| == if p.gates[n].typ == AND then 1 else 0
    requires LambdaHolds(p, sent, lambda + [l], n) && AliceBlock(p, v, lambda + [l], gamma + more, n)
    ensures AliceGammaUpTo(p, v, lambda + [l], sent, gamma + more, n + 1)
  {
    hide AliceGamma;
    forall i | 0 <= i < n
      ensures LambdaHolds(p, sent, lambda + [l], i) && AliceBlock(p, v, lambda + [l], gamma + more, i)
    {
      assert p.Defined(i) && LambdaHolds(p, sent, lambda, i) && AliceBlock(p, v, lambda, gamma, i);
      p.AndsMonotone(i, n);
    }
  }

  ghost predicate AtGammaPass(s: RunState, p: Program, shares: seq<Bundle>, lambda: seq<bool>, gamma: seq<Block>, i: nat)
    reads s
  {
    && Walking(s, p, shares, i)
    && |s.maskInput| == s.numSlots && |lambda| == p.numInputs + i
    && Holds(p, s.life, s.phys, s.maskInput, lambda, i)
    && |s.lambdaAnd| == p.NumAnds()
    && AliceGammaUpTo(p, ViewOf(s, shares), lambda, s.lambdaAnd, gamma, i)
  }

  /** One gate of ag2pc_gamma_check_digest. */
  method GammaGate(s: RunState, p: Program, i: nat, k: nat, ghost shares: seq<Bundle>, ghost lambda: seq<bool>,
                   gamma: seq<Block>)
    returns (gamma': seq<Block>, ghost lambda': seq<bool>)
    requires AtGammaPass(s, p, shares, lambda, gamma, i) && i < |p.gates| && k == p.AndsBefore(i)
    modifies s`wireSlot, s`maskInput
    ensures lambda <= lambda' && AtGammaPass(s, p, shares, lambda', gamma', i + 1)
  {
    hide Holds, Walking, RunState.Planned, AliceGammaUpTo;
    WalkingPlanned(s, p, shares, i);
    Operands(s, p, s.maskInput, lambda, i);
    var g, out := p.gates[i], Out(p, i);
    var l: bool, more: seq<Block> := false, [];
    ghost var v := ViewOf(s, shares);
    match g.typ {
      case AND =>
        AndOperands(s, p, shares, i);
        l := s.lambdaAnd[k];
        var la, lb := s.maskInput[s.phys[g.in0]], s.maskInput[s.phys[g.in1]];
        var m := Xor(s.sigma[k].mac, s.wireSlot[s.phys[out]].mac);
        m := Xor(m, Select(la, s.wireSlot[s.phys[g.in1]].mac));
        m := Xor(m, Select(lb, s.wireSlot[s.phys[g.in0]].mac));
        more := [m];
        AliceGammaCount(p, v, lambda, s.lambdaAnd, gamma, i);
      case XOR =>
        l := s.maskInput[s.phys[g.in0]] != s.maskInput[s.phys[g.in1]];
      case INV =>
        l := !s.maskInput[s.phys[g.in0]];
    }
    assert LambdaHolds(p, s.lambdaAnd, lambda + [l], i) && AliceBlock(p, v, lambda + [l], gamma + more, i);
    OneMoreAliceGamma(p, v, lambda, s.lambdaAnd, gamma, i, l, more);
    Stored(s, p, s.maskInput, lambda, l, i);
    RestoreShare(s, p, i, shares);
    s.maskInput := s.maskInput[s.phys[out] := l];
    gamma', lambda' := gamma + more, lambda + [l];
    WalkingPlanned(s, p, shares, i + 1);
  }

  lemma AliceGammaCount(p: Program, v: View, lambda: seq<bool>, sent: seq<bool>, gamma: seq<Block>, n: nat)
    requires Covers(p, v) && n <= |p.gates| && |lambda| == p.numInputs + n && AliceGammaUpTo(p, v, lambda, sent, gamma, n)
    ensures |gamma| == p.AndsBefore(n)
  {
  }

  /** ag2pc_gamma_check_digest, once Bob's masked bits are in `lambdaAnd`. */
  method GammaPass(s: RunState, p: Program, ghost shares: seq<Bundle>, ghost masks: seq<bool>)
    returns (gamma: seq<Block>, ghost lambda: seq<bool>)
    requires AtGammaPass(s, p, shares, masks, [], 0)
    modifies s`wireSlot, s`maskInput
    ensures masks <= lambda && AtGammaPass(s, p, shares, lambda, gamma, |p.gates|)
  {
    hide AtGammaPass;
    gamma, lambda := [], masks;
    var andIndex := 0;
    for i := 0 to |p.gates|
      invariant masks <= lambda && AtGammaPass(s, p, shares, lambda, gamma, i)
      invariant andIndex == p.AndsBefore(i)
    {
      gamma, lambda := GammaGate(s, p, i, andIndex, shares, lambda, gamma);
      if p.gates[i].typ == AND {
        andIndex := andIndex + 1;
      }
    }
  }

  /** The values of the program's outputs, read off their slots by ag2pc_gather_outputs. */
  method Gather<T>(s: RunState, p: Program, mem: seq<T>, ghost want: seq<T>) returns (out: seq<T>)
    requires s.Planned(p) && |want| == p.numWires && Holds(p, s.life, s.phys, mem, want, |p.gates|)
    ensures |out| == |p.outputs| && forall j :: 0 <= j < |out| ==> p.outputs[j] < p.numWires && out[j] == want[p.outputs[j]]
  {
    hide Holds, Allocate, Describes;
    out := [];
    for j := 0 to |p.outputs|
      invariant |out| == j
      invariant forall m :: 0 <= m < j ==> p.outputs[m] < p.numWires && out[m] == want[p.outputs[m]]
    {
      var wire := p.outputs[j];
      assert wire in p.outputs;
      OutputsHeld(p, s.life, s.phys, mem, want, wire);
      out := out + [mem[s.phys[wire]]];
    }
  }
}

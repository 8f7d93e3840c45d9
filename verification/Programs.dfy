/** Programs in static single assignment form: gate `i` writes wire `numInputs + i`. */
module Programs {
  datatype GateType = AND | XOR | INV

  function Apply(typ: GateType, a: bool, b: bool): bool {
    match typ
    case AND => a && b
    case XOR => a != b
    case INV => !a
  }

  /** Ag2pcProgramGate; an INV gate ignores `in1`. */
  datatype Gate = Gate(typ: GateType, in0: nat, in1: nat) {
    predicate Reads(wire: nat) {
      wire == in0 || (typ != INV && wire == in1)
    }
  }

  /** Ag2pcProgram */
  datatype Program = Program(numInputs: nat, numWires: nat, outputs: seq<nat>, gates: seq<Gate>) {
    /** Every gate reads wires defined before it and every output is a wire. */
    predicate Topological() {
      && numWires == numInputs + |gates|
      && (forall i :: 0 <= i < |gates| ==> Defined(i))
      && (forall o :: o in outputs ==> o < numWires)
    }

    predicate Defined(i: nat)
      requires i < |gates|
    {
      gates[i].in0 < numInputs + i && (gates[i].typ != INV ==> gates[i].in1 < numInputs + i)
    }

    /** Is `wire` the output of an AND gate? */
    predicate IsAnd(wire: nat)
      requires wire < numInputs + |gates|
    {
      wire >= numInputs && gates[wire - numInputs].typ == AND
    }

    /** AND gates among the first `n` gates: the index of an AND gate at position `n`. */
    function AndsBefore(n: nat): (k: nat)
      requires n <= |gates|
      ensures k <= n
    {
      if n == 0 then 0 else AndsBefore(n - 1) + if gates[n - 1].typ == AND then 1 else 0
    }

    function NumAnds(): nat {
      AndsBefore(|gates|)
    }

    /** The value of the second operand; an INV gate has none. */
    function Second(wires: seq<bool>, i: nat): bool
      requires i < |gates| && Defined(i) && |wires| >= numInputs + i
    {
      if gates[i].typ == INV then false else wires[gates[i].in1]
    }

    /** All wire values after the first `n` gates. */
    function Wires(inputs: seq<bool>, n: nat): (wires: seq<bool>)
      requires Topological() && |inputs| == numInputs && n <= |gates|
      ensures |wires| == numInputs + n
    {
      if n == 0 then inputs
      else
        var wires := Wires(inputs, n - 1);
        assert Defined(n - 1);
        wires + [Apply(gates[n - 1].typ, wires[gates[n - 1].in0], Second(wires, n - 1))]
    }

    /** What the program computes in the clear. */
    function Eval(inputs: seq<bool>): (out: seq<bool>)
      requires Topological() && |inputs| == numInputs
      ensures |out| == |outputs|
    {
      var wires := Wires(inputs, |gates|);
      seq(|outputs|, i requires 0 <= i < |outputs| => assert outputs[i] in outputs; wires[outputs[i]])
    }

    /** `wires` assigns every wire the value its gate gives it. */
    predicate Solves(inputs: seq<bool>, wires: seq<bool>)
      requires Topological() && |inputs| == numInputs
    {
      && |wires| == numWires
      && wires[..numInputs] == inputs
      && forall i :: 0 <= i < |gates| ==> GateHolds(wires, i)
    }

    predicate GateHolds(wires: seq<bool>, i: nat)
      requires i < |gates| && Defined(i) && |wires| > numInputs + i
    {
      wires[numInputs + i] == Apply(gates[i].typ, wires[gates[i].in0], Second(wires, i))
    }

    lemma {:induction false} WiresExtend(inputs: seq<bool>, m: nat, n: nat)
      requires Topological() && |inputs| == numInputs && m <= n <= |gates|
      ensures Wires(inputs, m) == Wires(inputs, n)[..numInputs + m]
    {
      if m < n {
        WiresExtend(inputs, m, n - 1);
      }
    }

    /** Evaluation is the solution of the gate equations. */
    lemma WiresSolve(inputs: seq<bool>)
      requires Topological() && |inputs| == numInputs
      ensures Solves(inputs, Wires(inputs, |gates|))
    {
      var wires := Wires(inputs, |gates|);
      WiresExtend(inputs, 0, |gates|);
      forall i | 0 <= i < |gates|
        ensures GateHolds(wires, i)
      {
        WiresExtend(inputs, i + 1, |gates|);
        WiresExtend(inputs, i, |gates|);
        assert Wires(inputs, i + 1)[numInputs + i] == wires[numInputs + i];
        assert Defined(i);
      }
    }

    /** ... and the only one. */
    lemma {:induction false} SolutionUnique(inputs: seq<bool>, a: seq<bool>, b: seq<bool>, n: nat)
      requires Topological() && |inputs| == numInputs && Solves(inputs, a) && Solves(inputs, b)
      requires n <= numWires
      ensures a[..n] == b[..n]
    {
      if n > 0 {
        SolutionUnique(inputs, a, b, n - 1);
        if n <= numInputs {
          assert a[..numInputs][n - 1] == b[..numInputs][n - 1];
        } else {
          var i := n - 1 - numInputs;
          assert Defined(i) && GateHolds(a, i) && GateHolds(b, i);
          var g := gates[i];
          assert a[..n - 1][g.in0] == b[..n - 1][g.in0];
          assert g.typ != INV ==> a[..n - 1][g.in1] == b[..n - 1][g.in1];
        }
        assert a[..n] == a[..n - 1] + [a[n - 1]] && b[..n] == b[..n - 1] + [b[n - 1]];
      }
    }

    lemma {:induction false} AndsMonotone(m: nat, n: nat)
      requires m <= n <= |gates|
      ensures AndsBefore(m) <= AndsBefore(n)
      ensures m < n && gates[m].typ == AND ==> AndsBefore(m) < AndsBefore(n)
    {
      if m < n {
        AndsMonotone(m, n - 1);
      }
    }
  }
}

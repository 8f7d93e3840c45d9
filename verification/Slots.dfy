/** The linear-scan allocation of wire slots, and why a recycled slot never destroys a value still needed. */
module Slots {
  import opened Programs

  /** What ag2pc_liveness_pass records about every wire. */
  datatype Life = Life(persist: seq<bool>, lastUse: seq<int>) {
    /** Will `wire` be read by gate `n` or later, or handed out at the end? */
    predicate Live(wire: nat, n: nat)
      requires wire < |persist| == |lastUse|
    {
      persist[wire] || lastUse[wire] >= n
    }
  }

  predicate Sized(p: Program, life: Life) {
    |life.persist| == |life.lastUse| == p.numWires == p.numInputs + |p.gates|
  }

  /** Inputs, AND outputs and program outputs persist. The last use of a wire is the last gate reading it, or -1 if no
  gate does. */
  predicate Describes(p: Program, life: Life)
    requires p.Topological() && Sized(p, life)
  {
    && (forall w :: 0 <= w < p.numWires ==>
          life.persist[w] == (w < p.numInputs || p.IsAnd(w) || w in p.outputs))
    && (forall i, w :: 0 <= i < |p.gates| && 0 <= w < p.numWires && p.gates[i].Reads(w) ==> i <= life.lastUse[w])
    && (forall w :: 0 <= w < p.numWires ==> LastReads(p, life, w))
  }

  predicate LastReads(p: Program, life: Life, w: nat)
    requires w < |life.lastUse|
  {
    life.lastUse[w] == -1 || (0 <= life.lastUse[w] < |p.gates| && p.gates[life.lastUse[w]].Reads(w))
  }

  /** A program has only one such record. */
  lemma LifeUnique(p: Program, a: Life, b: Life)
    requires p.Topological() && Sized(p, a) && Sized(p, b) && Describes(p, a) && Describes(p, b)
    ensures a == b
  {
    forall w | 0 <= w < p.numWires
      ensures a.persist[w] == b.persist[w] && a.lastUse[w] == b.lastUse[w]
    {
      assert LastReads(p, a, w) && LastReads(p, b, w);
    }
  }

  /** The slot of every wire defined so far, the free list and the number of slots. */
  datatype Table = Table(phys: seq<nat>, free: seq<nat>, count: nat)

  function Identity(n: nat): (s: seq<nat>)
    ensures |s| == n && forall i :: 0 <= i < n ==> s[i] == i
  {
    seq(n, i requires 0 <= i < n => i)
  }

  /** ag2pc_alloc_slot: pop the free list for a wire that may die, a new slot otherwise. */
  function Alloc(t: Table, persist: bool): (r: Table)
    ensures |r.phys| == |t.phys| + 1 && t.count <= r.count
    ensures forall w :: 0 <= w < |t.phys| ==> r.phys[w] == t.phys[w]
  {
    if !persist && t.free != []
    then Table(t.phys + [t.free[|t.free| - 1]], t.free[..|t.free| - 1], t.count)
    else Table(t.phys + [t.count], t.free, t.count + 1)
  }

  /** ag2pc_free_if_dead */
  function FreeIfDead(life: Life, t: Table, wire: nat, gate: nat): (r: Table)
    requires wire < |t.phys| <= |life.persist| == |life.lastUse|
    ensures r.phys == t.phys && r.count == t.count
  {
    if !life.persist[wire] && life.lastUse[wire] == gate
    then t.(free := t.free + [t.phys[wire]])
    else t
  }

  /** Freeing the operands of gate `i`, each wire once. */
  function FreeOperands(p: Program, life: Life, t: Table, i: nat): (r: Table)
    requires p.Topological() && i < |p.gates|
    requires |t.phys| == p.numInputs + i + 1 <= |life.persist| == |life.lastUse|
    ensures r.phys == t.phys && r.count == t.count
  {
    var g := p.gates[i];
    assert p.Defined(i);
    var t' := FreeIfDead(life, t, g.in0, i);
    if g.typ != INV && g.in1 != g.in0 then FreeIfDead(life, t', g.in1, i) else t'
  }

  /** The table after the first `n` gates. */
  function Allocate(p: Program, life: Life, n: nat): (t: Table)
    requires p.Topological() && Sized(p, life) && n <= |p.gates|
    ensures |t.phys| == p.numInputs + n
  {
    if n == 0 then Table(Identity(p.numInputs), [], p.numInputs)
    else
      var t := Alloc(Allocate(p, life, n - 1), life.persist[p.numInputs + n - 1]);
      FreeOperands(p, life, t, n - 1)
  }

  lemma AllocateNone(p: Program, life: Life)
    requires p.Topological() && Sized(p, life)
    ensures Allocate(p, life, 0) == Table(Identity(p.numInputs), [], p.numInputs)
  {
  }

  lemma AllocateNext(p: Program, life: Life, n: nat)
    requires p.Topological() && Sized(p, life) && n < |p.gates|
    ensures Allocate(p, life, n + 1) == FreeOperands(p, life, Alloc(Allocate(p, life, n), life.persist[p.numInputs + n]), n)
  {
  }

  /** The first `n` gates never wrote into the slot of a wire that was still live, and the
  slot of a persistent wire was never given to another one. */
  predicate NeverClobbers(p: Program, life: Life, phys: seq<nat>, n: nat)
    requires |phys| == p.numInputs + n <= |life.persist| == |life.lastUse|
  {
    && (forall w, g :: 0 <= g < n && 0 <= w < p.numInputs + g && life.Live(w, g) ==> phys[w] != phys[p.numInputs + g])
    && (forall w, v :: 0 <= w < |phys| && 0 <= v < |phys| && w != v && life.persist[w] ==> phys[w] != phys[v])
  }

  /** No slot is on the free list twice, none of them is held by a live wire. */
  predicate FreeListSound(life: Life, t: Table, n: nat)
    requires |t.phys| <= |life.persist| == |life.lastUse|
  {
    && (forall i, j :: 0 <= i < j < |t.free| ==> t.free[i] != t.free[j])
    && (forall i :: 0 <= i < |t.free| ==> t.free[i] < t.count)
    && (forall w :: 0 <= w < |t.phys| ==> t.phys[w] < t.count)
    && (forall w, i :: 0 <= w < |t.phys| && 0 <= i < |t.free| && life.Live(w, n) ==> t.phys[w] != t.free[i])
  }

  /** Two wires that are both live hold different slots. */
  lemma LiveSlotsDiffer(p: Program, life: Life, phys: seq<nat>, n: nat, w: nat, v: nat)
    requires p.Topological() && Sized(p, life) && Describes(p, life) && 0 < n <= |p.gates| && |phys| == p.numInputs + n
    requires NeverClobbers(p, life, phys, n)
    requires w < |phys| && v < |phys| && w != v && life.Live(w, n - 1) && life.Live(v, n - 1)
    ensures phys[w] != phys[v]
  {
    var a, b := if w < v then w else v, if w < v then v else w;
    if b >= p.numInputs {
      assert life.Live(a, b - p.numInputs);
    }
  }

  /** Allocating the output of gate `n` keeps every promise: the slot it takes was free or new. */
  lemma AllocKeeps(p: Program, life: Life, t: Table, n: nat)
    requires p.Topological() && Sized(p, life) && Describes(p, life) && n < |p.gates| && |t.phys| == p.numInputs + n
    requires NeverClobbers(p, life, t.phys, n) && FreeListSound(life, t, n)
    ensures var t' := Alloc(t, life.persist[p.numInputs + n]);
            NeverClobbers(p, life, t'.phys, n + 1) && FreeListSound(life, t', n)
  {
    AllocClobbersNothing(p, life, t, n);
    AllocKeepsFreeList(life, t, n, life.persist[p.numInputs + n]);
  }

  lemma AllocClobbersNothing(p: Program, life: Life, t: Table, n: nat)
    requires p.Topological() && Sized(p, life) && n < |p.gates| && |t.phys| == p.numInputs + n
    requires NeverClobbers(p, life, t.phys, n) && FreeListSound(life, t, n)
    ensures NeverClobbers(p, life, Alloc(t, life.persist[p.numInputs + n]).phys, n + 1)
  {
    var t' := Alloc(t, life.persist[p.numInputs + n]);
    var out := p.numInputs + n;
    forall w | 0 <= w < out && life.Live(w, n)
      ensures t.phys[w] != t'.phys[out]
    {
    }
    forall w, v | 0 <= w < |t'.phys| && 0 <= v < |t'.phys| && w != v && life.persist[w]
      ensures t'.phys[w] != t'.phys[v]
    {
      assert w < out ==> life.Live(w, n);
      assert v < out ==> t.phys[v] < t.count;
    }
  }

  lemma AllocKeepsFreeList(life: Life, t: Table, n: nat, persist: bool)
    requires |t.phys| < |life.persist| == |life.lastUse| && FreeListSound(life, t, n)
    ensures FreeListSound(life, Alloc(t, persist), n)
  {
    var t' := Alloc(t, persist);
    forall w, i | 0 <= w < |t'.phys| && 0 <= i < |t'.free| && life.Live(w, n)
      ensures t'.phys[w] != t'.free[i]
    {
      assert t'.free[i] == t.free[i];
    }
  }

  /** Freeing one dead operand of gate `n` keeps the free list sound for the gates to come. */
  lemma FreeKeeps(p: Program, life: Life, t: Table, wire: nat, n: nat)
    requires p.Topological() && Sized(p, life) && Describes(p, life) && n < |p.gates| && |t.phys| == p.numInputs + n + 1
    requires NeverClobbers(p, life, t.phys, n + 1) && wire < |t.phys| && life.lastUse[wire] >= n
    requires FreeListSound(life, t, n + 1)
    requires forall i :: 0 <= i < |t.free| ==> t.free[i] != t.phys[wire]
    ensures FreeListSound(life, FreeIfDead(life, t, wire, n), n + 1)
    ensures FreeIfDead(life, t, wire, n).phys == t.phys
  {
    forall w | 0 <= w < |t.phys| && w != wire && life.Live(w, n + 1)
      ensures t.phys[w] != t.phys[wire]
    {
      LiveSlotsDiffer(p, life, t.phys, n + 1, w, wire);
    }
  }

  /** Freeing the operands of gate `n`. */
  lemma FreeOperandsKeeps(p: Program, life: Life, t: Table, n: nat)
    requires p.Topological() && Sized(p, life) && Describes(p, life) && n < |p.gates| && |t.phys| == p.numInputs + n + 1
    requires NeverClobbers(p, life, t.phys, n + 1) && FreeListSound(life, t, n)
    ensures FreeListSound(life, FreeOperands(p, life, t, n), n + 1)
    ensures FreeOperands(p, life, t, n).phys == t.phys
  {
    var g := p.gates[n];
    assert p.Defined(n) && g.Reads(g.in0);
    assert life.Live(g.in0, n);
    FreeKeeps(p, life, t, g.in0, n);
    var t' := FreeIfDead(life, t, g.in0, n);
    if g.typ != INV && g.in1 != g.in0 {
      assert g.Reads(g.in1) && life.Live(g.in1, n);
      LiveSlotsDiffer(p, life, t.phys, n + 1, g.in0, g.in1);
      FreeKeeps(p, life, t', g.in1, n);
    }
  }

  lemma NothingAllocated(p: Program, life: Life)
    requires p.Topological() && Sized(p, life) && Describes(p, life)
    ensures NeverClobbers(p, life, Allocate(p, life, 0).phys, 0)
    ensures FreeListSound(life, Allocate(p, life, 0), 0)
  {
  }

  /** Slot recycling is safe, for every program and every number of gates processed. */
  lemma {:induction false} AllocationSafe(p: Program, life: Life, n: nat)
    requires p.Topological() && Sized(p, life) && Describes(p, life) && n <= |p.gates|
    ensures NeverClobbers(p, life, Allocate(p, life, n).phys, n)
    ensures FreeListSound(life, Allocate(p, life, n), n)
  {
    hide Describes, NeverClobbers, FreeListSound, FreeOperands, Alloc;
    if n == 0 {
      NothingAllocated(p, life);
    } else {
      AllocationSafe(p, life, n - 1);
      var t := Allocate(p, life, n - 1);
      AllocKeeps(p, life, t, n - 1);
      FreeOperandsKeeps(p, life, Alloc(t, life.persist[p.numInputs + n - 1]), n - 1);
    }
  }

  // ---- no slot is lost ----

  /** Wires that keep their slot past gate `n`: the live ones, and those that no gate ever reads. */
  predicate Keeps(life: Life, w: nat, n: nat)
    requires w < |life.persist| == |life.lastUse|
  {
    life.Live(w, n) || life.lastUse[w] == -1
  }

  /** Every slot is on the free list or held by such a wire. */
  predicate SlotsHeld(life: Life, t: Table, n: nat)
    requires |t.phys| <= |life.persist| == |life.lastUse|
  {
    forall s :: 0 <= s < t.count ==> s in t.free || HasKeeper(life, t, n, s)
  }

  predicate HasKeeper(life: Life, t: Table, n: nat, s: nat)
    requires |t.phys| <= |life.persist| == |life.lastUse|
  {
    exists w :: 0 <= w < |t.phys| && Keeps(life, w, n) && t.phys[w] == s
  }

  function KeepersOf(life: Life, wires: nat, n: nat): (k: set<nat>)
    requires wires <= |life.persist| == |life.lastUse|
  {
    set w: nat | w < wires && Keeps(life, w, n)
  }

  /** What gate `n` gives back. */
  function DiesAt(p: Program, life: Life, n: nat): (k: set<nat>)
    requires p.Topological() && Sized(p, life) && n < |p.gates|
  {
    set w: nat | w in {p.gates[n].in0, p.gates[n].in1} && w < p.numWires && p.gates[n].Reads(w) && !life.persist[w] && life.lastUse[w] == n
  }

  /** The output of gate `n` is not read before it is there. */
  lemma NewKeeps(p: Program, life: Life, n: nat)
    requires p.Topological() && Sized(p, life) && Describes(p, life) && n < |p.gates|
    ensures Keeps(life, p.numInputs + n, n + 1)
  {
    var out := p.numInputs + n;
    assert LastReads(p, life, out);
    if 0 <= life.lastUse[out] <= n {
      assert p.Defined(life.lastUse[out]);
    }
  }

  /** From one gate to the next, keepers change by the new wire and the wires that die. */
  lemma KeepersStep(p: Program, life: Life, n: nat)
    requires p.Topological() && Sized(p, life) && Describes(p, life) && n < |p.gates|
    ensures DiesAt(p, life, n) <= KeepersOf(life, p.numInputs + n, n)
    ensures KeepersOf(life, p.numInputs + n + 1, n + 1) == KeepersOf(life, p.numInputs + n, n) - DiesAt(p, life, n) + {p.numInputs + n}
  {
    var out := p.numInputs + n;
    NewKeeps(p, life, n);
    assert p.Defined(n);
    forall w: nat | w < out
      ensures Keeps(life, w, n + 1) <==> Keeps(life, w, n) && w !in DiesAt(p, life, n)
    {
      assert LastReads(p, life, w);
    }
  }

  lemma DiesExactly(p: Program, life: Life, n: nat)
    requires p.Topological() && Sized(p, life) && n < |p.gates|
    ensures var g := p.gates[n];
      && g.in0 < p.numInputs + n && (g.typ != INV ==> g.in1 < p.numInputs + n)
      && DiesAt(p, life, n) ==
        (if !life.persist[g.in0] && life.lastUse[g.in0] == n then {g.in0} else {}) +
        (if g.typ != INV && g.in1 != g.in0 && !life.persist[g.in1] && life.lastUse[g.in1] == n then {g.in1} else {})
  {
    assert p.Defined(n);
  }

  lemma FreedCount(p: Program, life: Life, t: Table, n: nat)
    requires p.Topological() && Sized(p, life) && n < |p.gates| && |t.phys| == p.numInputs + n + 1
    ensures |FreeOperands(p, life, t, n).free| == |t.free| + |DiesAt(p, life, n)|
    ensures forall w :: w in DiesAt(p, life, n) ==> w < |t.phys| && t.phys[w] in FreeOperands(p, life, t, n).free
    ensures t.free <= FreeOperands(p, life, t, n).free
  {
    hide Program.Topological, DiesAt;
    var g := p.gates[n];
    DiesExactly(p, life, n);
    var f0 := if !life.persist[g.in0] && life.lastUse[g.in0] == n then [t.phys[g.in0]] else [];
    var f1 := if g.typ != INV && g.in1 != g.in0 && !life.persist[g.in1] && life.lastUse[g.in1] == n then [t.phys[g.in1]] else [];
    assert FreeOperands(p, life, t, n).free == t.free + f0 + f1;
    assert forall w :: w in DiesAt(p, life, n) ==> t.phys[w] in f0 + f1;
  }

  lemma HeldStep(p: Program, life: Life, t: Table, n: nat)
    requires p.Topological() && Sized(p, life) && Describes(p, life) && n < |p.gates| && |t.phys| == p.numInputs + n
    requires SlotsHeld(life, t, n)
    ensures SlotsHeld(life, FreeOperands(p, life, Alloc(t, life.persist[p.numInputs + n]), n), n + 1)
  {
    hide Describes, FreeOperands;
    var out := p.numInputs + n;
    var t1 := Alloc(t, life.persist[out]);
    var t2 := FreeOperands(p, life, t1, n);
    NewKeeps(p, life, n);
    KeepersStep(p, life, n);
    FreedCount(p, life, t1, n);
    forall s | 0 <= s < t2.count && s !in t2.free
      ensures HasKeeper(life, t2, n + 1, s)
    {
      if s != t2.phys[out] {
        assert s !in t.free;
        var w :| 0 <= w < |t.phys| && Keeps(life, w, n) && t.phys[w] == s;
        assert w in KeepersOf(life, out, n) && w !in DiesAt(p, life, n);
        assert w in KeepersOf(life, out + 1, n + 1);
      }
    }
  }

  lemma CountStep(p: Program, life: Life, t: Table, n: nat)
    requires p.Topological() && Sized(p, life) && Describes(p, life) && n < |p.gates| && |t.phys| == p.numInputs + n
    requires t.count == |t.free| + |KeepersOf(life, p.numInputs + n, n)|
    ensures var t' := FreeOperands(p, life, Alloc(t, life.persist[p.numInputs + n]), n);
      t'.count == |t'.free| + |KeepersOf(life, p.numInputs + n + 1, n + 1)|
  {
    hide Describes, FreeOperands, Keeps;
    KeepersStep(p, life, n);
    FreedCount(p, life, Alloc(t, life.persist[p.numInputs + n]), n);
    var before, dead := KeepersOf(life, p.numInputs + n, n), DiesAt(p, life, n);
    assert |before - dead| == |before| - |dead|;
  }

  /** No slot is ever lost, for every program and every number of gates processed: a slot is free, or held by a wire
  that is live or that no gate ever reads, and the three counts add up to the number of slots. */
  lemma {:induction false} SlotsConserved(p: Program, life: Life, n: nat)
    requires p.Topological() && Sized(p, life) && Describes(p, life) && n <= |p.gates|
    ensures SlotsHeld(life, Allocate(p, life, n), n)
    ensures Allocate(p, life, n).count == |Allocate(p, life, n).free| + |KeepersOf(life, p.numInputs + n, n)|
  {
    hide Describes, FreeOperands, Keeps, SlotsHeld, Alloc, KeepersOf;
    if n == 0 {
      StartHeld(p, life);
    } else {
      SlotsConserved(p, life, n - 1);
      var t := Allocate(p, life, n - 1);
      HeldStep(p, life, t, n - 1);
      CountStep(p, life, t, n - 1);
    }
  }

  lemma StartHeld(p: Program, life: Life)
    requires p.Topological() && Sized(p, life) && Describes(p, life)
    ensures SlotsHeld(life, Allocate(p, life, 0), 0)
    ensures |KeepersOf(life, p.numInputs, 0)| == p.numInputs
  {
    hide Allocate;
    AllocateNone(p, life);
    var t := Allocate(p, life, 0);
    forall s | 0 <= s < t.count
      ensures HasKeeper(life, t, 0, s)
    {
      assert Keeps(life, s, 0) && t.phys[s] == s;
    }
    assert KeepersOf(life, p.numInputs, 0) == Upto(p.numInputs);
  }

  function Upto(n: nat): (k: set<nat>)
    ensures |k| == n && forall w :: w in k <==> 0 <= w < n
  {
    if n == 0 then {} else Upto(n - 1) + {n - 1}
  }

  /** A slot, once given to a wire, stays with it. */
  lemma {:induction false} AllocationStable(p: Program, life: Life, m: nat, n: nat)
    requires p.Topological() && Sized(p, life) && m <= n <= |p.gates|
    ensures forall w :: 0 <= w < p.numInputs + m ==> Allocate(p, life, m).phys[w] == Allocate(p, life, n).phys[w]
    ensures Allocate(p, life, m).count <= Allocate(p, life, n).count
  {
    if m < n {
      hide FreeOperands, Alloc;
      AllocationStable(p, life, m, n - 1);
    }
  }

  /** Every wire that is live before gate `n` finds its own value in its slot. */
  ghost predicate Holds<T>(p: Program, life: Life, phys: seq<nat>, mem: seq<T>, want: seq<T>, n: nat)
    requires n <= |p.gates| && |phys| == p.numWires && Sized(p, life)
    requires |want| >= p.numInputs + n
  {
    forall w :: 0 <= w < p.numInputs + n && life.Live(w, n) ==> phys[w] < |mem| && mem[phys[w]] == want[w]
  }

  /** Writing the output of gate `n` to its slot leaves every live value in place. */
  lemma StoreKeeps<T>(p: Program, life: Life, phys: seq<nat>, mem: seq<T>, mem': seq<T>, want: seq<T>, n: nat)
    requires p.Topological() && Sized(p, life) && Describes(p, life) && n < |p.gates| && |phys| == p.numWires
    requires NeverClobbers(p, life, phys, |p.gates|)
    requires |want| > p.numInputs + n && Holds(p, life, phys, mem, want, n)
    requires phys[p.numInputs + n] < |mem'| && |mem| <= |mem'| && mem'[phys[p.numInputs + n]] == want[p.numInputs + n]
    requires forall s :: 0 <= s < |mem| && s != phys[p.numInputs + n] ==> mem'[s] == mem[s]
    ensures Holds(p, life, phys, mem', want, n + 1)
  {
    forall w | 0 <= w < p.numInputs + n && life.Live(w, n + 1)
      ensures phys[w] < |mem'| && mem'[phys[w]] == want[w]
    {
      assert life.Live(w, n) && phys[w] != phys[p.numInputs + n];
    }
  }

  /** Reading an operand of gate `n` therefore yields its value. */
  lemma ReadsValue<T>(p: Program, life: Life, phys: seq<nat>, mem: seq<T>, want: seq<T>, n: nat, wire: nat)
    requires p.Topological() && Sized(p, life) && Describes(p, life) && n < |p.gates| && |phys| == p.numWires
    requires |want| >= p.numInputs + n && Holds(p, life, phys, mem, want, n)
    requires p.gates[n].Reads(wire)
    ensures wire < p.numInputs + n && phys[wire] < |mem| && mem[phys[wire]] == want[wire]
  {
    assert p.Defined(n);
    assert life.Live(wire, n);
  }

  /** On a later walk a wire also finds its value when it persists, whether or not the walk
  has come to it yet. */
  ghost predicate Held<T>(p: Program, life: Life, phys: seq<nat>, mem: seq<T>, want: seq<T>, n: nat)
    requires n <= |p.gates| && |phys| == p.numWires == |want| && Sized(p, life)
  {
    forall w :: 0 <= w < p.numWires && (life.persist[w] || (w < p.numInputs + n && life.Live(w, n))) ==>
      phys[w] < |mem| && mem[phys[w]] == want[w]
  }

  /** What the first walk leaves behind is what the next walk starts from. */
  lemma WalkAgain<T>(p: Program, life: Life, phys: seq<nat>, mem: seq<T>, want: seq<T>)
    requires p.Topological() && Sized(p, life) && Describes(p, life) && |phys| == p.numWires == |want|
    requires Holds(p, life, phys, mem, want, |p.gates|) || Held(p, life, phys, mem, want, |p.gates|)
    ensures Held(p, life, phys, mem, want, 0)
  {
  }

  /** Recomputing the output of gate `n` into its slot keeps every value in place. */
  lemma RestoreKeeps<T>(p: Program, life: Life, phys: seq<nat>, mem: seq<T>, want: seq<T>, n: nat)
    requires p.Topological() && Sized(p, life) && Describes(p, life) && n < |p.gates| && |phys| == p.numWires == |want|
    requires NeverClobbers(p, life, phys, |p.gates|) && Held(p, life, phys, mem, want, n)
    requires phys[p.numInputs + n] < |mem|
    ensures Held(p, life, phys, mem[phys[p.numInputs + n] := want[p.numInputs + n]], want, n + 1)
  {
    var out := p.numInputs + n;
    var mem' := mem[phys[out] := want[out]];
    forall w | 0 <= w < p.numWires && w != out && (life.persist[w] || (w < out && life.Live(w, n + 1)))
      ensures phys[w] < |mem'| && mem'[phys[w]] == want[w]
    {
      assert life.persist[w] || life.Live(w, n);
      assert phys[w] != phys[out];
    }
  }

  /** An AND output needs no recomputing: its slot was never given away. */
  lemma AndKeeps<T>(p: Program, life: Life, phys: seq<nat>, mem: seq<T>, want: seq<T>, n: nat)
    requires p.Topological() && Sized(p, life) && Describes(p, life) && n < |p.gates| && |phys| == p.numWires == |want|
    requires p.gates[n].typ == AND && Held(p, life, phys, mem, want, n)
    ensures Held(p, life, phys, mem, want, n + 1)
    ensures phys[p.numInputs + n] < |mem| && mem[phys[p.numInputs + n]] == want[p.numInputs + n]
  {
    assert life.persist[p.numInputs + n];
  }

  lemma ReadsHeld<T>(p: Program, life: Life, phys: seq<nat>, mem: seq<T>, want: seq<T>, n: nat, wire: nat)
    requires p.Topological() && Sized(p, life) && Describes(p, life) && n < |p.gates| && |phys| == p.numWires == |want|
    requires Held(p, life, phys, mem, want, n) && p.gates[n].Reads(wire)
    ensures wire < p.numInputs + n && phys[wire] < |mem| && mem[phys[wire]] == want[wire]
  {
    assert p.Defined(n);
    assert life.Live(wire, n);
  }

  /** Inputs sit in the first slots when a walk starts. */
  lemma InputsHeld<T>(p: Program, life: Life, phys: seq<nat>, mem: seq<T>, want: seq<T>)
    requires p.Topological() && Sized(p, life) && phys == Allocate(p, life, |p.gates|).phys
    requires p.numInputs <= |want| && p.numInputs <= |mem| && forall w :: 0 <= w < p.numInputs ==> mem[w] == want[w]
    ensures Holds(p, life, phys, mem, want, 0)
  {
    AllocationStable(p, life, 0, |p.gates|);
  }

  /** Outputs persist, so the end of a walk hands out their values. */
  lemma OutputsHeld<T>(p: Program, life: Life, phys: seq<nat>, mem: seq<T>, want: seq<T>, o: nat)
    requires p.Topological() && Sized(p, life) && Describes(p, life) && |phys| == p.numWires <= |want|
    requires Holds(p, life, phys, mem, want, |p.gates|) && o in p.outputs
    ensures o < p.numWires && phys[o] < |mem| && mem[phys[o]] == want[o]
  {
    assert life.persist[o];
  }
}

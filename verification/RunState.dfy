/** One party's state while it walks a program.

Wire data lives in recycled slots, and each walk over the gates overwrites them in place. */
module RunStates {
  import opened Blocks
  import opened Auth
  import opened Programs
  import opened Slots
  import opened Garbling
  import opened Mitccrh
  import opened TriplePool

  /** Ag2pcSecureWires: Alice keeps zero labels, Bob evaluated labels. */
  datatype SecureWires = SecureWires(lambda: seq<bool>, bundle: seq<Bundle>, label0: seq<Block>, eval: seq<Block>) {
    /** check_secure_wires */
    predicate Shaped(party: Role) {
      && |bundle| == |lambda|
      && (party == Alice ==> |label0| == |lambda|)
      && (party == Bob ==> |eval| == |lambda|)
    }
  }

  /** Fresh shares are drawn in batches of this many. */
  const DRAW_BATCH: nat := 16384

  /** The first `n` shares a pool hands out after `start`. */
  function Drawn(stream: nat -> Bundle, start: nat, n: nat): (s: seq<Bundle>)
    ensures |s| == n && forall k :: 0 <= k < n ==> s[k] == stream(start + k)
  {
    seq(n, k requires 0 <= k < n => stream(start + k))
  }

  function Batched(n: nat): nat {
    DRAW_BATCH * ((n + DRAW_BATCH - 1) / DRAW_BATCH)
  }

  /** The buffer of fresh shares after `used` of them went to AND gates. */
  ghost predicate BufferAt(pool: Pool, start: nat, buffer: seq<Bundle>, offset: nat, used: nat)
    reads pool
  {
    && offset <= |buffer| && pool.pos == start + Batched(used)
    && used + |buffer| - offset == Batched(used)
    && forall j :: offset <= j < |buffer| ==> buffer[j] == pool.Current()(start + used + j - offset)
  }

  /** The next fresh share, refilling the buffer when it is used up. */
  method NextShare(pool: Pool, buffer: seq<Bundle>, offset: nat, ghost start: nat, ghost used: nat)
    returns (share: Bundle, rest: seq<Bundle>, next: nat)
    requires BufferAt(pool, start, buffer, offset, used)
    modifies pool`pos
    ensures BufferAt(pool, start, rest, next, used + 1)
    ensures share == pool.Current()(start + used)
  {
    rest, next := buffer, offset;
    if next >= |rest| {
      rest := pool.Draw(DRAW_BATCH);
      next := 0;
    }
    share := rest[next];
    next := next + 1;
  }

  function Zeros(n: nat): (s: seq<Block>)
    ensures |s| == n && forall i :: 0 <= i < n ==> s[i] == ZERO
  {
    if n == 0 then [] else Zeros(n - 1) + [ZERO]
  }

  /** Ag2pcRunState */
  class RunState {
    const party: Role
    const delta: Block
    var numSlots: nat
    var numAnds: nat
    var life: Life
    var phys: seq<nat>
    var wireSlot: seq<Bundle>
    var maskInput: seq<bool>
    var labelSlot: seq<Block>
    var evalSlot: seq<Block>
    var repA: seq<Bundle>
    var repB: seq<Bundle>
    var sigma: seq<Bundle>
    var lambdaAnd: seq<bool>
    const mitc: Mitccrh8

    /** new, with the hash that run_program keys from the transcript. */
    constructor (party: Role, delta: Block, inputs: SecureWires, mitc: Mitccrh8)
      ensures this.party == party && this.delta == delta && this.mitc == mitc
      ensures numSlots == |inputs.lambda|
      ensures wireSlot == inputs.bundle && maskInput == inputs.lambda
      ensures labelSlot == inputs.label0 && evalSlot == inputs.eval
    {
      this.party, this.delta, this.mitc := party, delta, mitc;
      numSlots, numAnds := |inputs.lambda|, 0;
      life, phys := Life([], []), [];
      wireSlot, maskInput := inputs.bundle, inputs.lambda;
      labelSlot, evalSlot := inputs.label0, inputs.eval;
      repA, repB, sigma, lambdaAnd := [], [], [], [];
    }

    /** ag2pc_liveness_pass */
    method LivenessPass(p: Program)
      requires p.Topological()
      modifies this`life, this`numAnds
      ensures Sized(p, life) && Describes(p, life) && numAnds == p.NumAnds()
    {
      var n := p.numInputs;
      var persist: seq<bool> := seq(p.numWires, w => w < n);
      var lastUse: seq<int> := seq(p.numWires, _ => -1);
      numAnds := 0;
      for i := 0 to |p.gates|
        invariant |persist| == |lastUse| == p.numWires && numAnds == p.AndsBefore(i)
        invariant forall w :: 0 <= w < p.numWires ==> persist[w] == (w < n || (w < n + i && p.IsAnd(w)))
        invariant forall j, w :: 0 <= j < i && 0 <= w < p.numWires && p.gates[j].Reads(w) ==> j <= lastUse[w]
        invariant forall w :: 0 <= w < p.numWires ==> lastUse[w] == -1 || (0 <= lastUse[w] < i && p.gates[lastUse[w]].Reads(w))
      {
        var g, out := p.gates[i], n + i;
        assert p.Defined(i);
        persist := persist[out := g.typ == AND];
        lastUse := lastUse[g.in0 := i];
        if g.typ != INV {
          lastUse := lastUse[g.in1 := i];
        }
        if g.typ == AND {
          numAnds := numAnds + 1;
        }
      }
      for i := 0 to |p.outputs|
        invariant |persist| == |lastUse| == p.numWires
        invariant forall w :: 0 <= w < p.numWires ==> persist[w] == (w < n || p.IsAnd(w) || w in p.outputs[..i])
      {
        assert p.outputs[i] in p.outputs;
        persist := persist[p.outputs[i] := true];
        assert p.outputs[..i + 1] == p.outputs[..i] + [p.outputs[i]];
      }
      assert p.outputs[..|p.outputs|] == p.outputs;
      life := Life(persist, lastUse);
    }

    /** The slot fields agree with the allocation table. */
    ghost predicate AtTable(t: Table)
      reads this
    {
      && |t.phys| <= |phys| && phys[..|t.phys|] == t.phys
      && numSlots == t.count == |wireSlot| == |maskInput|
    }

    /** ag2pc_alloc_slot with ag2pc_push_slot */
    method AllocSlot(wire: nat, free: seq<nat>, ghost t: Table) returns (slot: nat, left: seq<nat>)
      requires AtTable(t) && free == t.free && wire == |t.phys| < |phys| && wire < |life.persist|
      modifies this`phys, this`numSlots, this`wireSlot, this`maskInput
      ensures var t' := Alloc(t, life.persist[wire]);
        AtTable(t') && |phys| == |old(phys)| && left == t'.free && slot == t'.phys[wire]
      ensures old(wireSlot) <= wireSlot && old(maskInput) <= maskInput
    {
      if !life.persist[wire] && |free| > 0 {
        slot, left := free[|free| - 1], free[..|free| - 1];
      } else {
        slot, left := numSlots, free;
        numSlots := numSlots + 1;
        wireSlot := wireSlot + [PUBLIC];
        maskInput := maskInput + [false];
      }
      phys := phys[wire := slot];
      assert phys[..wire + 1] == t.phys + [slot];
    }

    /** ag2pc_free_if_dead */
    method FreeDead(wire: nat, gate: nat, free: seq<nat>, ghost t: Table) returns (left: seq<nat>)
      requires wire < |t.phys| <= |life.persist| == |life.lastUse|
      requires |t.phys| <= |phys| && phys[..|t.phys|] == t.phys && free == t.free
      ensures left == FreeIfDead(life, t, wire, gate).free
    {
      left := free;
      if !life.persist[wire] && life.lastUse[wire] == gate {
        assert phys[wire] == phys[..|t.phys|][wire];
        left := left + [phys[wire]];
      }
    }

    /** ag2pc_slot_capacity: a dry run of the allocation that predicts the number of slots. */
    method SlotCapacity(p: Program) returns (capacity: nat)
      requires p.Topological() && Sized(p, life) && numSlots == p.numInputs
      ensures capacity == Allocate(p, life, |p.gates|).count
    {
      hide Allocate;
      var table: seq<nat> := Identity(p.numInputs);
      var free: seq<nat>, count := [], p.numInputs;
      AllocateNone(p, life);
      for i := 0 to |p.gates|
        invariant Table(table, free, count) == Allocate(p, life, i)
      {
        var g, out := p.gates[i], Out(p, i);
        assert p.Defined(i);
        AllocateNext(p, life, i);
        var slot: nat;
        if !life.persist[out] && |free| > 0 {
          slot, free := free[|free| - 1], free[..|free| - 1];
        } else {
          slot, count := count, count + 1;
        }
        table := table + [slot];
        if !life.persist[g.in0] && life.lastUse[g.in0] == i {
          free := free + [table[g.in0]];
        }
        if g.typ != INV && g.in1 != g.in0 && !life.persist[g.in1] && life.lastUse[g.in1] == i {
          free := free + [table[g.in1]];
        }
      }
      capacity := count;
    }

    static lemma SlotTaken(p: Program, life: Life, i: nat)
      requires p.Topological() && Sized(p, life) && Describes(p, life) && i < |p.gates|
      ensures Allocate(p, life, i + 1).phys[Out(p, i)] < Allocate(p, life, i + 1).count
    {
      hide Describes, NeverClobbers, Allocate;
      AllocationSafe(p, life, i + 1);
    }

    /** One gate of the slot pass: its output gets a slot, its dead operands give theirs back. */
    method PlaceGate(p: Program, i: nat, free: seq<nat>, share: Bundle) returns (left: seq<nat>)
      requires p.Topological() && Sized(p, life) && Describes(p, life) && i < |p.gates| && |phys| == p.numWires
      requires AtTable(Allocate(p, life, i)) && free == Allocate(p, life, i).free
      modifies this`phys, this`numSlots, this`wireSlot, this`maskInput
      ensures AtTable(Allocate(p, life, i + 1)) && left == Allocate(p, life, i + 1).free && |phys| == p.numWires
      ensures var slot := Allocate(p, life, i + 1).phys[Out(p, i)];
        && slot < |wireSlot| && wireSlot[slot] == share && !maskInput[slot]
        && |old(wireSlot)| <= |wireSlot| && |old(maskInput)| <= |maskInput|
        && (forall s :: 0 <= s < |old(wireSlot)| && s != slot ==> wireSlot[s] == old(wireSlot)[s])
        && (forall s :: 0 <= s < |old(maskInput)| && s != slot ==> maskInput[s] == old(maskInput)[s])
    {
      hide Allocate, Describes, Alloc, FreeIfDead;
      var g, out := p.gates[i], Out(p, i);
      assert p.Defined(i);
      SlotTaken(p, life, i);
      AllocateNext(p, life, i);
      ghost var t := Allocate(p, life, i);
      ghost var t1 := Alloc(t, life.persist[out]);
      ghost var t2 := FreeIfDead(life, t1, g.in0, i);
      var slot;
      slot, left := AllocSlot(out, free, t);
      assert slot == Allocate(p, life, i + 1).phys[out];
      wireSlot := wireSlot[slot := share];
      maskInput := maskInput[slot := false];
      left := FreeDead(g.in0, i, left, t1);
      if g.typ != INV && g.in1 != g.in0 {
        left := FreeDead(g.in1, i, left, t2);
      }
    }

    /** The masked bits this party starts a walk with: its inputs', and none for gate outputs. */
    ghost function BlankMasks(inputs: seq<bool>, n: nat): (m: seq<bool>) {
      inputs + NoBits(n)
    }

    /** The plan is complete: every wire has its slot for good. */
    ghost predicate Planned(p: Program)
      reads this`life, this`phys, this`numSlots, this`numAnds
    {
      && p.Topological() && Sized(p, life) && Describes(p, life)
      && numAnds == p.NumAnds()
      && phys == Allocate(p, life, |p.gates|).phys
      && numSlots == Allocate(p, life, |p.gates|).count
    }

    /** What the slot pass has established after `i` gates. */
    ghost predicate PassedGates(p: Program, table: seq<nat>, inputs: SecureWires, shares: seq<Bundle>, i: nat)
      requires p.Topological() && Sized(p, life) && i <= |p.gates| && |table| == p.numWires
      requires |shares| == p.numInputs + i && |inputs.lambda| == p.numInputs
      reads this`life, this`wireSlot, this`maskInput
    {
      && Holds(p, life, table, wireSlot, shares, i)
      && Holds(p, life, table, maskInput, BlankMasks(inputs.lambda, i), i)
    }

    /** Placing the output of gate `i` keeps every live share and mask in its slot. */
    method PlaceShare(p: Program, i: nat, free: seq<nat>, share: Bundle, ghost table: seq<nat>,
                      ghost inputs: SecureWires, ghost shares: seq<Bundle>) returns (left: seq<nat>)
      requires p.Topological() && Sized(p, life) && Describes(p, life) && i < |p.gates| && |phys| == p.numWires
      requires table == Allocate(p, life, |p.gates|).phys
      requires AtTable(Allocate(p, life, i)) && free == Allocate(p, life, i).free
      requires |shares| == p.numInputs + i && |inputs.lambda| == p.numInputs
      requires PassedGates(p, table, inputs, shares, i)
      modifies this`phys, this`numSlots, this`wireSlot, this`maskInput
      ensures AtTable(Allocate(p, life, i + 1)) && left == Allocate(p, life, i + 1).free && |phys| == p.numWires
      ensures PassedGates(p, table, inputs, shares + [share], i + 1)
    {
      hide Holds, Describes, Allocate, NeverClobbers, FreeListSound;
      ghost var mem, masks := wireSlot, maskInput;
      AllocationStable(p, life, i + 1, |p.gates|);
      AllocationSafe(p, life, |p.gates|);
      left := PlaceGate(p, i, free, share);
      HoldsExtends(p, life, table, mem, shares, share, i);
      HoldsExtends(p, life, table, masks, BlankMasks(inputs.lambda, i), false, i);
      assert BlankMasks(inputs.lambda, i) + [false] == BlankMasks(inputs.lambda, i + 1);
      StoreKeeps(p, life, table, mem, wireSlot, shares + [share], i);
      StoreKeeps(p, life, table, masks, maskInput, BlankMasks(inputs.lambda, i) + [false], i);
    }

    static lemma HoldsExtends<T>(p: Program, life: Life, table: seq<nat>, mem: seq<T>, want: seq<T>, x: T, i: nat)
      requires Sized(p, life) && i <= |p.gates| && |table| == p.numWires && |want| >= p.numInputs + i
      requires Holds(p, life, table, mem, want, i)
      ensures Holds(p, life, table, mem, want + [x], i)
    {
    }

    /** The operand shares recorded for gate `i`, if it is an AND. */
    static predicate OperandsHold(p: Program, repA: seq<Bundle>, repB: seq<Bundle>, shares: seq<Bundle>, i: nat)
      requires p.Topological() && i < |p.gates| && |shares| >= Out(p, i)
    {
      assert p.Defined(i);
      p.gates[i].typ == AND ==>
        var g, k := p.gates[i], p.AndsBefore(i);
        k < |repA| == |repB| && repA[k] == shares[g.in0] && repB[k] == shares[g.in1]
    }

    /** The share equations and recorded operands of the first `n` gates. */
    static ghost predicate SharesUpTo(p: Program, draws: seq<Bundle>, shares: seq<Bundle>,
                                      repA: seq<Bundle>, repB: seq<Bundle>, n: nat)
      requires p.Topological() && n <= |p.gates| && |shares| >= p.numInputs + n
    {
      && |repA| == |repB| == p.AndsBefore(n)
      && (forall i :: 0 <= i < n ==> ShareHolds(p, draws, shares, i))
      && (forall i :: 0 <= i < n ==> OperandsHold(p, repA, repB, shares, i))
    }

    static lemma OneMoreShare(p: Program, draws: seq<Bundle>, shares: seq<Bundle>, repA: seq<Bundle>, repB: seq<Bundle>,
                              n: nat, share: Bundle, moreA: seq<Bundle>, moreB: seq<Bundle>)
      requires p.Topological() && n < |p.gates| && |shares| == p.numInputs + n && |draws| == p.NumAnds()
      requires SharesUpTo(p, draws, shares, repA, repB, n)
      requires var g := p.gates[n]; p.Defined(n) && match g.typ
        case AND =>
          && moreA == [shares[g.in0]] && moreB == [shares[g.in1]]
          && p.AndsBefore(n) < p.NumAnds() && share == draws[p.AndsBefore(n)]
        case XOR => moreA == moreB == [] && share == Add(shares[g.in0], shares[g.in1])
        case INV => moreA == moreB == [] && share == shares[g.in0]
      ensures SharesUpTo(p, draws, shares + [share], repA + moreA, repB + moreB, n + 1)
    {
      var shares' := shares + [share];
      forall i | 0 <= i < n
        ensures ShareHolds(p, draws, shares', i)
        ensures OperandsHold(p, repA + moreA, repB + moreB, shares', i)
      {
        assert p.Defined(i) && ShareHolds(p, draws, shares, i) && OperandsHold(p, repA, repB, shares, i);
      }
    }

    /** One gate of the slot pass: its share, then its slot. */
    method PassGate(p: Program, i: nat, pool: Pool, free: seq<nat>, buffer: seq<Bundle>, offset: nat, ghost start: nat,
                    ghost table: seq<nat>, ghost inputs: SecureWires, ghost shares: seq<Bundle>, ghost draws: seq<Bundle>)
      returns (share: Bundle, left: seq<nat>, rest: seq<Bundle>, next: nat)
      requires p.Topological() && Sized(p, life) && Describes(p, life) && i < |p.gates| && |phys| == p.numWires
      requires table == Allocate(p, life, |p.gates|).phys && draws == Drawn(pool.Current(), start, p.NumAnds())
      requires AtTable(Allocate(p, life, i)) && free == Allocate(p, life, i).free
      requires |shares| == p.numInputs + i && |inputs.lambda| == p.numInputs
      requires PassedGates(p, table, inputs, shares, i) && SharesUpTo(p, draws, shares, repA, repB, i)
      requires BufferAt(pool, start, buffer, offset, p.AndsBefore(i))
      modifies this`phys, this`numSlots, this`wireSlot, this`maskInput, this`repA, this`repB, pool`pos
      ensures AtTable(Allocate(p, life, i + 1)) && left == Allocate(p, life, i + 1).free && |phys| == p.numWires
      ensures PassedGates(p, table, inputs, shares + [share], i + 1) && SharesUpTo(p, draws, shares + [share], repA, repB, i + 1)
      ensures BufferAt(pool, start, rest, next, p.AndsBefore(i + 1))
    {
      hide Holds, Describes, NeverClobbers, FreeListSound, SharesUpTo, BufferAt, Batched, PassedGates, Allocate, Sized, Drawn;
      AllocationPrefix(p, life, i);
      rest, next := buffer, offset;
      if p.gates[i].typ == AND {
        share, rest, next := AndShare(p, i, pool, buffer, offset, start, table, inputs, shares);
      } else {
        share := LinearShare(p, i, table, inputs, shares, draws);
      }
      left := PlaceShare(p, i, free, share, table, inputs, shares);
    }

    /** ag2pc_slot_mask_pass: allocates every wire's slot, computes this party's share of every
    wire, records the AND operands and leaves only the input masks set. */
    method SlotMaskPass(p: Program, pool: Pool, ghost inputs: SecureWires) returns (ghost shares: seq<Bundle>)
      requires p.Topological() && Sized(p, life) && Describes(p, life) && numAnds == p.NumAnds()
      requires inputs.Shaped(party) && |inputs.lambda| == p.numInputs == numSlots
      requires wireSlot == inputs.bundle && maskInput == inputs.lambda
      requires labelSlot == inputs.label0 && evalSlot == inputs.eval
      modifies this`phys, this`numSlots, this`wireSlot, this`maskInput, this`repA, this`repB
      modifies this`labelSlot, this`evalSlot, pool`pos
      ensures Planned(p) && |wireSlot| == |maskInput| == numSlots
      ensures |shares| == p.numWires && shares[..p.numInputs] == inputs.bundle
      ensures SharesUpTo(p, Drawn(pool.Current(), old(pool.pos), p.NumAnds()), shares, repA, repB, |p.gates|)
      ensures PassedGates(p, phys, inputs, shares, |p.gates|)
      ensures pool.pos == old(pool.pos) + Batched(p.NumAnds())
      ensures party == Alice ==> inputs.label0 <= labelSlot && |labelSlot| == numSlots
      ensures party == Bob ==> inputs.eval <= evalSlot && |evalSlot| == numSlots
    {
      hide AtTable, Holds, Describes, NeverClobbers, FreeListSound, SharesUpTo, BufferAt, Batched, PassedGates, Allocate, Sized, Drawn;
      ghost var table := Allocate(p, life, |p.gates|).phys;
      ghost var draws := Drawn(pool.Current(), pool.pos, p.NumAnds());
      ghost var start := pool.pos;
      StartPass(p, draws, table, inputs);
      phys := Identity(p.numInputs) + seq(p.numWires - p.numInputs, _ => 0xFFFF_FFFF);
      repA, repB := [], [];
      shares := inputs.bundle;
      NonePlaced(p);
      var free: seq<nat> := [];
      var buffer: seq<Bundle>, offset: nat := [], 0;
      NoneUsed(pool);
      for i := 0 to |p.gates|
        invariant AtTable(Allocate(p, life, i)) && free == Allocate(p, life, i).free && |phys| == p.numWires
        invariant |shares| == p.numInputs + i && shares[..p.numInputs] == inputs.bundle
        invariant PassedGates(p, table, inputs, shares, i)
        invariant SharesUpTo(p, draws, shares, repA, repB, i)
        invariant BufferAt(pool, start, buffer, offset, p.AndsBefore(i))
        invariant labelSlot == inputs.label0 && evalSlot == inputs.eval
      {
        var share;
        share, free, buffer, offset := PassGate(p, i, pool, free, buffer, offset, start, table, inputs, shares, draws);
        shares := shares + [share];
      }
      AllPlaced(p);
      SizeLabels();
      AllUsed(pool, start, buffer, offset, p.NumAnds());
    }

    lemma NonePlaced(p: Program)
      requires p.Topological() && Sized(p, life) && p.numInputs <= |phys| && phys[..p.numInputs] == Identity(p.numInputs)
      requires numSlots == p.numInputs == |wireSlot| == |maskInput|
      ensures AtTable(Allocate(p, life, 0)) && Allocate(p, life, 0).free == []
    {
    }

    lemma AllPlaced(p: Program)
      requires p.Topological() && Sized(p, life) && |phys| == p.numWires && AtTable(Allocate(p, life, |p.gates|))
      ensures phys == Allocate(p, life, |p.gates|).phys && numSlots == Allocate(p, life, |p.gates|).count == |wireSlot| == |maskInput|
    {
      hide Allocate;
      assert phys[..p.numWires] == phys;
    }

    /** The resizing of this party's labels to one per slot that ends the pass. */
    method SizeLabels()
      requires party == Alice ==> |labelSlot| <= numSlots
      requires party == Bob ==> |evalSlot| <= numSlots
      modifies this`labelSlot, this`evalSlot
      ensures party == Alice ==> evalSlot == old(evalSlot) && labelSlot == old(labelSlot) + Zeros(numSlots - |old(labelSlot)|)
      ensures party == Bob ==> labelSlot == old(labelSlot) && evalSlot == old(evalSlot) + Zeros(numSlots - |old(evalSlot)|)
    {
      if party == Alice {
        labelSlot := labelSlot + Zeros(numSlots - |labelSlot|);
      } else {
        evalSlot := evalSlot + Zeros(numSlots - |evalSlot|);
      }
    }

    static lemma NoneUsed(pool: Pool)
      ensures BufferAt(pool, pool.pos, [], 0, 0)
    {
    }

    static lemma AllUsed(pool: Pool, start: nat, buffer: seq<Bundle>, offset: nat, used: nat)
      requires BufferAt(pool, start, buffer, offset, used)
      ensures pool.pos == start + Batched(used)
    {
    }

    lemma StartPass(p: Program, draws: seq<Bundle>, table: seq<nat>, inputs: SecureWires)
      requires p.Topological() && Sized(p, life) && table == Allocate(p, life, |p.gates|).phys
      requires inputs.Shaped(party) && |inputs.lambda| == p.numInputs
      requires wireSlot == inputs.bundle && maskInput == inputs.lambda
      ensures PassedGates(p, table, inputs, inputs.bundle, 0)
      ensures SharesUpTo(p, draws, inputs.bundle, [], [], 0)
      ensures Allocate(p, life, 0) == Table(Identity(p.numInputs), [], p.numInputs)
      ensures p.numInputs <= Allocate(p, life, |p.gates|).count
    {
      AllocationStable(p, life, 0, |p.gates|);
      assert BlankMasks(inputs.lambda, 0) == inputs.lambda;
      InputsHeld(p, life, table, wireSlot, inputs.bundle);
      InputsHeld(p, life, table, maskInput, BlankMasks(inputs.lambda, 0));
    }

    /** The table so far is a prefix of the final one. */
    lemma AllocationPrefix(p: Program, life: Life, i: nat)
      requires p.Topological() && Sized(p, life) && i <= |p.gates| && AtTable(Allocate(p, life, i))
      ensures forall w :: 0 <= w < p.numInputs + i ==> phys[w] == Allocate(p, life, |p.gates|).phys[w]
    {
      AllocationStable(p, life, i, |p.gates|);
      var t := Allocate(p, life, i);
      forall w | 0 <= w < p.numInputs + i
        ensures phys[w] == t.phys[w]
      {
        assert phys[w] == phys[..|t.phys|][w];
      }
    }

    /** An AND gate of the slot pass: its operands' shares are recorded, its output draws a fresh one. */
    method AndShare(p: Program, i: nat, pool: Pool, buffer: seq<Bundle>, offset: nat, ghost start: nat,
                    ghost table: seq<nat>, ghost inputs: SecureWires, ghost shares: seq<Bundle>)
      returns (share: Bundle, rest: seq<Bundle>, next: nat)
      requires p.Topological() && Sized(p, life) && Describes(p, life) && i < |p.gates| && p.gates[i].typ == AND
      requires |table| == p.numWires == |phys| && |shares| == Out(p, i) && |inputs.lambda| == p.numInputs
      requires forall w :: 0 <= w < Out(p, i) ==> phys[w] == table[w]
      requires PassedGates(p, table, inputs, shares, i)
      requires BufferAt(pool, start, buffer, offset, p.AndsBefore(i))
      requires SharesUpTo(p, Drawn(pool.Current(), start, p.NumAnds()), shares, repA, repB, i)
      modifies this`repA, this`repB, pool`pos
      ensures BufferAt(pool, start, rest, next, p.AndsBefore(i + 1))
      ensures SharesUpTo(p, Drawn(pool.Current(), start, p.NumAnds()), shares + [share], repA, repB, i + 1)
    {
      hide Holds, Describes, BufferAt, SharesUpTo;
      var g := p.gates[i];
      assert p.Defined(i);
      ghost var oldA, oldB := repA, repB;
      ReadsValue(p, life, table, wireSlot, shares, i, g.in0);
      ReadsValue(p, life, table, wireSlot, shares, i, g.in1);
      repA := repA + [wireSlot[phys[g.in0]]];
      repB := repB + [wireSlot[phys[g.in1]]];
      share, rest, next := NextShare(pool, buffer, offset, start, p.AndsBefore(i));
      AndIndex(p, i);
      OneMoreShare(p, Drawn(pool.Current(), start, p.NumAnds()), shares, oldA, oldB, i, share,
                   [shares[g.in0]], [shares[g.in1]]);
    }

    /** An XOR or INV gate of the slot pass: its output's share follows from the operands'. */
    method LinearShare(p: Program, i: nat, ghost table: seq<nat>, ghost inputs: SecureWires,
                       ghost shares: seq<Bundle>, ghost draws: seq<Bundle>) returns (share: Bundle)
      requires p.Topological() && Sized(p, life) && Describes(p, life) && i < |p.gates| && p.gates[i].typ != AND
      requires |table| == p.numWires == |phys| && |shares| == Out(p, i) && |inputs.lambda| == p.numInputs
      requires |draws| == p.NumAnds()
      requires forall w :: 0 <= w < Out(p, i) ==> phys[w] == table[w]
      requires PassedGates(p, table, inputs, shares, i) && SharesUpTo(p, draws, shares, repA, repB, i)
      ensures SharesUpTo(p, draws, shares + [share], repA, repB, i + 1)
    {
      hide Holds, Describes, SharesUpTo;
      var g := p.gates[i];
      assert p.Defined(i);
      ReadsValue(p, life, table, wireSlot, shares, i, g.in0);
      if g.typ == XOR {
        ReadsValue(p, life, table, wireSlot, shares, i, g.in1);
        var lhs, rhs := wireSlot[phys[g.in0]], wireSlot[phys[g.in1]];
        share := Bundle(Xor(lhs.mac, rhs.mac), Xor(lhs.key, rhs.key));
      } else {
        share := wireSlot[phys[g.in0]];
      }
      OneMoreShare(p, draws, shares, repA, repB, i, share, [], []);
      assert repA + [] == repA && repB + [] == repB;
    }
  }
}

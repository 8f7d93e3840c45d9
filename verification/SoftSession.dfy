/** SoftSpoken sessions of two honest roles.

Bootstrap, the tree check, chunks, the linear check, and requests of any length. */
module SoftSession {
  import opened Options
  import opened Blocks
  import opened Masks
  import opened GF128
  import opened SoftGf
  import opened Cggm
  import opened Butterfly
  import opened SoftChunk

  const CHUNK_BLOCKS: nat := 64
  const CHUNK_OTS: nat := CHUNK_BLOCKS * BLOCK_BITS

  /** What the roles share: the tree hash, the leaf expander, the check hash, and the coefficients both
  derive from the transcript of the chunk at a session and counter. */
  datatype World<!D(==)> = World(tree: Hash, expand: Expander, dm: (nat, Block) -> Block,
                                 chi: (nat, nat, nat) -> Block, digest: seq<Block> -> D)

  /** SoftSpoken4State of one role. */
  class Cot {
    const role: Role
    const malicious: bool
    var setupDone: bool
    var delta: Block
    var session: nat
    var curSession: nat
    var curB0: nat
    var leaves: Forest
    var leftover: seq<Block>
    var leftoverPos: nat
    var leftoverCount: nat
    var checkQ: Block
    var checkT: Block
    var checkX: Block
    /** Everything chunks have produced for requests, and how much of it is handed out or dropped. */
    ghost var produced: seq<Block>
    ghost var given: nat
    /** How much had been produced when the current session began. */
    ghost var begun: nat
    /** The sizes of the session's chunks so far, in blocks. */
    ghost var cuts: seq<nat>
    /** The (session, counter) pairs expanded so far. */
    ghost var used: set<(nat, nat)>

    constructor (role: Role, malicious: bool, delta: Block)
      ensures this.role == role && this.malicious == malicious && !setupDone && Valid()
      ensures this.delta == (if role == Alice then delta else ZERO) && session == 0
      ensures produced == [] && given == 0 && used == {} && curSession == 0 && curB0 == 0 && leftoverCount == 0
    {
      this.role, this.malicious := role, malicious;
      setupDone, session, curSession, curB0, leaves := false, 0, 0, 0, [];
      this.delta := if role == Alice then delta else ZERO;
      leftover, leftoverPos, leftoverCount := [], 0, 0;
      checkQ, checkT, checkX := ZERO, ZERO, ZERO;
      produced, given, begun, cuts, used := [], 0, 0, [], {};
    }

    /** The leftover is the tail of what was produced, and no counter from here on has been used. */
    ghost predicate Valid()
      reads this`leftover, this`leftoverPos, this`leftoverCount, this`produced, this`given
      reads this`used, this`session, this`curSession, this`curB0
    {
      && leftoverPos + leftoverCount <= |leftover| && given + leftoverCount == |produced|
      && leftover[leftoverPos..leftoverPos + leftoverCount] == produced[given..]
      && forall p :: p in used ==> p.0 < session && (p.0 == curSession ==> p.1 < curB0)
    }

    /** set_delta */
    method SetDelta(d: Block) returns (ok: bool)
      modifies this`delta
      ensures ok <==> !old(setupDone) && role == Alice
      ensures delta == if ok then d else old(delta)
    {
      if setupDone || role != Alice {
        return false;
      }
      delta := d;
      ok := true;
    }

    /** reset_leftover, and trim_idle_allocations: what is left is dropped, never handed out. */
    method DropLeftover()
      requires Valid()
      modifies this`leftover, this`leftoverPos, this`leftoverCount, this`given
      ensures Valid() && leftoverCount == 0 && leftoverPos == 0 && given == |produced|
    {
      leftover, leftoverPos, leftoverCount := [], 0, 0;
      given := |produced|;
    }

    /** drain_leftover */
    method Drain(want: nat) returns (out: seq<Block>)
      requires Valid()
      modifies this`leftoverPos, this`leftoverCount, this`given
      ensures Valid() && |out| == (if want < old(leftoverCount) then want else old(leftoverCount))
      ensures out == produced[old(given)..old(given) + |out|] && given == old(given) + |out|
      ensures leftoverCount == old(leftoverCount) - |out|
    {
      if leftoverCount == 0 || want == 0 {
        return [];
      }
      var take := if want < leftoverCount then want else leftoverCount;
      out := leftover[leftoverPos..leftoverPos + take];
      assert out == leftover[leftoverPos..leftoverPos + leftoverCount][..take];
      assert leftover[leftoverPos + take..leftoverPos + leftoverCount] == leftover[leftoverPos..leftoverPos + leftoverCount][take..];
      leftoverPos := leftoverPos + take;
      leftoverCount := leftoverCount - take;
      given := given + take;
    }

    /** begin_send_session and begin_recv_session: a session number never used before, counters from zero. */
    method BeginSession()
      requires Valid()
      modifies this`curSession, this`session, this`curB0, this`begun, this`cuts, this`checkQ, this`checkT, this`checkX
      ensures Valid() && curSession == old(session) && session == old(session) + 1 && curB0 == 0 && begun == |produced| && cuts == []
      ensures malicious ==> checkQ == ZERO && checkT == ZERO && checkX == ZERO
    {
      curSession := session;
      session := session + 1;
      curB0 := 0;
      begun := |produced|;
      cuts := [];
      if malicious {
        checkQ, checkT, checkX := ZERO, ZERO, ZERO;
      }
    }

    /** The counters of a chunk; none of them was used before. */
    method TakeCounters(bs: nat)
      requires Valid() && curSession < session
      modifies this`curB0, this`cuts, this`used
      ensures Valid() && curB0 == old(curB0) + bs && cuts == old(cuts) + [bs]
      ensures used == old(used) + Counters(curSession, old(curB0), bs)
      ensures Counters(curSession, old(curB0), bs) !! old(used)
    {
      used := used + Counters(curSession, curB0, bs);
      curB0 := curB0 + bs;
      cuts := cuts + [bs];
    }
  }

  ghost function Counters(session: nat, base: nat, bs: nat): set<(nat, nat)> {
    set c | base <= c < base + bs :: (session, c)
  }

  // ---- bootstrap ----

  /** bootstrap_send_choices: the complement of every bit of Δ. */
  method Choices(delta: Block) returns (choices: seq<bool>)
    ensures |choices| == BLOCK_BITS && forall p :: 0 <= p < BLOCK_BITS ==> choices[p] == !delta[p]
  {
    choices := [];
    for i := 0 to TREES
      invariant |choices| == 4 * i && forall p :: 0 <= p < 4 * i ==> choices[p] == !delta[p]
    {
      for bit := 0 to K
        invariant |choices| == 4 * i + bit && forall p :: 0 <= p < 4 * i + bit ==> choices[p] == !delta[p]
      {
        AlphaBitOf(delta, i, bit);
        choices := choices + [!Bit(Alpha(delta, i), bit)];
      }
    }
  }

  /** bootstrap_recv_keys: a tree per index, rooted in two fresh blocks, and both keys of every level. */
  method TreeKeys(tree: Hash, seeds: nat -> (Block, Block)) returns (leaves: Forest, k0: seq<Block>, k1: seq<Block>)
    ensures Whole(leaves) && |k0| == |k1| == BLOCK_BITS
    ensures forall i :: 0 <= i < TREES ==> leaves[i] == Level(tree, seeds(i).1, seeds(i).0, K, false, K)
    ensures forall i, bit :: 0 <= i < TREES && 0 <= bit < K ==> KeyPair(tree, seeds, k0, k1, i, bit)
  {
    hide Level, LeftSum, Xor;
    Sixteen();
    leaves, k0, k1 := [], [], [];
    for i := 0 to TREES
      invariant |leaves| == i && |k0| == |k1| == 4 * i
      invariant forall t :: 0 <= t < i ==> |leaves[t]| == LEAVES && leaves[t] == Level(tree, seeds(t).1, seeds(t).0, K, false, K)
      invariant forall t, bit :: 0 <= t < i && 0 <= bit < K ==> KeyPair(tree, seeds, k0, k1, t, bit)
    {
      var pair := seeds(i);
      var l, keys := BuildSender(tree, K, pair.0, pair.1, false);
      ghost var b0, b1 := k0, k1;
      leaves := leaves + [l];
      k0 := k0 + keys;
      k1 := k1 + seq(K, b requires 0 <= b < K => Xor(keys[b], pair.0));
      forall t, bit | 0 <= t < i + 1 && 0 <= bit < K
        ensures KeyPair(tree, seeds, k0, k1, t, bit)
      {
        if t < i {
          assert KeyPair(tree, seeds, b0, b1, t, bit);
        } else {
          assert keys[bit + 1 - 1] == LeftSum(tree, pair.1, pair.0, K, false, bit + 1);
        }
      }
    }
  }

  predicate KeyPair(tree: Hash, seeds: nat -> (Block, Block), k0: seq<Block>, k1: seq<Block>, i: nat, bit: nat)
    requires bit < K && 4 * i + 4 <= |k0| == |k1|
  {
    var sum := LeftSum(tree, seeds(i).1, seeds(i).0, K, false, bit + 1);
    k0[4 * i + bit] == sum && k1[4 * i + bit] == Xor(sum, seeds(i).0)
  }

  /** What the base OT delivers: the chosen key of every pair. */
  function Delivered(choices: seq<bool>, k0: seq<Block>, k1: seq<Block>): (r: seq<Block>)
    requires |choices| == |k0| == |k1|
    ensures |r| == |choices|
  {
    seq(|choices|, p requires 0 <= p < |choices| => if choices[p] then k1[p] else k0[p])
  }

  /** The keys of one tree are what the receiver's rebuilding needs. */
  lemma KeysArrive(tree: Hash, seeds: nat -> (Block, Block), k0: seq<Block>, k1: seq<Block>, delta: Block, choices: seq<bool>, i: nat)
    requires |k0| == |k1| == |choices| == BLOCK_BITS && i < TREES
    requires forall p :: 0 <= p < BLOCK_BITS ==> choices[p] == !delta[p]
    requires forall bit :: 0 <= bit < K ==> KeyPair(tree, seeds, k0, k1, i, bit)
    ensures KeysMatch(tree, seeds(i).1, seeds(i).0, K, false, BitReverse(Alpha(delta, i), K), Delivered(choices, k0, k1)[4 * i..4 * i + 4])
  {
    hide LeftSum, Xor, BitReverse, Alpha, Bit;
    var keys := Delivered(choices, k0, k1)[4 * i..4 * i + 4];
    forall level | 1 <= level <= K
      ensures keys[level - 1] == KeyFor(tree, seeds(i).1, seeds(i).0, K, false, BitReverse(Alpha(delta, i), K), level)
    {
      var bit := level - 1;
      assert KeyPair(tree, seeds, k0, k1, i, bit);
      Sixteen();
      ReverseBit(Alpha(delta, i), K, K - level);
      AlphaBitOf(delta, i, bit);
    }
  }

  /** Bit `k` of a reversed number is bit `depth - 1 - k` of the number. */
  lemma {:induction false} ReverseBit(x: nat, depth: nat, k: nat)
    requires k < depth
    ensures Bit(BitReverse(x, depth), k) == Bit(x, depth - 1 - k)
  {
    if k > 0 {
      assert BitReverse(x, depth) / 2 == BitReverse(x, depth - 1);
      ReverseBit(x, depth - 1, k - 1);
    }
  }

  /** bootstrap_send_apply_received: every tree rebuilt but for the leaf Δ points to. */
  method RebuildTrees(tree: Hash, delta: Block, received: seq<Block>, ghost seeds: nat -> (Block, Block), ghost ours: Forest)
    returns (leaves: Forest)
    requires |received| == BLOCK_BITS
    requires Whole(ours) && forall i :: 0 <= i < TREES ==> ours[i] == Level(tree, seeds(i).1, seeds(i).0, K, false, K)
    requires forall i :: 0 <= i < TREES ==>
      KeysMatch(tree, seeds(i).1, seeds(i).0, K, false, BitReverse(Alpha(delta, i), K), received[4 * i..4 * i + 4])
    ensures leaves == PuncturedForest(ours, delta)
  {
    hide Level, KeyFor, KeysMatch, Alpha, BitReverse;
    Sixteen();
    leaves := [];
    for i := 0 to TREES
      invariant |leaves| == i && forall t :: 0 <= t < i ==> |leaves[t]| == LEAVES
      invariant forall t :: 0 <= t < i ==> Punctured(leaves[t], ours[t], Alpha(delta, t))
    {
      var path := ReverseBits(Alpha(delta, i), K);
      var l := EvalReceiver(tree, K, path, received[4 * i..4 * i + 4], false, seeds(i).1, seeds(i).0);
      RebuiltLeaves(tree, seeds(i).1, seeds(i).0, K, false, Alpha(delta, i), l);
      leaves := leaves + [l];
    }
    PuncturedOnly(leaves, ours, delta);
  }

  /** The trees of a sender: every leaf known but the one Δ points to, which is zero. */
  function PuncturedForest(ours: Forest, delta: Block): (t: Forest)
    requires Whole(ours)
    ensures Whole(t)
  {
    seq(TREES, i requires 0 <= i < TREES => ours[i][Alpha(delta, i) := ZERO])
  }

  lemma PuncturedOnly(leaves: Forest, ours: Forest, delta: Block)
    requires |leaves| == TREES && Whole(ours) && forall i :: 0 <= i < TREES ==> Punctured(leaves[i], ours[i], Alpha(delta, i))
    ensures leaves == PuncturedForest(ours, delta)
  {
    hide Alpha;
    forall i | 0 <= i < TREES
      ensures leaves[i] == PuncturedForest(ours, delta)[i]
    {
      assert Punctured(leaves[i], ours[i], Alpha(delta, i));
    }
  }

  lemma PuncturedAgrees(ours: Forest, delta: Block)
    requires Whole(ours)
    ensures Agree(PuncturedForest(ours, delta), ours, delta)
  {
    hide Alpha;
    var theirs := PuncturedForest(ours, delta);
    forall i | 0 <= i < TREES
      ensures AgreeAt(theirs, ours, delta, i)
    {
    }
  }

  // ---- the tree check ----

  /** The checked leaf and the two check blocks of a leaf (aes_dm_3). */
  function Leaf0(dm: (nat, Block) -> Block, leaves: seq<Block>, c: nat): (s: seq<Block>)
    ensures |s| == |leaves| && forall y :: 0 <= y < |leaves| ==> s[y] == dm(c, leaves[y])
  {
    seq(|leaves|, y requires 0 <= y < |leaves| => dm(c, leaves[y]))
  }

  /** The check blocks in the order they are hashed: both blocks of every leaf, leaf by leaf. */
  function Pairs(a: seq<Block>, b: seq<Block>): (s: seq<Block>)
    requires |a| == |b|
    ensures |s| == 2 * |a|
  {
    if a == [] then [] else Pairs(a[..|a| - 1], b[..|b| - 1]) + [a[|a| - 1], b[|b| - 1]]
  }

  /** All check blocks of the first `n` trees. */
  function Hashed(dm: (nat, Block) -> Block, leaves: Forest, n: nat): seq<Block>
    requires n <= |leaves|
  {
    if n == 0 then [] else Hashed(dm, leaves, n - 1) + Pairs(Leaf0(dm, leaves[n - 1], 1), Leaf0(dm, leaves[n - 1], 2))
  }

  /** The inner loop of pprf_check_send_prepare over one tree's leaves. */
  method CheckLeaves<D>(w: World<D>, l: seq<Block>, before: seq<Block>) returns (exps: seq<Block>, tx: Block, ty: Block, hashed: seq<Block>)
    ensures exps == Leaf0(w.dm, l, 0) && tx == XorSum(Leaf0(w.dm, l, 1)) && ty == XorSum(Leaf0(w.dm, l, 2))
    ensures hashed == before + Pairs(Leaf0(w.dm, l, 1), Leaf0(w.dm, l, 2))
  {
    hide Xor, XorSum, Pairs;
    ghost var e1, e2 := Leaf0(w.dm, l, 1), Leaf0(w.dm, l, 2);
    exps, tx, ty, hashed := [], ZERO, ZERO, before;
    NoSum(e1[..0]);
    NoSum(e2[..0]);
    NoPairs(e1[..0], e2[..0]);
    for y := 0 to |l|
      invariant exps == Leaf0(w.dm, l, 0)[..y]
      invariant tx == XorSum(e1[..y]) && ty == XorSum(e2[..y]) && hashed == before + Pairs(e1[..y], e2[..y])
    {
      OneMoreSum(e1, y);
      OneMoreSum(e2, y);
      OneMorePair(e1, e2, y);
      exps := exps + [w.dm(0, l[y])];
      tx := Xor(tx, w.dm(1, l[y]));
      ty := Xor(ty, w.dm(2, l[y]));
      assert before + (Pairs(e1[..y], e2[..y]) + [e1[y], e2[y]]) == (before + Pairs(e1[..y], e2[..y])) + [e1[y], e2[y]];
      hashed := hashed + [w.dm(1, l[y]), w.dm(2, l[y])];
    }
    assert e1[..|l|] == e1 && e2[..|l|] == e2;
  }

  lemma NoPairs(a: seq<Block>, b: seq<Block>)
    requires a == b == []
    ensures Pairs(a, b) == []
  {
  }

  /** pprf_check_send_prepare */
  method CheckPrepare<D>(w: World<D>, leaves: Forest) returns (after: Forest, sums: seq<(Block, Block)>, digest: D)
    requires Whole(leaves)
    ensures Whole(after) && |sums| == TREES && digest == w.digest(Hashed(w.dm, leaves, TREES))
    ensures forall i :: 0 <= i < TREES ==> after[i] == Leaf0(w.dm, leaves[i], 0)
    ensures forall i :: 0 <= i < TREES ==> sums[i] == (XorSum(Leaf0(w.dm, leaves[i], 1)), XorSum(Leaf0(w.dm, leaves[i], 2)))
  {
    hide XorSum, Pairs;
    var hashed: seq<Block> := [];
    after, sums := [], [];
    for i := 0 to TREES
      invariant |after| == |sums| == i && hashed == Hashed(w.dm, leaves, i)
      invariant forall t :: 0 <= t < i ==> |after[t]| == LEAVES && after[t] == Leaf0(w.dm, leaves[t], 0)
      invariant forall t :: 0 <= t < i ==> sums[t] == (XorSum(Leaf0(w.dm, leaves[t], 1)), XorSum(Leaf0(w.dm, leaves[t], 2)))
    {
      var exps, tx, ty;
      exps, tx, ty, hashed := CheckLeaves(w, leaves[i], hashed);
      after := after + [exps];
      sums := sums + [(tx, ty)];
    }
    digest := w.digest(hashed);
  }

  lemma OneMorePair(a: seq<Block>, b: seq<Block>, y: nat)
    requires |a| == |b| && y < |a|
    ensures Pairs(a[..y + 1], b[..y + 1]) == Pairs(a[..y], b[..y]) + [a[y], b[y]]
  {
    assert a[..y + 1][..y] == a[..y] && b[..y + 1][..y] == b[..y];
  }

  /** The rebuilt check blocks of kind `c` after `y` leaves: zero where the leaf is missing or still to come. */
  predicate CheckBlocks(dm: (nat, Block) -> Block, leaves: seq<Block>, alpha: nat, c: nat, y: nat, s: seq<Block>, sum: Block) {
    && |s| == |leaves| && sum == XorSum(s)
    && forall t :: 0 <= t < |s| ==> s[t] == if t < y && t != alpha then dm(c, leaves[t]) else ZERO
  }

  lemma CheckBlocksStart(dm: (nat, Block) -> Block, leaves: seq<Block>, alpha: nat, c: nat, s: seq<Block>)
    requires |s| == |leaves| && forall t :: 0 <= t < |s| ==> s[t] == ZERO
    ensures CheckBlocks(dm, leaves, alpha, c, 0, s, ZERO)
  {
    ZeroSum(s);
  }

  lemma CheckBlocksStep(dm: (nat, Block) -> Block, leaves: seq<Block>, alpha: nat, c: nat, y: nat, s: seq<Block>, sum: Block)
    requires CheckBlocks(dm, leaves, alpha, c, y, s, sum) && y < |leaves|
    ensures y == alpha ==> CheckBlocks(dm, leaves, alpha, c, y + 1, s, sum)
    ensures y != alpha ==> CheckBlocks(dm, leaves, alpha, c, y + 1, s[y := dm(c, leaves[y])], Xor(sum, dm(c, leaves[y])))
  {
    hide Xor, XorSum;
    SumReplace(s, y, dm(c, leaves[y]));
    XorGroup(sum, ZERO, ZERO);
  }

  /** The missing check blocks are what the announced sum lacks. */
  lemma CheckBlocksFill(dm: (nat, Block) -> Block, leaves: seq<Block>, alpha: nat, c: nat, s: seq<Block>, sum: Block, total: Block)
    requires CheckBlocks(dm, leaves, alpha, c, |leaves|, s, sum) && alpha < |leaves|
    ensures XorSum(s[alpha := Xor(total, sum)]) == total
  {
    hide Xor, XorSum;
    SumReplace(s, alpha, Xor(total, sum));
    XorGroup(sum, ZERO, ZERO);
    XorCancel(total, sum);
    XorGroup(sum, Xor(total, sum), ZERO);
  }

  /** One tree of pprf_check_recv_verify: the leaves after the check and the rebuilt check blocks. */
  method CheckTree<D>(w: World<D>, leaves: seq<Block>, alpha: nat, sum: (Block, Block)) returns (after: seq<Block>, s1: seq<Block>, s2: seq<Block>)
    requires |leaves| == LEAVES && alpha < LEAVES
    ensures |after| == |s1| == |s2| == LEAVES
    ensures forall y :: 0 <= y < LEAVES ==> after[y] == if y == alpha then leaves[y] else w.dm(0, leaves[y])
    ensures forall y :: 0 <= y < LEAVES && y != alpha ==> s1[y] == w.dm(1, leaves[y]) && s2[y] == w.dm(2, leaves[y])
    ensures XorSum(s1) == sum.0 && XorSum(s2) == sum.1
  {
    hide Xor, XorSum, CheckBlocks;
    var tx, ty := ZERO, ZERO;
    after, s1, s2 := leaves, seq(LEAVES, _ => ZERO), seq(LEAVES, _ => ZERO);
    CheckBlocksStart(w.dm, leaves, alpha, 1, s1);
    CheckBlocksStart(w.dm, leaves, alpha, 2, s2);
    for y := 0 to LEAVES
      invariant |after| == |s1| == |s2| == LEAVES
      invariant forall t :: 0 <= t < LEAVES ==> after[t] == if t == alpha || t >= y then leaves[t] else w.dm(0, leaves[t])
      invariant CheckBlocks(w.dm, leaves, alpha, 1, y, s1, tx) && CheckBlocks(w.dm, leaves, alpha, 2, y, s2, ty)
    {
      CheckBlocksStep(w.dm, leaves, alpha, 1, y, s1, tx);
      CheckBlocksStep(w.dm, leaves, alpha, 2, y, s2, ty);
      if y != alpha {
        var leaf := leaves[y];
        after := after[y := w.dm(0, leaf)];
        s1 := s1[y := w.dm(1, leaf)];
        s2 := s2[y := w.dm(2, leaf)];
        tx := Xor(tx, w.dm(1, leaf));
        ty := Xor(ty, w.dm(2, leaf));
      }
    }
    CheckBlocksFill(w.dm, leaves, alpha, 1, s1, tx, sum.0);
    CheckBlocksFill(w.dm, leaves, alpha, 2, s2, ty, sum.1);
    CheckBlocksDone(w.dm, leaves, alpha, 1, s1, tx);
    CheckBlocksDone(w.dm, leaves, alpha, 2, s2, ty);
    s1 := s1[alpha := Xor(sum.0, tx)];
    s2 := s2[alpha := Xor(sum.1, ty)];
  }

  lemma CheckBlocksDone(dm: (nat, Block) -> Block, leaves: seq<Block>, alpha: nat, c: nat, s: seq<Block>, sum: Block)
    requires CheckBlocks(dm, leaves, alpha, c, |leaves|, s, sum)
    ensures |s| == |leaves| && forall y :: 0 <= y < |s| && y != alpha ==> s[y] == dm(c, leaves[y])
  {
  }

  lemma {:induction false} ZeroSum(s: seq<Block>)
    requires forall y :: 0 <= y < |s| ==> s[y] == ZERO
    ensures XorSum(s) == ZERO
  {
    if s != [] {
      ZeroSum(s[..|s| - 1]);
      XorGroup(ZERO, ZERO, ZERO);
    }
  }

  lemma SumReplace(s: seq<Block>, k: nat, x: Block)
    requires k < |s|
    ensures var t: seq<Block> := s[k := x]; XorSum(t) == Xor(Xor(XorSum(s), s[k]), x)
  {
    hide Xor;
    var t: seq<Block> := s[k := x];
    XorSumExcept(t, s, k);
    XorGroup(XorSum(t), x, x);
    XorCancel(XorSum(t), x);
  }

  /** The receiver's rebuilt check blocks are the sender's, so the digests agree. */
  lemma CheckBlocksAgree(theirs: seq<Block>, ours: seq<Block>, alpha: nat, s: seq<Block>, want: seq<Block>)
    requires |theirs| == |ours| == |s| == |want| && alpha < |s| && XorSum(s) == XorSum(want)
    requires forall y :: 0 <= y < |s| && y != alpha ==> s[y] == want[y]
    ensures s == want
  {
    hide Xor;
    XorSumExcept(s, want, alpha);
    XorCancel(s[alpha], XorSum(s));
    XorCancel(want[alpha], XorSum(s));
    XorGroup(XorSum(s), s[alpha], ZERO);
    XorGroup(XorSum(s), want[alpha], ZERO);
  }

  /** What pprf_check_send sends: the sums of both check blocks over every tree, and the digest of them all. */
  datatype TreeMessage<D> = TreeMessage(sums: seq<(Block, Block)>, digest: D)

  /** The check blocks of kind `c` as the receiver rebuilds them: its own, and in the missing place what the announced
  sum lacks. */
  function Rebuilt(dm: (nat, Block) -> Block, leaves: seq<Block>, alpha: nat, c: nat, total: Block): (s: seq<Block>)
    requires alpha < |leaves|
    ensures |s| == |leaves|
  {
    var known: seq<Block> := Leaf0(dm, leaves, c)[alpha := ZERO];
    known[alpha := Xor(total, XorSum(known))]
  }

  /** All rebuilt check blocks of the first `n` trees. */
  function RebuiltAll(dm: (nat, Block) -> Block, leaves: Forest, delta: Block, sums: seq<(Block, Block)>, n: nat): seq<Block>
    requires Whole(leaves) && n <= |sums| == TREES
  {
    if n == 0 then []
    else
      var l, alpha := leaves[n - 1], Alpha(delta, n - 1);
      RebuiltAll(dm, leaves, delta, sums, n - 1) + Pairs(Rebuilt(dm, l, alpha, 1, sums[n - 1].0), Rebuilt(dm, l, alpha, 2, sums[n - 1].1))
  }

  /** The leaves after the check: the known ones replaced by their first block. */
  function Checked(dm: (nat, Block) -> Block, leaves: Forest, delta: Block): (t: Forest)
    requires Whole(leaves)
    ensures Whole(t)
  {
    seq(TREES, i requires 0 <= i < TREES => Leaf0(dm, leaves[i], 0)[Alpha(delta, i) := leaves[i][Alpha(delta, i)]])
  }

  lemma RebuiltSum(dm: (nat, Block) -> Block, leaves: seq<Block>, alpha: nat, c: nat, total: Block)
    requires alpha < |leaves|
    ensures XorSum(Rebuilt(dm, leaves, alpha, c, total)) == total
    ensures forall y :: 0 <= y < |leaves| && y != alpha ==> Rebuilt(dm, leaves, alpha, c, total)[y] == dm(c, leaves[y])
  {
    hide Xor, XorSum;
    var known: seq<Block> := Leaf0(dm, leaves, c)[alpha := ZERO];
    var sum := XorSum(known);
    SumReplace(known, alpha, Xor(total, sum));
    XorGroup(sum, ZERO, ZERO);
    XorGroup(sum, total, sum);
    XorGroup(total, sum, sum);
    XorGroup(total, ZERO, ZERO);
  }

  /** On an honest message the rebuilt check blocks are the sender's. */
  lemma {:induction false} RebuiltHonest(dm: (nat, Block) -> Block, theirs: Forest, ours: Forest, delta: Block, sums: seq<(Block, Block)>, n: nat)
    requires Agree(theirs, ours, delta) && |sums| == TREES && n <= TREES
    requires forall i :: 0 <= i < TREES ==> sums[i] == (XorSum(Leaf0(dm, ours[i], 1)), XorSum(Leaf0(dm, ours[i], 2)))
    ensures RebuiltAll(dm, theirs, delta, sums, n) == Hashed(dm, ours, n)
  {
    if n > 0 {
      hide Xor, XorSum, Pairs, Rebuilt, Leaf0, Alpha;
      var i := n - 1;
      RebuiltHonest(dm, theirs, ours, delta, sums, i);
      TreeAgrees(theirs, ours, delta, i);
      RebuiltTree(dm, theirs[i], ours[i], Alpha(delta, i), 1, sums[i].0);
      RebuiltTree(dm, theirs[i], ours[i], Alpha(delta, i), 2, sums[i].1);
    }
  }

  lemma RebuiltTree(dm: (nat, Block) -> Block, theirs: seq<Block>, ours: seq<Block>, alpha: nat, c: nat, total: Block)
    requires AgreeTree(theirs, ours, alpha) && alpha < LEAVES && total == XorSum(Leaf0(dm, ours, c))
    ensures Rebuilt(dm, theirs, alpha, c, total) == Leaf0(dm, ours, c)
  {
    hide Xor, XorSum, Rebuilt;
    RebuiltSum(dm, theirs, alpha, c, total);
    CheckBlocksAgree(theirs, ours, alpha, Rebuilt(dm, theirs, alpha, c, total), Leaf0(dm, ours, c));
  }

  /** pprf_check_recv_verify on any message: accepted if and only if it has a sum for every tree and its digest is that
  of the check blocks rebuilt from those sums. The known leaves are replaced either way. */
  method CheckVerify<D(==)>(w: World<D>, leaves: Forest, delta: Block, m: TreeMessage<D>) returns (ok: bool, after: Forest)
    requires Whole(leaves)
    ensures ok <==> |m.sums| == TREES && w.digest(RebuiltAll(w.dm, leaves, delta, m.sums, TREES)) == m.digest
    ensures |m.sums| == TREES ==> after == Checked(w.dm, leaves, delta)
    ensures |m.sums| != TREES ==> after == leaves
  {
    hide Alpha, XorSum, Leaf0, Rebuilt, Pairs, Xor;
    if |m.sums| != TREES {
      return false, leaves;
    }
    var hashed: seq<Block> := [];
    after := [];
    for i := 0 to TREES
      invariant |after| == i && hashed == RebuiltAll(w.dm, leaves, delta, m.sums, i)
      invariant forall t :: 0 <= t < i ==> after[t] == Checked(w.dm, leaves, delta)[t]
    {
      var l, s1, s2 := VerifyTree(w, leaves[i], Alpha(delta, i), m.sums[i]);
      hashed := hashed + Pairs(s1, s2);
      after := after + [l];
    }
    ok := w.digest(hashed) == m.digest;
  }

  /** Two trees with the same leaves except at `alpha`. */
  predicate AgreeTree(theirs: seq<Block>, ours: seq<Block>, alpha: nat) {
    |theirs| == |ours| == LEAVES && forall y :: 0 <= y < LEAVES && y != alpha ==> theirs[y] == ours[y]
  }

  lemma TreeAgrees(theirs: Forest, ours: Forest, delta: Block, i: nat)
    requires Agree(theirs, ours, delta) && i < TREES
    ensures AgreeTree(theirs[i], ours[i], Alpha(delta, i))
  {
    hide Alpha;
    assert AgreeAt(theirs, ours, delta, i);
  }

  /** One tree of pprf_check_recv_verify. */
  method VerifyTree<D>(w: World<D>, leaves: seq<Block>, alpha: nat, sum: (Block, Block))
    returns (after: seq<Block>, s1: seq<Block>, s2: seq<Block>)
    requires |leaves| == LEAVES && alpha < LEAVES
    ensures after == Leaf0(w.dm, leaves, 0)[alpha := leaves[alpha]]
    ensures s1 == Rebuilt(w.dm, leaves, alpha, 1, sum.0) && s2 == Rebuilt(w.dm, leaves, alpha, 2, sum.1)
  {
    hide XorSum, Rebuilt;
    after, s1, s2 := CheckTree(w, leaves, alpha, sum);
    RebuiltSum(w.dm, leaves, alpha, 1, sum.0);
    RebuiltSum(w.dm, leaves, alpha, 2, sum.1);
    CheckBlocksAgree(leaves, leaves, alpha, s1, Rebuilt(w.dm, leaves, alpha, 1, sum.0));
    CheckBlocksAgree(leaves, leaves, alpha, s2, Rebuilt(w.dm, leaves, alpha, 2, sum.1));
  }

  // ---- the linear check ----

  /** The outputs of chunk block `i`. */
  function Group(out: seq<Block>, i: nat): (s: seq<Block>)
    requires BLOCK_BITS * (i + 1) <= |out|
    ensures |s| == BLOCK_BITS
  {
    out[BLOCK_BITS * i..BLOCK_BITS * (i + 1)]
  }

  function PackedGroups(out: seq<Block>, bs: nat): (s: seq<Block>)
    requires |out| == BLOCK_BITS * bs
    ensures |s| == bs
  {
    seq(bs, i requires 0 <= i < bs => Packed(Group(out, i)))
  }

  function Coefficients(chi: (nat, nat, nat) -> Block, session: nat, base: nat, bs: nat): (s: seq<Block>)
    ensures |s| == bs
  {
    seq(bs, i requires 0 <= i < bs => chi(session, base, i))
  }

  lemma NothingPacked(delta: Block)
    ensures Packed([]) == Xor(Packed([]), Times(delta, []))
  {
    XorGroup(ZERO, ZERO, ZERO);
  }

  lemma {:induction false} PackedCorrelation(send: seq<Block>, recv: seq<Block>, u: Block, delta: Block, m: nat)
    requires |send| == |recv| == BLOCK_BITS && AllCorrelated(send, recv, delta) && m <= BLOCK_BITS
    requires forall n :: 0 <= n < BLOCK_BITS ==> recv[n][0] == u[n]
    ensures Packed(recv[..m]) == Xor(Packed(send[..m]), Times(delta, u[..m]))
  {
    hide Xor, TimesXk, TimesX, Times;
    if m == 0 {
      NothingPacked(delta);
      assert recv[..0] == send[..0] == [] && u[..0] == [];
    } else {
      PackedCorrelation(send, recv, u, delta, m - 1);
      assert Correlated(send[m - 1], recv[m - 1], delta);
      OneMoreTerm(delta, u, m - 1);
      assert recv[..m][..m - 1] == recv[..m - 1] && send[..m][..m - 1] == send[..m - 1];
      TimesXkLinear(send[m - 1], Select(u[m - 1], delta), m - 1);
      TimesXkZero(m - 1);
      XorSwap(Packed(send[..m - 1]), Times(delta, u[..m - 1]), TimesXk(send[m - 1], m - 1), Select(u[m - 1], TimesXk(delta, m - 1)));
    }
  }

  lemma MulZero(a: Block)
    ensures GfMul(ZERO, a) == ZERO
  {
    TimesOfZero(a);
  }

  /** Sums of products keep the correlation. */
  lemma {:induction false} InnerCorrelation(chi: seq<Block>, s: seq<Block>, r: seq<Block>, u: seq<Block>, delta: Block)
    requires |chi| == |s| == |r| == |u|
    requires forall i :: 0 <= i < |s| ==> r[i] == Xor(s[i], GfMul(delta, u[i]))
    ensures Xor(InnerProduct(chi, s), GfMul(InnerProduct(chi, u), delta)) == InnerProduct(chi, r)
  {
    hide Xor, GfMul;
    if chi == [] {
      MulZero(delta);
      XorGroup(ZERO, ZERO, ZERO);
    } else {
      var m := |chi| - 1;
      InnerCorrelation(chi[..m], s[..m], r[..m], u[..m], delta);
      Distributive(s[m], GfMul(delta, u[m]), chi[m]);
      Commutative(delta, u[m]);
      Associative(chi[m], u[m], delta);
      Distributive(InnerProduct(chi[..m], u[..m]), GfMul(chi[m], u[m]), delta);
      XorSwap(InnerProduct(chi[..m], s[..m]), GfMul(chi[m], s[m]), GfMul(InnerProduct(chi[..m], u[..m]), delta), GfMul(GfMul(chi[m], u[m]), delta));
    }
  }

  /** What one chunk adds to the three accumulators. */
  lemma ChunkCheck(chi: seq<Block>, send: seq<Block>, recv: seq<Block>, u: seq<Block>, delta: Block, bs: nat)
    requires |chi| == |u| == bs && |send| == |recv| == BLOCK_BITS * bs && AllCorrelated(send, recv, delta)
    requires forall n :: 0 <= n < |recv| ==> recv[n][0] == u[n / BLOCK_BITS][n % BLOCK_BITS]
    ensures Xor(InnerProduct(chi, PackedGroups(send, bs)), GfMul(InnerProduct(chi, u), delta)) == InnerProduct(chi, PackedGroups(recv, bs))
  {
    hide Xor, Packed, InnerProduct, Times, Correlated;
    forall i | 0 <= i < bs
      ensures PackedGroups(recv, bs)[i] == Xor(PackedGroups(send, bs)[i], GfMul(delta, u[i]))
    {
      var s, r := Group(send, i), Group(recv, i);
      forall n | 0 <= n < BLOCK_BITS
        ensures Correlated(s[n], r[n], delta) && r[n][0] == u[i][n]
      {
        assert Correlated(send[BLOCK_BITS * i + n], recv[BLOCK_BITS * i + n], delta);
        assert (BLOCK_BITS * i + n) / BLOCK_BITS == i && (BLOCK_BITS * i + n) % BLOCK_BITS == n;
      }
      PackedCorrelation(s, r, u[i], delta, BLOCK_BITS);
      assert s[..BLOCK_BITS] == s && r[..BLOCK_BITS] == r && u[i][..BLOCK_BITS] == u[i];
    }
    InnerCorrelation(chi, PackedGroups(send, bs), PackedGroups(recv, bs), u, delta);
  }

  // ---- the two roles together ----

  /** The accumulators of an honest session. */
  predicate Balanced(q: Block, t: Block, x: Block, delta: Block) {
    Xor(q, GfMul(x, delta)) == t
  }

  /** Alice (who sends OTs) and Bob in step: same sessions and counters, agreeing trees, correlated outputs. */
  ghost predicate InStep(a: Cot, b: Cot)
    reads a, b
  {
    && a != b && a.role == Alice && b.role == Bob && a.malicious == b.malicious && a.Valid() && b.Valid()
    && a.delta[0] && a.setupDone == b.setupDone && (if a.setupDone then Agree(a.leaves, b.leaves, a.delta) else a.produced == [])
    && a.session == b.session && a.curSession == b.curSession && a.curB0 == b.curB0
    && a.given == b.given && a.leftoverCount == b.leftoverCount
    && AllCorrelated(a.produced, b.produced, a.delta)
  }

  /** ... in the middle of a session. */
  ghost predicate InSession(a: Cot, b: Cot)
    reads a, b
  {
    && InStep(a, b) && a.setupDone && a.session == a.curSession + 1
    && (a.malicious ==> Balanced(a.checkQ, b.checkT, b.checkX, a.delta))
  }

  /** OT `i` of a session, on the sending side. */
  function SessionSend(f: Expander, theirs: Forest, ours: Forest, delta: Block, session: nat, i: nat): Block
    requires Whole(theirs) && Whole(ours)
  {
    SendItem(f, theirs, ours, delta, session, i / BLOCK_BITS, i % BLOCK_BITS)
  }

  /** ... and on the receiving side. */
  function SessionRecv(f: Expander, ours: Forest, session: nat, i: nat): Block
    requires Whole(ours)
  {
    RecvItem(f, ours, session, i / BLOCK_BITS, i % BLOCK_BITS)
  }

  /** From `begun` on, `send` and `recv` are the OTs of the session in order. */
  ghost predicate SessionItems(f: Expander, theirs: Forest, ours: Forest, delta: Block, session: nat, begun: nat,
                               send: seq<Block>, recv: seq<Block>)
  {
    && Whole(theirs) && Whole(ours) && begun <= |send| == |recv|
    && forall i :: begun <= i < |send| ==>
      send[i] == SessionSend(f, theirs, ours, delta, session, i - begun) && recv[i] == SessionRecv(f, ours, session, i - begun)
  }

  /** The session has produced its OTs from the first one on: whatever the chunks were, the stream is a function of
  the trees and the session number. */
  ghost predicate Streaming<D>(a: Cot, b: Cot, w: World<D>)
    reads a, b
  {
    && a.begun == b.begun <= a.given && |a.produced| == a.begun + BLOCK_BITS * a.curB0
    && SessionItems(w.expand, a.leaves, b.leaves, a.delta, a.curSession, a.begun, a.produced, b.produced)
    && Accumulated(a, b, w)
  }

  /** The outputs of a chunk of a session. */
  ghost predicate ChunkItems(f: Expander, theirs: Forest, ours: Forest, delta: Block, session: nat, base: nat,
                             send: seq<Block>, recv: seq<Block>)
  {
    && Whole(theirs) && Whole(ours) && |send| == |recv|
    && forall n :: 0 <= n < |send| ==>
      && send[n] == SendItem(f, theirs, ours, delta, session, base + n / BLOCK_BITS, n % BLOCK_BITS)
      && recv[n] == RecvItem(f, ours, session, base + n / BLOCK_BITS, n % BLOCK_BITS)
  }

  lemma ItemsExtend(f: Expander, theirs: Forest, ours: Forest, delta: Block, session: nat, begun: nat, base: nat,
                    send: seq<Block>, recv: seq<Block>, s: seq<Block>, r: seq<Block>)
    requires SessionItems(f, theirs, ours, delta, session, begun, send, recv) && |send| == begun + BLOCK_BITS * base
    requires ChunkItems(f, theirs, ours, delta, session, base, s, r)
    ensures SessionItems(f, theirs, ours, delta, session, begun, send + s, recv + r)
  {
    hide SendItem, RecvItem;
    var all, allR := send + s, recv + r;
    forall i | begun <= i < |all|
      ensures all[i] == SessionSend(f, theirs, ours, delta, session, i - begun) && allR[i] == SessionRecv(f, ours, session, i - begun)
    {
      if i >= |send| {
        var n := i - |send|;
        assert (i - begun) / BLOCK_BITS == base + n / BLOCK_BITS && (i - begun) % BLOCK_BITS == n % BLOCK_BITS;
      }
    }
  }

  /** Before setup the sending side may take on any Δ, and the pair stays in step exactly when it is odd; afterwards
  the call is refused and nothing changes. */
  method ChooseDelta(a: Cot, b: Cot, d: Block) returns (ok: bool)
    requires InStep(a, b)
    modifies a`delta
    ensures ok <==> !a.setupDone
    ensures !ok ==> InStep(a, b) && a.delta == old(a.delta)
    ensures ok ==> a.delta == d && (InStep(a, b) <==> d[0])
  {
    ok := a.SetDelta(d);
  }

  /** The trees bootstrap_recv grows from its seeds. */
  function RawForest(tree: Hash, seeds: nat -> (Block, Block)): (t: Forest)
    ensures Whole(t) && forall i :: 0 <= i < TREES ==> t[i] == Level(tree, seeds(i).1, seeds(i).0, K, false, K)
  {
    FirstTrees(tree, seeds, TREES)
  }

  function FirstTrees(tree: Hash, seeds: nat -> (Block, Block), n: nat): (t: Forest)
    ensures |t| == n && forall i :: 0 <= i < n ==> |t[i]| == LEAVES && t[i] == Level(tree, seeds(i).1, seeds(i).0, K, false, K)
  {
    Sixteen();
    if n == 0 then [] else FirstTrees(tree, seeds, n - 1) + [Level(tree, seeds(n - 1).1, seeds(n - 1).0, K, false, K)]
  }

  /** ... and what it works with afterwards: the leaves themselves, or with checks on the first block of every leaf. */
  function SetupForest<D>(w: World<D>, malicious: bool, seeds: nat -> (Block, Block)): (t: Forest)
    ensures Whole(t)
  {
    if malicious then AllLeaf0(w.dm, RawForest(w.tree, seeds)) else RawForest(w.tree, seeds)
  }

  function AllLeaf0(dm: (nat, Block) -> Block, leaves: Forest): (t: Forest)
    requires Whole(leaves)
    ensures Whole(t) && forall i :: 0 <= i < TREES ==> t[i] == Leaf0(dm, leaves[i], 0)
  {
    seq(TREES, i requires 0 <= i < TREES => Leaf0(dm, leaves[i], 0))
  }

  /** Does the tree check accept what arrives in place of the honest message? */
  ghost predicate TreesAccepted<D>(w: World<D>, delta: Block, malicious: bool, seeds: nat -> (Block, Block), forged: Option<TreeMessage<D>>) {
    malicious && forged.Some? ==>
      && |forged.value.sums| == TREES
      && w.digest(RebuiltAll(w.dm, PuncturedForest(RawForest(w.tree, seeds), delta), delta, forged.value.sums, TREES)) == forged.value.digest
  }

  lemma CheckedPunctured(dm: (nat, Block) -> Block, ours: Forest, delta: Block)
    requires Whole(ours)
    ensures Checked(dm, PuncturedForest(ours, delta), delta) == PuncturedForest(AllLeaf0(dm, ours), delta)
  {
    hide Alpha;
    var theirs := PuncturedForest(ours, delta);
    var left, right := Checked(dm, theirs, delta), PuncturedForest(AllLeaf0(dm, ours), delta);
    forall i | 0 <= i < TREES
      ensures left[i] == right[i]
    {
      var alpha := Alpha(delta, i);
      assert left[i] == Leaf0(dm, theirs[i], 0)[alpha := ZERO];
      assert right[i] == Leaf0(dm, ours[i], 0)[alpha := ZERO];
      forall y | 0 <= y < LEAVES
        ensures left[i][y] == right[i][y]
      {
      }
    }
    assert |left| == |right| == TREES;
  }

  /** The trees of bootstrap_recv (`ours`, grown from seeds) and of bootstrap_send (`theirs`, rebuilt from the keys the
  base transfers deliver), with the check of a malicious-mode session. `forged` arrives in place of the check's
  message; nothing but its acceptance depends on it. */
  method GrowTrees<D(==)>(w: World<D>, delta: Block, malicious: bool, seeds: nat -> (Block, Block), forged: Option<TreeMessage<D>>)
    returns (ok: bool, theirs: Forest, ours: Forest)
    ensures ours == SetupForest(w, malicious, seeds) && (ok <==> TreesAccepted(w, delta, malicious, seeds, forged))
    ensures ok ==> theirs == PuncturedForest(ours, delta)
  {
    hide Level, KeyPair, KeysMatch, Alpha, BitReverse, RawForest, PuncturedForest, RebuiltAll, Hashed, Checked, AllLeaf0, XorSum;
    var choices := Choices(delta);
    var k0, k1;
    ours, k0, k1 := TreeKeys(w.tree, seeds);
    GrownRaw(w.tree, seeds, ours);
    var received := Delivered(choices, k0, k1);
    forall i | 0 <= i < TREES
      ensures KeysMatch(w.tree, seeds(i).1, seeds(i).0, K, false, BitReverse(Alpha(delta, i), K), received[4 * i..4 * i + 4])
    {
      KeysArrive(w.tree, seeds, k0, k1, delta, choices, i);
    }
    theirs := RebuildTrees(w.tree, delta, received, seeds, ours);
    ok := true;
    if malicious {
      ghost var punctured := theirs;
      assert punctured == PuncturedForest(RawForest(w.tree, seeds), delta);
      ok, theirs, ours := CheckTrees(w, delta, theirs, ours, forged);
      assert ours == SetupForest(w, malicious, seeds);
      assert ok <==> TreesAccepted(w, delta, malicious, seeds, forged);
    }
  }

  /** The tree check between the two roles. */
  method CheckTrees<D(==)>(w: World<D>, delta: Block, theirs: Forest, ours: Forest, forged: Option<TreeMessage<D>>)
    returns (ok: bool, theirsAfter: Forest, oursAfter: Forest)
    requires Whole(ours) && theirs == PuncturedForest(ours, delta)
    ensures oursAfter == AllLeaf0(w.dm, ours) && (forged.None? ==> ok)
    ensures forged.Some? ==> (ok <==> |forged.value.sums| == TREES && w.digest(RebuiltAll(w.dm, theirs, delta, forged.value.sums, TREES)) == forged.value.digest)
    ensures ok ==> theirsAfter == PuncturedForest(oursAfter, delta)
  {
    hide PuncturedForest, RebuiltAll, Hashed, Checked, AllLeaf0, XorSum, Leaf0;
    var sums, digest;
    oursAfter, sums, digest := CheckPrepare(w, ours);
    OnlyFirst(w.dm, ours, oursAfter);
    PuncturedAgrees(ours, delta);
    RebuiltHonest(w.dm, theirs, ours, delta, sums, TREES);
    CheckedPunctured(w.dm, ours, delta);
    var m := if forged.Some? then forged.value else TreeMessage(sums, digest);
    ok, theirsAfter := CheckVerify(w, theirs, delta, m);
  }

  lemma GrownRaw(tree: Hash, seeds: nat -> (Block, Block), ours: Forest)
    requires Whole(ours) && forall i :: 0 <= i < TREES ==> ours[i] == Level(tree, seeds(i).1, seeds(i).0, K, false, K)
    ensures ours == RawForest(tree, seeds)
  {
  }

  lemma OnlyFirst(dm: (nat, Block) -> Block, ours: Forest, after: Forest)
    requires Whole(ours) && Whole(after) && forall i :: 0 <= i < TREES ==> after[i] == Leaf0(dm, ours[i], 0)
    ensures after == AllLeaf0(dm, ours)
  {
  }

  /** bootstrap_send against bootstrap_recv: the leaves of both sides follow from the seeds and Δ alone. The side that
  receives the check stays without setup if it refuses the message. */
  method Bootstrap<D(==)>(a: Cot, b: Cot, w: World<D>, seeds: nat -> (Block, Block), forged: Option<TreeMessage<D>>) returns (ok: bool)
    requires InStep(a, b) && !a.setupDone
    modifies a`leaves, a`setupDone, b`leaves, b`setupDone
    ensures ok <==> TreesAccepted(w, a.delta, a.malicious, seeds, forged)
    ensures b.leaves == SetupForest(w, a.malicious, seeds) && b.setupDone && (a.setupDone <==> ok)
    ensures ok ==> InStep(a, b) && a.leaves == PuncturedForest(b.leaves, a.delta)
  {
    hide Agree, AllCorrelated, Cot.Valid, PuncturedForest, SetupForest, TreesAccepted;
    var theirs, ours;
    ok, theirs, ours := GrowTrees(w, a.delta, a.malicious, seeds, forged);
    PuncturedAgrees(ours, a.delta);
    a.leaves, b.leaves := theirs, ours;
    a.setupDone, b.setupDone := ok, true;
  }

  /** begin on both sides. */
  method Begin<D(==)>(a: Cot, b: Cot, w: World<D>, seeds: nat -> (Block, Block)) returns (ok: bool)
    requires InStep(a, b)
    modifies a, b
    ensures ok && InSession(a, b) && a.curB0 == 0 && a.curSession == old(a.session)
    ensures a.produced == old(a.produced) && b.produced == old(b.produced) && a.given == |a.produced|
    ensures a.used == old(a.used) && b.used == old(b.used) && a.delta == old(a.delta)
    ensures Streaming(a, b, w) && a.begun == a.given
    ensures old(a.setupDone) ==> a.leaves == old(a.leaves) && b.leaves == old(b.leaves)
    ensures !old(a.setupDone) ==> b.leaves == SetupForest(w, a.malicious, seeds) && a.leaves == PuncturedForest(b.leaves, a.delta)
  {
    hide Agree, AllCorrelated, Balanced, Cot.Valid, SetupForest, PuncturedForest, Accumulated, SessionItems;
    ok := SetUp(a, b, w, seeds);
    AgreeWhole(a.leaves, b.leaves, a.delta);
    CorrelatedLengths(a.produced, b.produced, a.delta);
    a.BeginSession();
    b.BeginSession();
    StartsBalanced(a.delta);
    NothingAccumulated(a, b, w);
    NoItems(w.expand, a.leaves, b.leaves, a.delta, a.curSession, a.produced, b.produced);
  }

  lemma NothingAccumulated<D>(a: Cot, b: Cot, w: World<D>)
    requires Whole(a.leaves) && Whole(b.leaves) && a.cuts == [] && a.curB0 == 0 && a.malicious == b.malicious
    requires a.malicious ==> a.checkQ == b.checkT == b.checkX == ZERO
    ensures Accumulated(a, b, w)
  {
  }

  lemma NoItems(f: Expander, theirs: Forest, ours: Forest, delta: Block, session: nat, send: seq<Block>, recv: seq<Block>)
    requires Whole(theirs) && Whole(ours) && |send| == |recv|
    ensures SessionItems(f, theirs, ours, delta, session, |send|, send, recv)
  {
  }

  /** The start of begin: what is left over goes, and the trees are grown once. */
  method SetUp<D(==)>(a: Cot, b: Cot, w: World<D>, seeds: nat -> (Block, Block)) returns (ok: bool)
    requires InStep(a, b)
    modifies a`leftover, a`leftoverPos, a`leftoverCount, a`given, a`leaves, a`setupDone
    modifies b`leftover, b`leftoverPos, b`leftoverCount, b`given, b`leaves, b`setupDone
    ensures ok && InStep(a, b) && a.setupDone && a.given == |a.produced|
    ensures old(a.setupDone) ==> a.leaves == old(a.leaves) && b.leaves == old(b.leaves)
    ensures !old(a.setupDone) ==> b.leaves == SetupForest(w, a.malicious, seeds) && a.leaves == PuncturedForest(b.leaves, a.delta)
  {
    hide Agree, AllCorrelated, Cot.Valid;
    CorrelatedLengths(a.produced, b.produced, a.delta);
    a.DropLeftover();
    b.DropLeftover();
    ok := true;
    if !a.setupDone {
      ok := Bootstrap(a, b, w, seeds, None);
    }
  }

  lemma StartsBalanced(delta: Block)
    ensures Balanced(ZERO, ZERO, ZERO, delta)
  {
    TimesOfZero(delta);
    XorGroup(ZERO, ZERO, ZERO);
  }

  lemma CorrelatedLengths(a: seq<Block>, b: seq<Block>, delta: Block)
    requires AllCorrelated(a, b, delta)
    ensures |a| == |b|
  {
  }

  /** combine_send_chunk against combine_recv_chunk: each accumulator takes in the chunk's sum. */
  method Combine(a: Cot, b: Cot, chi: seq<Block>, send: seq<Block>, recv: seq<Block>, u: seq<Block>, bs: nat)
    requires a != b && |chi| == |u| == bs && |send| == |recv| == BLOCK_BITS * bs && AllCorrelated(send, recv, a.delta)
    requires forall n :: 0 <= n < |recv| ==> recv[n][0] == u[n / BLOCK_BITS][n % BLOCK_BITS]
    requires Balanced(a.checkQ, b.checkT, b.checkX, a.delta)
    modifies a`checkQ, b`checkT, b`checkX
    ensures Balanced(a.checkQ, b.checkT, b.checkX, a.delta)
    ensures a.checkQ == Xor(old(a.checkQ), InnerProduct(chi, PackedGroups(send, bs)))
    ensures b.checkT == Xor(old(b.checkT), InnerProduct(chi, PackedGroups(recv, bs)))
    ensures b.checkX == Xor(old(b.checkX), InnerProduct(chi, u))
  {
    hide AllCorrelated, Xor, GfMul, PackedGroups;
    var q, t, x := InnerProduct(chi, PackedGroups(send, bs)), InnerProduct(chi, PackedGroups(recv, bs)), InnerProduct(chi, u);
    ChunkCheck(chi, send, recv, u, a.delta, bs);
    StaysBalanced(a.checkQ, b.checkT, b.checkX, q, t, x, a.delta);
    a.checkQ, b.checkT, b.checkX := Xor(a.checkQ, q), Xor(b.checkT, t), Xor(b.checkX, x);
  }

  // ---- what the accumulators hold ----

  function Total(cuts: seq<nat>): nat {
    if cuts == [] then 0 else Total(cuts[..|cuts| - 1]) + cuts[|cuts| - 1]
  }

  /** The check coefficients of a session whose chunks had these sizes. */
  function AllChi(chi: (nat, nat, nat) -> Block, session: nat, cuts: seq<nat>): (s: seq<Block>)
    ensures |s| == Total(cuts)
  {
    if cuts == [] then []
    else
      var m := |cuts| - 1;
      AllChi(chi, session, cuts[..m]) + Coefficients(chi, session, Total(cuts[..m]), cuts[m])
  }

  /** Block `i` of a session: its 128 outputs on either side. */
  function SendGroup(f: Expander, theirs: Forest, ours: Forest, delta: Block, session: nat, i: nat): (s: seq<Block>)
    requires Whole(theirs) && Whole(ours)
    ensures |s| == BLOCK_BITS
  {
    seq(BLOCK_BITS, t requires 0 <= t < BLOCK_BITS => SendItem(f, theirs, ours, delta, session, i, t))
  }

  function RecvGroup(f: Expander, ours: Forest, session: nat, i: nat): (s: seq<Block>)
    requires Whole(ours)
    ensures |s| == BLOCK_BITS
  {
    seq(BLOCK_BITS, t requires 0 <= t < BLOCK_BITS => RecvItem(f, ours, session, i, t))
  }

  /** The packed outputs and the u-blocks of `n` blocks of a session from `base` on. */
  function PackedSends(f: Expander, theirs: Forest, ours: Forest, delta: Block, session: nat, base: nat, n: nat): (s: seq<Block>)
    requires Whole(theirs) && Whole(ours)
    ensures |s| == n && forall i :: 0 <= i < n ==> s[i] == Packed(SendGroup(f, theirs, ours, delta, session, base + i))
  {
    if n == 0 then [] else PackedSends(f, theirs, ours, delta, session, base, n - 1) + [Packed(SendGroup(f, theirs, ours, delta, session, base + n - 1))]
  }

  function PackedRecvs(f: Expander, ours: Forest, session: nat, base: nat, n: nat): (s: seq<Block>)
    requires Whole(ours)
    ensures |s| == n && forall i :: 0 <= i < n ==> s[i] == Packed(RecvGroup(f, ours, session, base + i))
  {
    if n == 0 then [] else PackedRecvs(f, ours, session, base, n - 1) + [Packed(RecvGroup(f, ours, session, base + n - 1))]
  }

  function UBlocks(f: Expander, ours: Forest, session: nat, base: nat, n: nat): (s: seq<Block>)
    requires Whole(ours)
    ensures |s| == n && forall i :: 0 <= i < n ==> s[i] == UBlock(f, session, base + i, ours[0])
  {
    if n == 0 then [] else UBlocks(f, ours, session, base, n - 1) + [UBlock(f, session, base + n - 1, ours[0])]
  }

  /** The accumulators are the sums, over every OT of the session since it began, of the coefficients times the packed
  outputs of either side and the u-blocks. */
  ghost predicate Accumulated<D>(a: Cot, b: Cot, w: World<D>)
    reads a, b
  {
    && Whole(a.leaves) && Whole(b.leaves) && a.curB0 == Total(a.cuts)
    && (a.malicious ==>
      var chi := AllChi(w.chi, a.curSession, a.cuts);
      && a.checkQ == InnerProduct(chi, PackedSends(w.expand, a.leaves, b.leaves, a.delta, a.curSession, 0, a.curB0))
      && b.checkT == InnerProduct(chi, PackedRecvs(w.expand, b.leaves, a.curSession, 0, a.curB0))
      && b.checkX == InnerProduct(chi, UBlocks(w.expand, b.leaves, a.curSession, 0, a.curB0)))
  }

  lemma {:induction false} InnerAppend(c: seq<Block>, s: seq<Block>, d: seq<Block>, t: seq<Block>)
    requires |c| == |s| && |d| == |t|
    ensures InnerProduct(c + d, s + t) == Xor(InnerProduct(c, s), InnerProduct(d, t))
  {
    hide Xor, GfMul;
    if d == [] {
      assert c + d == c && s + t == s;
      XorGroup(InnerProduct(c, s), ZERO, ZERO);
    } else {
      var m := |d| - 1;
      InnerAppend(c, s, d[..m], t[..m]);
      assert (c + d)[..|c + d| - 1] == c + d[..m] && (s + t)[..|c + d| - 1] == s + t[..m];
      XorGroup(InnerProduct(c, s), InnerProduct(d[..m], t[..m]), GfMul(d[m], t[m]));
    }
  }

  /** The packed outputs of a chunk are the session's next ones. */
  lemma ChunkPacks(f: Expander, theirs: Forest, ours: Forest, delta: Block, session: nat, base: nat, bs: nat, send: seq<Block>, recv: seq<Block>)
    requires ChunkItems(f, theirs, ours, delta, session, base, send, recv) && |send| == |recv| == BLOCK_BITS * bs
    ensures PackedGroups(send, bs) == PackedSends(f, theirs, ours, delta, session, base, bs)
    ensures PackedGroups(recv, bs) == PackedRecvs(f, ours, session, base, bs)
  {
    hide Packed, SendItem, RecvItem;
    forall i | 0 <= i < bs
      ensures PackedGroups(send, bs)[i] == PackedSends(f, theirs, ours, delta, session, base, bs)[i]
      ensures PackedGroups(recv, bs)[i] == PackedRecvs(f, ours, session, base, bs)[i]
    {
      GroupIs(f, theirs, ours, delta, session, base, bs, send, recv, i);
    }
  }

  lemma GroupIs(f: Expander, theirs: Forest, ours: Forest, delta: Block, session: nat, base: nat, bs: nat, send: seq<Block>, recv: seq<Block>, i: nat)
    requires ChunkItems(f, theirs, ours, delta, session, base, send, recv) && |send| == |recv| == BLOCK_BITS * bs && i < bs
    ensures BLOCK_BITS * (i + 1) <= |send|
    ensures Group(send, i) == SendGroup(f, theirs, ours, delta, session, base + i) && Group(recv, i) == RecvGroup(f, ours, session, base + i)
  {
    hide SendItem, RecvItem;
    forall t | 0 <= t < BLOCK_BITS
      ensures Group(send, i)[t] == SendItem(f, theirs, ours, delta, session, base + i, t)
      ensures Group(recv, i)[t] == RecvItem(f, ours, session, base + i, t)
    {
      var n := BLOCK_BITS * i + t;
      assert n / BLOCK_BITS == i && n % BLOCK_BITS == t;
    }
  }

  lemma PacksExtend(f: Expander, theirs: Forest, ours: Forest, delta: Block, session: nat, base: nat, bs: nat)
    requires Whole(theirs) && Whole(ours)
    ensures PackedSends(f, theirs, ours, delta, session, 0, base + bs) == PackedSends(f, theirs, ours, delta, session, 0, base) + PackedSends(f, theirs, ours, delta, session, base, bs)
    ensures PackedRecvs(f, ours, session, 0, base + bs) == PackedRecvs(f, ours, session, 0, base) + PackedRecvs(f, ours, session, base, bs)
    ensures UBlocks(f, ours, session, 0, base + bs) == UBlocks(f, ours, session, 0, base) + UBlocks(f, ours, session, base, bs)
  {
    hide Packed, SendGroup, RecvGroup, UBlock;
  }

  lemma MoreChi(chi: (nat, nat, nat) -> Block, session: nat, cuts: seq<nat>, bs: nat)
    ensures Total(cuts + [bs]) == Total(cuts) + bs
    ensures AllChi(chi, session, cuts + [bs]) == AllChi(chi, session, cuts) + Coefficients(chi, session, Total(cuts), bs)
  {
    assert (cuts + [bs])[..|cuts|] == cuts;
  }

  /** What the accumulators are after one more chunk. */
  lemma SumsExtend<D>(w: World<D>, theirs: Forest, ours: Forest, delta: Block, session: nat, cuts: seq<nat>, bs: nat)
    requires Whole(theirs) && Whole(ours)
    ensures var f, base, chi := w.expand, Total(cuts), AllChi(w.chi, session, cuts);
      var more, all := Coefficients(w.chi, session, base, bs), AllChi(w.chi, session, cuts + [bs]);
      && Total(cuts + [bs]) == base + bs
      && InnerProduct(all, PackedSends(f, theirs, ours, delta, session, 0, base + bs)) ==
        Xor(InnerProduct(chi, PackedSends(f, theirs, ours, delta, session, 0, base)), InnerProduct(more, PackedSends(f, theirs, ours, delta, session, base, bs)))
      && InnerProduct(all, PackedRecvs(f, ours, session, 0, base + bs)) ==
        Xor(InnerProduct(chi, PackedRecvs(f, ours, session, 0, base)), InnerProduct(more, PackedRecvs(f, ours, session, base, bs)))
      && InnerProduct(all, UBlocks(f, ours, session, 0, base + bs)) ==
        Xor(InnerProduct(chi, UBlocks(f, ours, session, 0, base)), InnerProduct(more, UBlocks(f, ours, session, base, bs)))
  {
    hide Xor, InnerProduct, PackedSends, PackedRecvs, UBlocks, AllChi, Coefficients, Total;
    var f, base, chi := w.expand, Total(cuts), AllChi(w.chi, session, cuts);
    var more := Coefficients(w.chi, session, base, bs);
    MoreChi(w.chi, session, cuts, bs);
    PacksExtend(f, theirs, ours, delta, session, base, bs);
    InnerAppend(chi, PackedSends(f, theirs, ours, delta, session, 0, base), more, PackedSends(f, theirs, ours, delta, session, base, bs));
    InnerAppend(chi, PackedRecvs(f, ours, session, 0, base), more, PackedRecvs(f, ours, session, base, bs));
    InnerAppend(chi, UBlocks(f, ours, session, 0, base), more, UBlocks(f, ours, session, base, bs));
  }

  /** A chunk for an odd Δ. */
  method ExchangeOdd(f: Expander, theirs: Forest, ours: Forest, delta: Block, base: nat, bs: nat, session: nat)
    returns (send: seq<Block>, recv: seq<Block>, u: seq<Block>)
    requires Agree(theirs, ours, delta) && delta[0]
    ensures |send| == |recv| == BLOCK_BITS * bs && |u| == bs && AllCorrelated(send, recv, delta)
    ensures forall n :: 0 <= n < |recv| ==> recv[n][0] == u[n / BLOCK_BITS][n % BLOCK_BITS]
    ensures ChunkItems(f, theirs, ours, delta, session, base, send, recv) && u == UBlocks(f, ours, session, base, bs)
  {
    hide Agree, AllCorrelated, SendItem, RecvItem, UBlock;
    AgreeWhole(theirs, ours, delta);
    send, recv, u := ExchangeChunk(f, theirs, ours, delta, base, bs, session);
    assert u == UBlocks(f, ours, session, base, bs);
  }

  /** send_chunk_pipeline against recv_chunk_pipeline. */
  method Chunk<D>(a: Cot, b: Cot, w: World<D>, bs: nat) returns (send: seq<Block>, recv: seq<Block>)
    requires InSession(a, b)
    modifies a`checkQ, a`curB0, a`cuts, a`used, b`checkT, b`checkX, b`curB0, b`cuts, b`used
    ensures InSession(a, b) && |send| == |recv| == BLOCK_BITS * bs && AllCorrelated(send, recv, a.delta)
    ensures ChunkItems(w.expand, a.leaves, b.leaves, a.delta, a.curSession, old(a.curB0), send, recv)
    ensures a.curB0 == old(a.curB0) + bs && a.cuts == old(a.cuts) + [bs]
    ensures a.used == old(a.used) + Counters(a.curSession, old(a.curB0), bs)
    ensures b.used == old(b.used) + Counters(a.curSession, old(a.curB0), bs)
    ensures Counters(a.curSession, old(a.curB0), bs) !! old(a.used) && Counters(a.curSession, old(a.curB0), bs) !! old(b.used)
    ensures a.malicious ==>
      var chi := Coefficients(w.chi, a.curSession, old(a.curB0), bs);
      && a.checkQ == Xor(old(a.checkQ), InnerProduct(chi, PackedGroups(send, bs)))
      && b.checkT == Xor(old(b.checkT), InnerProduct(chi, PackedGroups(recv, bs)))
      && Whole(b.leaves) && b.checkX == Xor(old(b.checkX), InnerProduct(chi, UBlocks(w.expand, b.leaves, a.curSession, old(a.curB0), bs)))
    ensures !a.malicious ==> a.checkQ == old(a.checkQ) && b.checkT == old(b.checkT) && b.checkX == old(b.checkX)
    ensures old(Accumulated(a, b, w)) ==> Accumulated(a, b, w)
  {
    hide Agree, AllCorrelated, Counters, Balanced, ChunkItems, Accumulated, PackedGroups, UBlocks, InnerProduct, Xor, Coefficients, Cot.Valid, PackedSends, PackedRecvs;
    AgreeWhole(a.leaves, b.leaves, a.delta);
    var u;
    ghost var q, t, x, cuts := a.checkQ, b.checkT, b.checkX, a.cuts;
    WasAccumulated(a, b, w);
    send, recv, u := ExchangeOdd(w.expand, a.leaves, b.leaves, a.delta, a.curB0, bs, a.curSession);
    if a.malicious {
      Combine(a, b, Coefficients(w.chi, a.curSession, a.curB0, bs), send, recv, u, bs);
    }
    a.TakeCounters(bs);
    b.TakeCounters(bs);
    if old(Accumulated(a, b, w)) {
      ChunkPacks(w.expand, a.leaves, b.leaves, a.delta, a.curSession, old(a.curB0), bs, send, recv);
      StaysAccumulated(a, b, w, q, t, x, cuts, bs);
    }
  }

  lemma WasAccumulated<D>(a: Cot, b: Cot, w: World<D>)
    ensures Accumulated(a, b, w) ==>
      && Whole(a.leaves) && Whole(b.leaves) && a.curB0 == Total(a.cuts)
      && (a.malicious ==>
        var chi := AllChi(w.chi, a.curSession, a.cuts);
        && a.checkQ == InnerProduct(chi, PackedSends(w.expand, a.leaves, b.leaves, a.delta, a.curSession, 0, Total(a.cuts)))
        && b.checkT == InnerProduct(chi, PackedRecvs(w.expand, b.leaves, a.curSession, 0, Total(a.cuts)))
        && b.checkX == InnerProduct(chi, UBlocks(w.expand, b.leaves, a.curSession, 0, Total(a.cuts))))
  {
  }

  lemma StaysAccumulated<D>(a: Cot, b: Cot, w: World<D>, q: Block, t: Block, x: Block, cuts: seq<nat>, bs: nat)
    requires Whole(a.leaves) && Whole(b.leaves) && a.cuts == cuts + [bs] && a.curB0 == Total(cuts) + bs
    requires a.malicious ==>
      var chi, more := AllChi(w.chi, a.curSession, cuts), Coefficients(w.chi, a.curSession, Total(cuts), bs);
      && q == InnerProduct(chi, PackedSends(w.expand, a.leaves, b.leaves, a.delta, a.curSession, 0, Total(cuts)))
      && t == InnerProduct(chi, PackedRecvs(w.expand, b.leaves, a.curSession, 0, Total(cuts)))
      && x == InnerProduct(chi, UBlocks(w.expand, b.leaves, a.curSession, 0, Total(cuts)))
      && a.checkQ == Xor(q, InnerProduct(more, PackedSends(w.expand, a.leaves, b.leaves, a.delta, a.curSession, Total(cuts), bs)))
      && b.checkT == Xor(t, InnerProduct(more, PackedRecvs(w.expand, b.leaves, a.curSession, Total(cuts), bs)))
      && b.checkX == Xor(x, InnerProduct(more, UBlocks(w.expand, b.leaves, a.curSession, Total(cuts), bs)))
    ensures Accumulated(a, b, w)
  {
    hide Xor, InnerProduct, PackedSends, PackedRecvs, UBlocks, AllChi, Coefficients, Total;
    SumsExtend(w, a.leaves, b.leaves, a.delta, a.curSession, cuts, bs);
  }

  lemma StaysBalanced(q: Block, t: Block, x: Block, dq: Block, dt: Block, dx: Block, delta: Block)
    requires Balanced(q, t, x, delta) && Balanced(dq, dt, dx, delta)
    ensures Balanced(Xor(q, dq), Xor(t, dt), Xor(x, dx), delta)
  {
    hide Xor, GfMul;
    Distributive(x, dx, delta);
    XorSwap(q, dq, GfMul(x, delta), GfMul(dx, delta));
  }

  lemma CorrelatedAppend(a: seq<Block>, b: seq<Block>, c: seq<Block>, d: seq<Block>, delta: Block)
    requires AllCorrelated(a, b, delta) && AllCorrelated(c, d, delta)
    ensures AllCorrelated(a + c, b + d, delta)
  {
    hide Correlated;
  }

  lemma CorrelatedSlice(a: seq<Block>, b: seq<Block>, delta: Block, lo: nat, hi: nat)
    requires AllCorrelated(a, b, delta) && lo <= hi <= |a|
    ensures AllCorrelated(a[lo..hi], b[lo..hi], delta)
  {
    hide Correlated;
  }

  /** What a request has been given so far: the outputs from `g` on. */
  ghost predicate Handed(a: Cot, b: Cot, g: nat, send: seq<Block>, recv: seq<Block>)
    reads a`produced, a`given, b`produced, b`given
  {
    && a.given == b.given == g + |send| <= |a.produced| == |b.produced| && |recv| == |send|
    && send == a.produced[g..a.given] && recv == b.produced[g..a.given]
  }

  lemma SliceGrows(p: seq<Block>, s: seq<Block>, g: nat, t: nat)
    requires g <= |p| && t <= |s|
    ensures (p + s)[g..|p| + t] == p[g..|p|] + s[..t]
  {
  }

  /** next_chunk: what it adds to the stream. */
  method NextChunk<D>(a: Cot, b: Cot, w: World<D>) returns (s: seq<Block>, r: seq<Block>)
    requires InSession(a, b)
    modifies a`checkQ, a`curB0, a`cuts, a`used, b`checkT, b`checkX, b`curB0, b`cuts, b`used
    ensures InSession(a, b) && |s| == |r| == CHUNK_OTS && AllCorrelated(a.produced + s, b.produced + r, a.delta)
    ensures a.curB0 == old(a.curB0) + CHUNK_BLOCKS && old(a.used) <= a.used && old(b.used) <= b.used
    ensures old(Streaming(a, b, w)) ==>
      SessionItems(w.expand, a.leaves, b.leaves, a.delta, a.curSession, a.begun, a.produced + s, b.produced + r) && Accumulated(a, b, w)
  {
    hide Agree, AllCorrelated, Balanced, Counters, Cot.Valid, ChunkItems, SessionItems;
    s, r := Chunk(a, b, w, CHUNK_BLOCKS);
    if old(Streaming(a, b, w)) {
      ItemsExtend(w.expand, a.leaves, b.leaves, a.delta, a.curSession, a.begun, old(a.curB0), a.produced, b.produced, s, r);
    }
    CorrelatedAppend(a.produced, b.produced, s, r, a.delta);
  }

  /** One more full chunk, straight to the request: nothing is left over. */
  method FullChunk<D>(a: Cot, b: Cot, w: World<D>, ghost g: nat, send: seq<Block>, recv: seq<Block>) returns (send': seq<Block>, recv': seq<Block>)
    requires InSession(a, b) && a.leftoverCount == 0 && Handed(a, b, g, send, recv)
    modifies a`checkQ, a`curB0, a`cuts, a`used, b`checkT, b`checkX, b`curB0, b`cuts, b`used, a`produced, b`produced, a`given, b`given
    ensures InSession(a, b) && a.leftoverCount == 0 && Handed(a, b, g, send', recv') && |send'| == |send| + CHUNK_OTS
    ensures old(Streaming(a, b, w)) ==> Streaming(a, b, w)
    ensures old(a.produced) <= a.produced && old(b.produced) <= b.produced
    ensures old(a.used) <= a.used && old(b.used) <= b.used
  {
    hide Agree, AllCorrelated, Balanced, Cot.Valid, SessionItems;
    CorrelatedLengths(a.produced, b.produced, a.delta);
    NothingLeft(a);
    var s, r := NextChunk(a, b, w);
    SliceGrows(a.produced, s, g, CHUNK_OTS);
    SliceGrows(b.produced, r, g, CHUNK_OTS);
    HandAll(a, s);
    HandAll(b, r);
    assert s[..CHUNK_OTS] == s && r[..CHUNK_OTS] == r;
    send', recv' := send + s, recv + r;
  }

  ghost method HandAll(c: Cot, out: seq<Block>)
    requires c.Valid() && c.leftoverCount == 0
    modifies c`produced, c`given
    ensures c.Valid() && c.produced == old(c.produced) + out && c.given == |c.produced|
  {
    c.produced := c.produced + out;
    c.given := |c.produced|;
  }

  lemma NothingLeft(c: Cot)
    requires c.Valid() && c.leftoverCount == 0
    ensures c.given == |c.produced|
  {
  }

  /** A last chunk of which only `take` outputs are wanted; the rest becomes the leftover. */
  method PartChunk<D>(a: Cot, b: Cot, w: World<D>, take: nat, ghost g: nat, send: seq<Block>, recv: seq<Block>) returns (send': seq<Block>, recv': seq<Block>)
    requires InSession(a, b) && a.leftoverCount == 0 && take <= CHUNK_OTS && Handed(a, b, g, send, recv)
    modifies a`checkQ, a`curB0, a`cuts, a`used, a`produced, a`given, a`leftover, a`leftoverPos, a`leftoverCount
    modifies b`checkT, b`checkX, b`curB0, b`cuts, b`used, b`produced, b`given, b`leftover, b`leftoverPos, b`leftoverCount
    ensures InSession(a, b) && Handed(a, b, g, send', recv') && |send'| == |send| + take
    ensures old(Streaming(a, b, w)) ==> Streaming(a, b, w)
    ensures old(a.produced) <= a.produced && old(b.produced) <= b.produced && a.leftoverCount == CHUNK_OTS - take
    ensures old(a.used) <= a.used && old(b.used) <= b.used
  {
    hide Agree, AllCorrelated, Balanced, Cot.Valid, SessionItems;
    CorrelatedLengths(a.produced, b.produced, a.delta);
    NothingLeft(a);
    var s, r := NextChunk(a, b, w);
    SliceGrows(a.produced, s, g, take);
    SliceGrows(b.produced, r, g, take);
    SetLeftover(a, s, take);
    SetLeftover(b, r, take);
    send', recv' := send + s[..take], recv + r[..take];
  }

  method SetLeftover(c: Cot, out: seq<Block>, take: nat)
    requires c.Valid() && c.leftoverCount == 0 && take <= |out| == CHUNK_OTS
    modifies c`produced, c`given, c`leftover, c`leftoverPos, c`leftoverCount
    ensures c.Valid() && c.produced == old(c.produced) + out && c.given == old(c.given) + take && c.leftoverCount == CHUNK_OTS - take
  {
    c.produced := c.produced + out;
    c.given := c.given + take;
    c.leftover, c.leftoverPos, c.leftoverCount := out, take, CHUNK_OTS - take;
    assert out[take..CHUNK_OTS] == c.produced[c.given..];
  }

  /** next_n on both sides, for any length: the next `length` outputs of the stream, correlated. */
  method NextN<D>(a: Cot, b: Cot, w: World<D>, length: nat) returns (send: seq<Block>, recv: seq<Block>)
    requires InSession(a, b)
    modifies a`checkQ, a`curB0, a`cuts, a`used, a`produced, a`given, a`leftover, a`leftoverPos, a`leftoverCount
    modifies b`checkT, b`checkX, b`curB0, b`cuts, b`used, b`produced, b`given, b`leftover, b`leftoverPos, b`leftoverCount
    ensures InSession(a, b) && |send| == |recv| == length
    ensures AllCorrelated(send, recv, a.delta) && Handed(a, b, old(a.given), send, recv)
    ensures old(Streaming(a, b, w)) ==> Streaming(a, b, w)
    ensures old(a.produced) <= a.produced && old(b.produced) <= b.produced
    ensures a.produced != old(a.produced) ==> a.leftoverCount < CHUNK_OTS
    ensures old(a.used) <= a.used && old(b.used) <= b.used
  {
    hide Agree, AllCorrelated, Balanced, Correlated, InSession, InStep, Handed, SessionItems;
    ghost var g := a.given;
    SessionParts(a, b);
    send, recv := DrainBoth(a, b, length);
    while |send| + CHUNK_OTS <= length
      invariant InSession(a, b) && |send| <= length && Handed(a, b, g, send, recv)
      invariant old(Streaming(a, b, w)) ==> Streaming(a, b, w)
      invariant |send| < length || a.produced != old(a.produced) ==> a.leftoverCount == 0
      invariant old(a.produced) <= a.produced && old(b.produced) <= b.produced
      invariant old(a.used) <= a.used && old(b.used) <= b.used
    {
      send, recv := FullChunk(a, b, w, g, send, recv);
    }
    if |send| < length {
      send, recv := PartChunk(a, b, w, length - |send|, g, send, recv);
    }
    HandedCorrelated(a, b, g, send, recv);
  }

  lemma SessionParts(a: Cot, b: Cot)
    requires InSession(a, b)
    ensures InStep(a, b)
  {
  }

  lemma HandedCorrelated(a: Cot, b: Cot, g: nat, send: seq<Block>, recv: seq<Block>)
    requires InSession(a, b) && Handed(a, b, g, send, recv)
    ensures AllCorrelated(send, recv, a.delta) && |recv| == |send|
  {
    hide Correlated, Agree, Balanced;
    CorrelatedSlice(a.produced, b.produced, a.delta, g, a.given);
  }

  /** drain_leftover on both sides. */
  method DrainBoth(a: Cot, b: Cot, length: nat) returns (send: seq<Block>, recv: seq<Block>)
    requires InStep(a, b)
    modifies a`leftoverPos, a`leftoverCount, a`given, b`leftoverPos, b`leftoverCount, b`given
    ensures InStep(a, b) && (old(InSession(a, b)) ==> InSession(a, b))
    ensures |send| == (if length < old(a.leftoverCount) then length else old(a.leftoverCount)) && Handed(a, b, old(a.given), send, recv)
    ensures AllCorrelated(send, recv, a.delta) && a.leftoverCount == old(a.leftoverCount) - |send| && a.given == old(a.given) + |send|
  {
    hide Agree, Balanced, Correlated;
    ghost var g := a.given;
    send := a.Drain(length);
    recv := b.Drain(length);
    CorrelatedSlice(a.produced, b.produced, a.delta, g, a.given);
  }

  /** end on both sides: with checks on, a scratch chunk and the linear check. `dx` and `dt` are what the receiver's two
  blocks are off by when they arrive: the check accepts exactly errors that cancel, so always if there are none. */
  method End<D>(a: Cot, b: Cot, w: World<D>, dx: Block, dt: Block) returns (ok: bool)
    requires InSession(a, b)
    modifies a`checkQ, a`curB0, a`cuts, a`used, b`checkT, b`checkX, b`curB0, b`cuts, b`used
    ensures InSession(a, b) && (ok <==> (a.malicious ==> dt == GfMul(dx, a.delta)))
    ensures dx == dt == ZERO ==> ok
    ensures a.curB0 == old(a.curB0) + if a.malicious then 1 else 0
    ensures old(Accumulated(a, b, w)) ==> Accumulated(a, b, w)
    ensures old(a.used) <= a.used && old(b.used) <= b.used
  {
    hide Agree, AllCorrelated, Correlated, Accumulated, Xor, GfMul, Counters, ChunkItems, Coefficients, PackedGroups, InnerProduct, UBlocks;
    ok := true;
    TimesOfZero(a.delta);
    if a.malicious {
      var scratchA, scratchB := Chunk(a, b, w, 1);
      ok := VerifySendCheck(a, b, Xor(b.checkX, dx), Xor(b.checkT, dt));
      XorGroup(b.checkX, dx, b.checkX);
      XorGroup(b.checkT, dt, b.checkT);
      XorGroup(dx, b.checkX, b.checkX);
      XorGroup(dt, b.checkT, b.checkT);
      XorGroup(dx, ZERO, ZERO);
      XorGroup(dt, ZERO, ZERO);
    }
  }

  /** verify_send_check against any message: with an honest session behind it, it accepts exactly the pairs whose
  errors cancel, the error of `t` being that of `x` times Δ; in particular the honest pair, and with an honest `x`
  no other `t`. */
  method VerifySendCheck(a: Cot, ghost b: Cot, x: Block, t: Block) returns (ok: bool)
    requires InSession(a, b) && a.malicious
    ensures ok <==> Xor(t, b.checkT) == GfMul(Xor(x, b.checkX), a.delta)
    ensures x == b.checkX ==> (ok <==> t == b.checkT)
  {
    hide Xor, GfMul, InStep;
    ok := Xor(a.checkQ, GfMul(x, a.delta)) == t;
    ErrorsCancel(a.checkQ, b.checkT, b.checkX, x, t, a.delta);
  }

  lemma ErrorsCancel(q: Block, t0: Block, x0: Block, x: Block, t: Block, delta: Block)
    requires Balanced(q, t0, x0, delta)
    ensures Xor(q, GfMul(x, delta)) == t <==> Xor(t, t0) == GfMul(Xor(x, x0), delta)
    ensures x == x0 ==> (Xor(t, t0) == GfMul(Xor(x, x0), delta) <==> t == t0)
  {
    hide Xor, GfMul;
    Distributive(x, x0, delta);
    var u, u0 := GfMul(x, delta), GfMul(x0, delta);
    XorSwap(q, u, q, u0);
    XorGroup(q, q, q);
    XorGroup(Xor(u, u0), ZERO, ZERO);
    XorCancel(t, t0);
    XorCancel(Xor(q, u), t0);
    XorCancel(Xor(u, u0), t0);
    XorGroup(t, t0, ZERO);
    XorGroup(x, x, x);
    TimesOfZero(delta);
  }

  /** What a stand-alone request of `length` outputs takes from the stream: first the leftover, which starts at
  `given`, and then, past anything dropped, what is produced from `start` on. */
  ghost function FromStream(produced: seq<Block>, given: nat, left: nat, start: nat, length: nat): seq<Block>
  {
    if length <= left then (if given + length <= |produced| then produced[given..given + length] else [])
    else if given + left <= |produced| && start + length - left <= |produced|
    then produced[given..given + left] + produced[start..start + length - left]
    else []
  }

  /** A whole session for one request. */
  method RunFresh<D(==)>(a: Cot, b: Cot, w: World<D>, seeds: nat -> (Block, Block), length: nat) returns (ok: bool, send: seq<Block>, recv: seq<Block>)
    requires InStep(a, b)
    modifies a, b
    ensures ok && InStep(a, b) && a.delta == old(a.delta) && |send| == |recv| == length && AllCorrelated(send, recv, a.delta)
    ensures old(a.used) <= a.used && old(b.used) <= b.used
    ensures old(a.produced) <= a.produced && old(b.produced) <= b.produced
    ensures var start := |old(a.produced)|;
      && start == |old(b.produced)| && start + length <= |a.produced| == |b.produced|
      && send == a.produced[start..start + length] && recv == b.produced[start..start + length]
      && SessionItems(w.expand, a.leaves, b.leaves, a.delta, old(a.session), start, a.produced, b.produced)
    ensures old(a.setupDone) ==> a.leaves == old(a.leaves) && b.leaves == old(b.leaves)
    ensures !old(a.setupDone) ==> b.leaves == SetupForest(w, a.malicious, seeds) && a.leaves == PuncturedForest(b.leaves, a.delta)
  {
    hide Agree, AllCorrelated, Balanced, Cot.Valid, SessionItems, SetupForest, PuncturedForest, Accumulated;
    CorrelatedLengths(a.produced, b.produced, a.delta);
    ok := Begin(a, b, w, seeds);
    send, recv := NextN(a, b, w, length);
    var checked := End(a, b, w, ZERO, ZERO);
    CorrelatedLengths(a.produced, b.produced, a.delta);
    ok := ok && checked;
  }

  lemma InStepParts(a: Cot, b: Cot)
    requires InStep(a, b)
    ensures a != b && a.setupDone == b.setupDone && a.session == b.session && a.given == b.given && a.leftoverCount == b.leftoverCount
    ensures a.malicious == b.malicious
  {
  }

  /** run on both sides: leftovers first, then a whole session for the rest, whose outputs are that session's stream over
  the trees at hand. */
  method Run<D(==)>(a: Cot, b: Cot, w: World<D>, seeds: nat -> (Block, Block), length: nat) returns (ok: bool, send: seq<Block>, recv: seq<Block>)
    requires InStep(a, b)
    modifies a, b
    ensures ok && InStep(a, b) && a.delta == old(a.delta) && |send| == |recv| == length && AllCorrelated(send, recv, a.delta)
    ensures old(a.used) <= a.used && old(b.used) <= b.used
    ensures old(a.produced) <= a.produced && old(b.produced) <= b.produced
    ensures send == FromStream(a.produced, old(a.given), old(a.leftoverCount), |old(a.produced)|, length)
    ensures recv == FromStream(b.produced, old(b.given), old(b.leftoverCount), |old(b.produced)|, length)
    ensures length <= old(a.leftoverCount) ==> a.produced == old(a.produced) && b.produced == old(b.produced) && a.session == old(a.session)
    ensures length > old(a.leftoverCount) ==>
      SessionItems(w.expand, a.leaves, b.leaves, a.delta, old(a.session), |old(a.produced)|, a.produced, b.produced)
    ensures length <= old(a.leftoverCount) || old(a.setupDone) ==> a.leaves == old(a.leaves) && b.leaves == old(b.leaves)
    ensures length > old(a.leftoverCount) && !old(a.setupDone) ==>
      b.leaves == SetupForest(w, a.malicious, seeds) && a.leaves == PuncturedForest(b.leaves, a.delta)
  {
    hide InStep, AllCorrelated, SessionItems, SetupForest, PuncturedForest;
    InStepParts(a, b);
    send, recv := DrainBoth(a, b, length);
    InStepParts(a, b);
    if |send| == length {
      return true, send, recv;
    }
    var s, r;
    ok, s, r := RunFresh(a, b, w, seeds, length - |send|);
    CorrelatedAppend(send, recv, s, r, a.delta);
    send := send + s;
    recv := recv + r;
  }
}

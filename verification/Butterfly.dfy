/** The subfield-VOLE butterflies: k planes and one total from 2^k pseudorandom blocks. */
module Butterfly {
  import opened Blocks
  import opened Masks
  import opened Cggm

  /** The block a leaf expands to at a counter of a session. */
  type Expander = (nat, nat, Block) -> Block

  function XorNat(a: nat, b: nat): nat
    decreases a + b
  {
    if a == 0 && b == 0 then 0 else 2 * XorNat(a / 2, b / 2) + if a % 2 != b % 2 then 1 else 0
  }

  lemma {:induction false} XorNatBound(a: nat, b: nat, k: nat)
    requires a < Pow2(k) && b < Pow2(k)
    ensures XorNat(a, b) < Pow2(k)
    decreases k
  {
    if k > 0 {
      XorNatBound(a / 2, b / 2, k - 1);
    }
  }

  lemma {:induction false} XorNatZero(a: nat)
    ensures XorNat(a, 0) == a && XorNat(a, a) == 0
  {
    if a > 0 {
      XorNatZero(a / 2);
    }
  }

  /** The pair of positions 2y and 2y + 1, moved by `a`. */
  lemma XorNatPair(a: nat, y: nat)
    ensures XorNat(a, 2 * y) == 2 * XorNat(a / 2, y) + a % 2
    ensures XorNat(a, 2 * y + 1) == 2 * XorNat(a / 2, y) + (1 - a % 2)
  {
    assert 2 * y / 2 == y && (2 * y + 1) / 2 == y;
  }

  // ---- one level ----

  function Folded(r: seq<Block>): (s: seq<Block>)
    ensures |s| == |r| / 2
  {
    seq(|r| / 2, y requires 0 <= y < |r| / 2 => Xor(r[2 * y], r[2 * y + 1]))
  }

  /** The entries at even positions (`odd` false) or at odd ones. */
  function Every(r: seq<Block>, odd: bool): (s: seq<Block>)
    ensures |s| == |r| / 2
  {
    seq(|r| / 2, y requires 0 <= y < |r| / 2 => r[2 * y + if odd then 1 else 0])
  }

  function FoldedTimes(r: seq<Block>, b: nat): (s: seq<Block>)
  {
    if b == 0 then r else Folded(FoldedTimes(r, b - 1))
  }

  /** Plane `b`: the sum of the odd entries after `b` folds. */
  function Plane(r: seq<Block>, b: nat): Block {
    XorSum(Every(FoldedTimes(r, b), true))
  }

  lemma FoldsUnfold(r: seq<Block>, b: nat)
    ensures FoldedTimes(r, 0) == r
    ensures b > 0 ==> FoldedTimes(r, b) == Folded(FoldedTimes(r, b - 1))
  {
  }

  lemma PowStep(k: nat)
    ensures Pow2(k + 1) == 2 * Pow2(k)
  {
  }

  lemma {:induction false} FoldedLength(r: seq<Block>, k: nat, b: nat)
    requires |r| == Pow2(k) && b <= k
    ensures |FoldedTimes(r, b)| == Pow2(k - b)
  {
    hide Folded, Pow2, FoldedTimes;
    FoldsUnfold(r, b);
    if b > 0 {
      FoldedLength(r, k, b - 1);
      PowStep(k - b);
    }
  }

  lemma FoldedAt(r: seq<Block>, y: nat)
    requires y < |r| / 2
    ensures Folded(r)[y] == Xor(r[2 * y], r[2 * y + 1])
    ensures Every(r, true)[y] == r[2 * y + 1]
  {
  }

  /** One in-place level: the odd entries are summed, then every pair is folded. */
  method FoldLevel(r: array<Block>, n: nat) returns (acc: Block)
    requires n <= r.Length && n % 2 == 0
    modifies r
    ensures r[..n / 2] == Folded(old(r[..n])) && acc == XorSum(Every(old(r[..n]), true))
  {
    hide Xor, XorSum, Folded, Every;
    ghost var before := r[..n];
    ghost var folded, odd := Folded(before), Every(before, true);
    var half := n / 2;
    acc := ZERO;
    NoSum(odd[..0]);
    for y := 0 to half
      invariant forall i :: 0 <= i < y ==> r[i] == folded[i]
      invariant forall i :: 2 * y <= i < n ==> r[i] == before[i]
      invariant acc == XorSum(odd[..y])
    {
      FoldedAt(before, y);
      var lo, hi := r[2 * y], r[2 * y + 1];
      OneMoreSum(odd, y);
      acc := Xor(acc, hi);
      r[y] := Xor(lo, hi);
    }
    assert odd[..half] == odd && r[..half] == folded;
  }

  /** The inner loops of both butterflies. */
  method Planes(r: array<Block>, k: nat) returns (planes: seq<Block>)
    requires r.Length == Pow2(k)
    modifies r
    ensures |planes| == k && forall b :: 0 <= b < k ==> planes[b] == Plane(old(r[..]), b)
    ensures |FoldedTimes(old(r[..]), k)| == 1 && r[0] == FoldedTimes(old(r[..]), k)[0]
  {
    hide Plane, FoldedTimes, Folded, Every, XorSum, Pow2;
    ghost var start := r[..];
    planes := [];
    var n := r.Length;
    PlanesUnfold(start, k, 0);
    assert r[..n] == start;
    for b := 0 to k
      invariant n == Pow2(k - b) <= r.Length && |planes| == b
      invariant r[..n] == FoldedTimes(start, b)
      invariant forall c :: 0 <= c < b ==> planes[c] == Plane(start, c)
    {
      FoldedLength(start, k, b);
      PlanesUnfold(start, k, b);
      var acc := FoldLevel(r, n);
      planes := planes + [acc];
      n := n / 2;
    }
    PlanesUnfold(start, k, k);
    FoldedLength(start, k, k);
    assert r[..1][0] == r[0];
  }

  lemma PlanesUnfold(r: seq<Block>, k: nat, b: nat)
    requires b <= k
    ensures FoldedTimes(r, 0) == r && Pow2(0) == 1
    ensures Plane(r, b) == XorSum(Every(FoldedTimes(r, b), true))
    ensures FoldedTimes(r, b + 1) == Folded(FoldedTimes(r, b))
    ensures b < k ==> Pow2(k - b) == 2 * Pow2(k - b - 1)
  {
  }

  // ---- sums do not care about the order ----

  lemma {:induction false} SumOfEvery(r: seq<Block>)
    requires |r| % 2 == 0
    ensures XorSum(r) == XorSum(Folded(r)) == Xor(XorSum(Every(r, false)), XorSum(Every(r, true)))
  {
    hide Xor;
    if r == [] {
      XorGroup(ZERO, ZERO, ZERO);
    } else {
      var m := |r| - 2;
      var h := r[..m];
      SumOfEvery(h);
      assert r[..|r| - 1][..m] == h;
      var f, e, o := Folded(r), Every(r, false), Every(r, true);
      assert f[..|f| - 1] == Folded(h) && e[..|e| - 1] == Every(h, false) && o[..|o| - 1] == Every(h, true);
      XorGroup(XorSum(h), r[m], r[m + 1]);
      XorSwap(XorSum(Every(h, false)), XorSum(Every(h, true)), r[m], r[m + 1]);
    }
  }

  /** `s` is `r` with its entries moved by XOR-ing positions with `a`. */
  ghost predicate Moved(r: seq<Block>, s: seq<Block>, a: nat) {
    |r| == |s| && forall y :: 0 <= y < |r| ==> MovedAt(r, s, a, y)
  }

  predicate MovedAt(r: seq<Block>, s: seq<Block>, a: nat, y: nat)
    requires y < |r| == |s|
  {
    XorNat(a, y) < |r| && s[y] == r[XorNat(a, y)]
  }

  lemma MovedOne(r: seq<Block>, s: seq<Block>, a: nat)
    requires |r| == Pow2(0) && a < Pow2(0) && Moved(r, s, a)
    ensures s == r
  {
    assert MovedAt(r, s, a, 0);
    XorNatZero(0);
  }

  lemma MovedFold(r: seq<Block>, s: seq<Block>, a: nat)
    requires |r| % 2 == 0 && Moved(r, s, a)
    ensures Moved(Folded(r), Folded(s), a / 2) && |r| == |s|
  {
    hide XorNat, Xor, MovedAt;
    forall y | 0 <= y < |r| / 2
      ensures MovedAt(Folded(r), Folded(s), a / 2, y)
    {
      FoldMoved(r, s, a, y);
    }
  }

  lemma {:induction false} MovedSum(r: seq<Block>, s: seq<Block>, a: nat, k: nat)
    requires |r| == Pow2(k) && a < Pow2(k) && Moved(r, s, a)
    ensures XorSum(s) == XorSum(r)
    decreases k
  {
    hide *;
    if k == 0 {
      MovedOne(r, s, a);
    } else {
      PowStep(k - 1);
      MovedFold(r, s, a);
      SumOfEvery(r);
      SumOfEvery(s);
      MovedSum(Folded(r), Folded(s), a / 2, k - 1);
    }
  }

  lemma FoldMoved(r: seq<Block>, s: seq<Block>, a: nat, y: nat)
    requires |r| == |s| && |r| % 2 == 0 && y < |r| / 2 && MovedAt(r, s, a, 2 * y) && MovedAt(r, s, a, 2 * y + 1)
    ensures MovedAt(Folded(r), Folded(s), a / 2, y)
  {
    hide Xor, XorNat;
    XorNatPair(a, y);
    var z := XorNat(a / 2, y);
    XorGroup(r[2 * z], r[2 * z + 1], ZERO);
  }

  // ---- the receiver's view: moved by its index, and wrong only at position 0 ----

  ghost predicate Twisted(r: seq<Block>, s: seq<Block>, a: nat) {
    |r| == |s| && forall y :: 0 < y < |r| ==> MovedAt(r, s, a, y)
  }

  lemma TwistedFold(r: seq<Block>, s: seq<Block>, a: nat)
    requires |r| % 2 == 0 && Twisted(r, s, a)
    ensures Twisted(Folded(r), Folded(s), a / 2)
  {
    hide XorNat, Xor, MovedAt;
    forall y | 0 < y < |r| / 2
      ensures MovedAt(Folded(r), Folded(s), a / 2, y)
    {
      FoldMoved(r, s, a, y);
    }
  }

  lemma {:induction false} TwistedTimes(r: seq<Block>, s: seq<Block>, a: nat, k: nat, b: nat)
    requires |r| == Pow2(k) && b <= k && Twisted(r, s, a)
    ensures Twisted(FoldedTimes(r, b), FoldedTimes(s, b), Shifted(a, b))
  {
    hide Twisted, Folded, FoldedTimes, Pow2;
    FoldsUnfold(r, b);
    FoldsUnfold(s, b);
    if b > 0 {
      TwistedTimes(r, s, a, k, b - 1);
      FoldedLength(r, k, b - 1);
      PowStep(k - b);
      TwistedFold(FoldedTimes(r, b - 1), FoldedTimes(s, b - 1), Shifted(a, b - 1));
    }
  }

  /** a >> b */
  function Shifted(a: nat, b: nat): nat {
    if b == 0 then a else Shifted(a, b - 1) / 2
  }

  lemma {:induction false} ShiftedBit(a: nat, b: nat)
    ensures (Shifted(a, b) % 2 == 1) == Bit(a, b)
  {
    ShiftedBits(a, b, 0);
  }

  lemma {:induction false} ShiftedBits(a: nat, b: nat, k: nat)
    ensures Bit(Shifted(a, b), k) == Bit(a, b + k)
  {
    if b > 0 {
      ShiftedBits(a, b - 1, k + 1);
    }
  }

  lemma {:induction false} ShiftedBound(a: nat, k: nat, b: nat)
    requires a < Pow2(k) && b <= k
    ensures Shifted(a, b) < Pow2(k - b)
  {
    if b > 0 {
      ShiftedBound(a, k, b - 1);
    }
  }

  /** The sum of the odd entries of the twisted list: of the odd entries, or of the even ones. */
  lemma TwistedOdd(r: seq<Block>, s: seq<Block>, a: nat, k: nat)
    requires k > 0 && |r| == Pow2(k) && a < Pow2(k) && Twisted(r, s, a)
    ensures XorSum(Every(s, true)) == Xor(XorSum(Every(r, true)), Select(a % 2 == 1, XorSum(r)))
  {
    hide Xor, XorSum, XorNat;
    var pick := Every(r, a % 2 == 0);
    forall y | 0 <= y < |r| / 2
      ensures MovedAt(pick, Every(s, true), a / 2, y)
    {
      assert MovedAt(r, s, a, 2 * y + 1);
      XorNatPair(a, y);
    }
    MovedSum(pick, Every(s, true), a / 2, k - 1);
    SumOfEvery(r);
    var even, odd := XorSum(Every(r, false)), XorSum(Every(r, true));
    XorGroup(even, odd, ZERO);
    XorCancel(even, odd);
    XorGroup(odd, even, odd);
    XorGroup(odd, ZERO, ZERO);
  }

  lemma {:induction false} SumKept(r: seq<Block>, k: nat, b: nat)
    requires |r| == Pow2(k) && b <= k
    ensures XorSum(FoldedTimes(r, b)) == XorSum(r)
  {
    hide XorSum, Folded, FoldedTimes, Pow2, Xor;
    FoldsUnfold(r, b);
    if b > 0 {
      SumKept(r, k, b - 1);
      FoldedLength(r, k, b - 1);
      PowStep(k - b);
      SumOfEvery(FoldedTimes(r, b - 1));
    }
  }

  /** The total: what all folds leave in entry 0. */
  lemma TotalIsSum(r: seq<Block>, k: nat)
    requires |r| == Pow2(k)
    ensures |FoldedTimes(r, k)| == 1 && FoldedTimes(r, k)[0] == XorSum(r)
  {
    hide Xor;
    SumKept(r, k, k);
    FoldedLength(r, k, k);
    var t := FoldedTimes(r, k);
    assert t[..0] == [];
    XorGroup(t[0], ZERO, ZERO);
  }

  /** The correlation: on every plane the receiver has the sender's block, moved by the total exactly
  where its index has a set bit, whatever its own block at that index is. */
  lemma PlaneCorrelation(r: seq<Block>, s: seq<Block>, a: nat, k: nat, b: nat)
    requires |r| == Pow2(k) && a < Pow2(k) && b < k && Twisted(r, s, a)
    ensures Plane(s, b) == Xor(Plane(r, b), Select(Bit(a, b), XorSum(r)))
  {
    hide Xor, XorSum, Every, Twisted, FoldedTimes;
    TwistedTimes(r, s, a, k, b);
    FoldedLength(r, k, b);
    ShiftedBound(a, k, b);
    ShiftedBit(a, b);
    TwistedOdd(FoldedTimes(r, b), FoldedTimes(s, b), Shifted(a, b), k - b);
    SumKept(r, k, b);
  }

  // ---- the two butterflies ----

  /** What the leaves expand to at one counter. */
  function Expanded(f: Expander, session: nat, counter: nat, leaves: seq<Block>): (r: seq<Block>)
    ensures |r| == |leaves| && forall y :: 0 <= y < |leaves| ==> r[y] == f(session, counter, leaves[y])
  {
    seq(|leaves|, y requires 0 <= y < |leaves| => f(session, counter, leaves[y]))
  }

  /** The leaves in the order the receiver reads them. */
  function MovedLeaves(leaves: seq<Block>, alpha: nat, k: nat): (s: seq<Block>)
    requires |leaves| == Pow2(k) && alpha < Pow2(k)
    ensures |s| == |leaves| && forall y :: 0 <= y < |s| ==> XorNat(alpha, y) < |leaves| && s[y] == leaves[XorNat(alpha, y)]
  {
    assert forall y :: 0 <= y < |leaves| ==> XorNat(alpha, y) < |leaves| by {
      forall y | 0 <= y < |leaves| ensures XorNat(alpha, y) < |leaves| {
        XorNatBound(alpha, y, k);
      }
    }
    seq(|leaves|, y requires 0 <= y < |leaves| => leaves[XorNat(alpha, y)])
  }

  /** Planes come first, then positions: block `j` of plane `b` is entry `b * bs + j`; here `v[b][j]`. */
  type PlaneGrid = seq<seq<Block>>

  /** sfvole_sender_butterfly */
  method SenderButterfly(f: Expander, k: nat, leaves: seq<Block>, base: nat, bs: nat, session: nat)
    returns (u: seq<Block>, v: PlaneGrid)
    requires k >= 2 && |leaves| == Pow2(k)
    ensures |u| == bs && |v| == k && forall b :: 0 <= b < k ==> |v[b]| == bs
    ensures forall j :: 0 <= j < bs ==> u[j] == XorSum(Expanded(f, session, base + j, leaves))
    ensures forall b, j :: 0 <= b < k && 0 <= j < bs ==> v[b][j] == Plane(Expanded(f, session, base + j, leaves), b)
  {
    hide Plane, XorSum, FoldedTimes;
    u, v := [], seq(k, _ => []);
    for j := 0 to bs
      invariant |u| == j && |v| == k && forall b :: 0 <= b < k ==> |v[b]| == j
      invariant forall i :: 0 <= i < j ==> u[i] == XorSum(Expanded(f, session, base + i, leaves))
      invariant forall b, i :: 0 <= b < k && 0 <= i < j ==> v[b][i] == Plane(Expanded(f, session, base + i, leaves), b)
    {
      ghost var start := Expanded(f, session, base + j, leaves);
      var r := new Block[|leaves|](y requires 0 <= y < |leaves| => f(session, base + j, leaves[y]));
      assert r[..] == start;
      var planes := Planes(r, k);
      TotalIsSum(start, k);
      u := u + [r[0]];
      v := seq(k, b requires 0 <= b < k => v[b] + [planes[b]]);
    }
  }

  /** sfvole_receiver_butterfly */
  method ReceiverButterfly(f: Expander, k: nat, alpha: nat, leaves: seq<Block>, base: nat, bs: nat, session: nat)
    returns (w: PlaneGrid)
    requires k >= 2 && |leaves| == Pow2(k) && alpha < Pow2(k)
    ensures |w| == k && forall b :: 0 <= b < k ==> |w[b]| == bs
    ensures forall b, j :: 0 <= b < k && 0 <= j < bs ==>
      w[b][j] == Plane(Expanded(f, session, base + j, MovedLeaves(leaves, alpha, k)), b)
  {
    hide Plane, XorSum, FoldedTimes;
    var moved := MovedLeaves(leaves, alpha, k);
    w := seq(k, _ => []);
    for j := 0 to bs
      invariant |w| == k && forall b :: 0 <= b < k ==> |w[b]| == j
      invariant forall b, i :: 0 <= b < k && 0 <= i < j ==> w[b][i] == Plane(Expanded(f, session, base + i, moved), b)
    {
      var r := new Block[|moved|](y requires 0 <= y < |moved| => f(session, base + j, moved[y]));
      assert r[..] == Expanded(f, session, base + j, moved);
      var planes := Planes(r, k);
      w := seq(k, b requires 0 <= b < k => w[b] + [planes[b]]);
    }
  }

  /** Leaves that agree except at the receiver's index give correlated planes. */
  lemma ButterflyCorrelation(f: Expander, k: nat, leaves: seq<Block>, theirs: seq<Block>, alpha: nat, session: nat, counter: nat, b: nat)
    requires |leaves| == |theirs| == Pow2(k) && alpha < Pow2(k) && b < k
    requires forall y :: 0 <= y < |leaves| && y != alpha ==> theirs[y] == leaves[y]
    ensures var r := Expanded(f, session, counter, leaves);
      Plane(Expanded(f, session, counter, MovedLeaves(theirs, alpha, k)), b) == Xor(Plane(r, b), Select(Bit(alpha, b), XorSum(r)))
  {
    hide Plane, XorSum, Xor, XorNat;
    var r, s := Expanded(f, session, counter, leaves), Expanded(f, session, counter, MovedLeaves(theirs, alpha, k));
    forall y | 0 < y < |r|
      ensures MovedAt(r, s, alpha, y)
    {
      OnlyZeroHits(alpha, y);
    }
    PlaneCorrelation(r, s, alpha, k, b);
  }

  lemma {:induction false} OnlyZeroHits(a: nat, y: nat)
    requires y > 0
    ensures XorNat(a, y) != a
    decreases a + y
  {
    if y / 2 > 0 {
      OnlyZeroHits(a / 2, y / 2);
    }
  }
}

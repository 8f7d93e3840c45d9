/** The punctured tree of correlated seeds: every level XORs to Δ, and one sum per level rebuilds all leaves but one. */
module Cggm {
  import opened Blocks
  import opened Masks

  type Hash = Block -> Block

  /** CGGM_LSB_CLEAR_MASK applied. */
  function ClearLsb(a: Block): Block {
    a[0 := false]
  }

  function Masked(a: Block, clear: bool): Block {
    if clear then ClearLsb(a) else a
  }

  function Left(h: Hash, parent: Block, clear: bool): Block {
    Masked(h(parent), clear)
  }

  function Right(h: Hash, parent: Block, clear: bool): Block {
    Masked(Xor(parent, h(parent)), clear)
  }

  function Child(h: Hash, parent: Block, clear: bool, right: bool): Block {
    if right then Right(h, parent, clear) else Left(h, parent, clear)
  }

  /** One side's children of every node, in order. */
  function Side(h: Hash, nodes: seq<Block>, clear: bool, right: bool): (s: seq<Block>)
    ensures |s| == |nodes| && forall j :: 0 <= j < |nodes| ==> s[j] == Child(h, nodes[j], clear, right)
  {
    seq(|nodes|, j requires 0 <= j < |nodes| => Child(h, nodes[j], clear, right))
  }

  /** The next level: all left children, then all right children. */
  function Expand(h: Hash, nodes: seq<Block>, clear: bool): (s: seq<Block>)
    ensures |s| == 2 * |nodes|
  {
    Side(h, nodes, clear, false) + Side(h, nodes, clear, true)
  }

  function XorSum(s: seq<Block>): Block {
    if s == [] then ZERO else Xor(XorSum(s[..|s| - 1]), s[|s| - 1])
  }

  /** Level `level` of a tree of the given depth; only the leaves may be masked. */
  function Level(h: Hash, root: Block, delta: Block, depth: nat, clear: bool, level: nat): (s: seq<Block>)
    requires 1 <= level <= depth
    ensures |s| == Pow2(level)
  {
    if level == 1 then [root, Xor(delta, root)]
    else Expand(h, Level(h, root, delta, depth, clear, level - 1), clear && level == depth)
  }

  // ---- the sender's array ----

  /** cggm_expand_level: in place on the first `parents` entries. */
  method ExpandLevel(h: Hash, leaves: array<Block>, parents: nat, wantRight: bool, clear: bool) returns (sum: Block)
    requires 2 * parents <= leaves.Length
    modifies leaves
    ensures leaves[..2 * parents] == Expand(h, old(leaves[..parents]), clear)
    ensures leaves[2 * parents..] == old(leaves[2 * parents..])
    ensures sum == XorSum(Side(h, old(leaves[..parents]), clear, wantRight))
  {
    hide Xor, Masked, ClearLsb, Child, XorSum;
    ghost var nodes := leaves[..parents];
    ghost var ls, rs := Side(h, nodes, clear, false), Side(h, nodes, clear, true);
    ghost var side := Side(h, nodes, clear, wantRight);
    sum := ZERO;
    NoSum(side[..0]);
    for j := 0 to parents
      invariant forall i :: 0 <= i < j ==> leaves[i] == ls[i]
      invariant forall i :: j <= i < parents ==> leaves[i] == nodes[i]
      invariant forall i :: parents <= i < parents + j ==> leaves[i] == rs[i - parents]
      invariant forall i :: 2 * parents <= i < leaves.Length ==> leaves[i] == old(leaves[i])
      invariant sum == XorSum(side[..j])
    {
      var parent := leaves[j];
      var left := h(parent);
      var right := Xor(parent, left);
      ChildMeans(h, parent, clear);
      if clear {
        left := ClearLsb(left);
        right := ClearLsb(right);
      }
      leaves[parents + j] := right;
      leaves[j] := left;
      OneMoreSum(side, j);
      sum := Xor(sum, if wantRight then right else left);
    }
    assert side[..parents] == side;
    assert leaves[..2 * parents] == ls + rs;
  }

  lemma NoSum(s: seq<Block>)
    requires s == []
    ensures XorSum(s) == ZERO
  {
  }

  lemma OneMoreSum(s: seq<Block>, j: nat)
    requires j < |s|
    ensures XorSum(s[..j + 1]) == Xor(XorSum(s[..j]), s[j])
  {
    assert s[..j + 1][..j] == s[..j];
  }

  lemma ChildMeans(h: Hash, parent: Block, clear: bool)
    ensures Child(h, parent, clear, false) == if clear then ClearLsb(h(parent)) else h(parent)
    ensures Child(h, parent, clear, true) == if clear then ClearLsb(Xor(parent, h(parent))) else Xor(parent, h(parent))
  {
  }

  /** The sum of a level's left children; for the first level, the root. */
  function LeftSum(h: Hash, root: Block, delta: Block, depth: nat, clear: bool, level: nat): Block
    requires 1 <= level <= depth
  {
    if level == 1 then root
    else XorSum(Side(h, Level(h, root, delta, depth, clear, level - 1), clear && level == depth, false))
  }

  /** cggm_build_sender */
  method BuildSender(h: Hash, depth: nat, delta: Block, root: Block, clear: bool) returns (leaves: seq<Block>, k0: seq<Block>)
    requires depth >= 1
    ensures leaves == Level(h, root, delta, depth, clear, depth)
    ensures |k0| == depth && forall level :: 1 <= level <= depth ==> k0[level - 1] == LeftSum(h, root, delta, depth, clear, level)
  {
    hide Level, LeftSum, XorSum, Expand;
    PowGrows(1, depth);
    var q := Pow2(depth);
    var tree := new Block[q](_ => ZERO);
    tree[0], tree[1] := root, Xor(delta, root);
    k0 := [tree[0]];
    FirstLevel(h, root, delta, depth, clear, tree[..2]);
    var level := 2;
    while level < depth
      invariant 2 <= level && (depth >= 2 ==> level <= depth) && (depth == 1 ==> level == 2)
      invariant tree.Length == q && Built(h, root, delta, depth, clear, level - 1, tree[..], k0)
    {
      k0 := NextLevel(h, tree, root, delta, depth, clear, level, k0);
      level := level + 1;
    }
    if depth >= 2 {
      k0 := NextLevel(h, tree, root, delta, depth, clear, depth, k0);
    }
    leaves := tree[..];
    assert leaves[..q] == leaves;
  }

  /** The array after `level` levels. */
  ghost predicate Built(h: Hash, root: Block, delta: Block, depth: nat, clear: bool, level: nat, tree: seq<Block>, k0: seq<Block>) {
    && 1 <= level <= depth && |tree| == Pow2(depth) && Pow2(level) <= |tree|
    && tree[..Pow2(level)] == Level(h, root, delta, depth, clear, level)
    && |k0| == level && forall l :: 1 <= l <= level ==> k0[l - 1] == LeftSum(h, root, delta, depth, clear, l)
  }

  lemma FirstLevel(h: Hash, root: Block, delta: Block, depth: nat, clear: bool, pair: seq<Block>)
    requires depth >= 1 && pair == [root, Xor(delta, root)]
    ensures Level(h, root, delta, depth, clear, 1) == pair && LeftSum(h, root, delta, depth, clear, 1) == root && Pow2(1) == 2
  {
  }

  lemma LevelUnfolds(h: Hash, root: Block, delta: Block, depth: nat, clear: bool, level: nat)
    requires 2 <= level <= depth
    ensures var nodes, last := Level(h, root, delta, depth, clear, level - 1), clear && level == depth;
      && Level(h, root, delta, depth, clear, level) == Expand(h, nodes, last)
      && LeftSum(h, root, delta, depth, clear, level) == XorSum(Side(h, nodes, last, false))
    ensures Pow2(level) == 2 * Pow2(level - 1) <= Pow2(depth)
  {
    PowGrows(level, depth);
  }

  /** One level of the sender's tree. */
  method NextLevel(h: Hash, tree: array<Block>, ghost root: Block, ghost delta: Block, depth: nat, clear: bool, level: nat, k0: seq<Block>)
    returns (k: seq<Block>)
    requires 2 <= level <= depth && Built(h, root, delta, depth, clear, level - 1, tree[..], k0)
    modifies tree
    ensures Built(h, root, delta, depth, clear, level, tree[..], k)
  {
    hide Level, LeftSum, XorSum, Expand, Pow2;
    LevelUnfolds(h, root, delta, depth, clear, level);
    ghost var before := tree[..];
    var parents := Pow2(level - 1);
    assert tree[..parents] == before[..parents];
    var sum := ExpandLevel(h, tree, parents, false, clear && level == depth);
    assert tree[..][..2 * parents] == tree[..2 * parents];
    k := k0 + [sum];
  }

  lemma {:induction false} PowGrows(a: nat, b: nat)
    ensures a <= b ==> Pow2(a) <= Pow2(b)
  {
    if a < b {
      PowGrows(a, b - 1);
    }
  }

  // ---- every level XORs to Δ ----

  lemma {:induction false} XorSumAppend(a: seq<Block>, b: seq<Block>)
    ensures XorSum(a + b) == Xor(XorSum(a), XorSum(b))
  {
    hide Xor;
    if b == [] {
      assert a + b == a;
      XorGroup(XorSum(a), ZERO, ZERO);
    } else {
      var m := |b| - 1;
      assert (a + b)[..|a + b| - 1] == a + b[..m];
      XorSumAppend(a, b[..m]);
      XorGroup(XorSum(a), XorSum(b[..m]), b[m]);
    }
  }

  lemma MaskedLinear(a: Block, b: Block, clear: bool)
    ensures Masked(Xor(a, b), clear) == Xor(Masked(a, clear), Masked(b, clear))
  {
  }

  lemma MaskedZero(clear: bool)
    ensures Masked(ZERO, clear) == ZERO
  {
  }

  lemma Unmasked(a: Block)
    ensures Masked(a, false) == a
  {
  }

  /** The right children sum to the parents' sum plus the left children's, up to the mask. */
  lemma {:induction false} SidesSum(h: Hash, nodes: seq<Block>, clear: bool)
    ensures XorSum(Side(h, nodes, clear, true)) == Xor(Masked(XorSum(nodes), clear), XorSum(Side(h, nodes, clear, false)))
  {
    hide Xor, Masked;
    if nodes == [] {
      MaskedZero(clear);
      XorGroup(ZERO, ZERO, ZERO);
    } else {
      var m := |nodes| - 1;
      SidesSum(h, nodes[..m], clear);
      var left, right := Side(h, nodes, clear, false), Side(h, nodes, clear, true);
      assert left[..m] == Side(h, nodes[..m], clear, false) && right[..m] == Side(h, nodes[..m], clear, true);
      MaskedLinear(XorSum(nodes[..m]), nodes[m], clear);
      MaskedLinear(nodes[m], h(nodes[m]), clear);
      XorSwap(Masked(XorSum(nodes[..m]), clear), XorSum(left[..m]), Masked(nodes[m], clear), left[m]);
    }
  }

  lemma PairSum(a: Block, b: Block)
    ensures XorSum([a, b]) == Xor(a, b)
  {
    assert [a, b][..1] == [a];
    assert [a][..0] == [];
    assert XorSum([a]) == Xor(ZERO, a);
    XorGroup(a, ZERO, ZERO);
  }

  lemma {:induction false} LevelSumsToDelta(h: Hash, root: Block, delta: Block, depth: nat, clear: bool, level: nat)
    requires 1 <= level <= depth
    ensures XorSum(Level(h, root, delta, depth, clear, level)) == Masked(delta, clear && level == depth && level > 1)
  {
    hide Xor, Masked, Level, Expand, XorSum;
    Unmasked(delta);
    if level == 1 {
      FirstLevel(h, root, delta, depth, clear, [root, Xor(delta, root)]);
      PairSum(root, Xor(delta, root));
      XorCancel(delta, root);
      XorGroup(root, delta, root);
    } else {
      LevelSumsToDelta(h, root, delta, depth, clear, level - 1);
      LevelUnfolds(h, root, delta, depth, clear, level);
      ExpandSum(h, Level(h, root, delta, depth, clear, level - 1), clear && level == depth);
    }
  }

  /** Expanding a level keeps its sum, up to the mask. */
  lemma ExpandSum(h: Hash, nodes: seq<Block>, clear: bool)
    ensures XorSum(Expand(h, nodes, clear)) == Masked(XorSum(nodes), clear)
  {
    hide Xor, Masked, XorSum;
    var left, right := Side(h, nodes, clear, false), Side(h, nodes, clear, true);
    SidesSum(h, nodes, clear);
    XorSumAppend(left, right);
    XorGroup(XorSum(left), XorSum(right), ZERO);
    XorCancel(Masked(XorSum(nodes), clear), XorSum(left));
    XorGroup(XorSum(left), Masked(XorSum(nodes), clear), ZERO);
  }

  // ---- the receiver ----

  /** (alpha >> (depth - level)) & 1 */
  predicate PathBit(alpha: nat, depth: nat, level: nat)
    requires level <= depth
  {
    Bit(alpha, depth - level)
  }

  /** The punctured position at a level. */
  function Position(alpha: nat, depth: nat, level: nat): (pos: nat)
    requires level <= depth
    ensures pos < Pow2(level)
  {
    if level == 0 then 0
    else Position(alpha, depth, level - 1) + if PathBit(alpha, depth, level) then Pow2(level - 1) else 0
  }

  /** The sum the receiver gets for a level: of the side its path does not take. */
  function KeyFor(h: Hash, root: Block, delta: Block, depth: nat, clear: bool, alpha: nat, level: nat): Block
    requires 1 <= level <= depth
  {
    var k0 := LeftSum(h, root, delta, depth, clear, level);
    if PathBit(alpha, depth, level) then k0 else Xor(k0, delta)
  }

  predicate KeysMatch(h: Hash, root: Block, delta: Block, depth: nat, clear: bool, alpha: nat, keys: seq<Block>) {
    |keys| == depth && forall level :: 1 <= level <= depth ==> keys[level - 1] == KeyFor(h, root, delta, depth, clear, alpha, level)
  }

  /** The same nodes, except for a zero at the punctured position. */
  predicate Punctured(nodes: seq<Block>, tree: seq<Block>, pos: nat) {
    |nodes| == |tree| && pos < |nodes| && nodes[pos] == ZERO && forall y :: 0 <= y < |nodes| && y != pos ==> nodes[y] == tree[y]
  }

  lemma {:induction false} XorSumExcept(s: seq<Block>, t: seq<Block>, pos: nat)
    requires |s| == |t| && pos < |s| && forall y :: 0 <= y < |s| && y != pos ==> s[y] == t[y]
    ensures Xor(XorSum(s), s[pos]) == Xor(XorSum(t), t[pos])
  {
    hide Xor;
    var m := |s| - 1;
    if pos < m {
      XorSumExcept(s[..m], t[..m], pos);
      XorGroup(XorSum(s[..m]), s[m], s[pos]);
      XorGroup(s[m], s[pos], ZERO);
      XorGroup(XorSum(s[..m]), s[pos], s[m]);
      XorGroup(XorSum(t[..m]), t[m], t[pos]);
      XorGroup(t[m], t[pos], ZERO);
      XorGroup(XorSum(t[..m]), t[pos], t[m]);
    } else {
      assert s[..m] == t[..m];
      XorCancel(XorSum(s[..m]), s[m]);
      XorCancel(XorSum(t[..m]), t[m]);
    }
  }

  /** A side's key is the side's sum, up to the mask. */
  lemma KeyIsSum(h: Hash, tree: seq<Block>, clear: bool, right: bool, delta: Block, key: Block)
    requires XorSum(tree) == delta
    requires key == if right then Xor(XorSum(Side(h, tree, clear, false)), delta) else XorSum(Side(h, tree, clear, false))
    ensures Masked(key, clear) == XorSum(Side(h, tree, clear, right))
  {
    hide Xor, Masked;
    var left := XorSum(Side(h, tree, clear, false));
    SideSumMasked(h, tree, clear, false);
    if right {
      SidesSum(h, tree, clear);
      MaskedLinear(left, delta, clear);
      XorGroup(Masked(delta, clear), left, ZERO);
    }
  }

  /** The missing child is the key, minus every known child of its side. */
  lemma Sibling(h: Hash, nodes: seq<Block>, tree: seq<Block>, pos: nat, clear: bool, right: bool, delta: Block, key: Block)
    requires Punctured(nodes, tree, pos) && XorSum(tree) == delta
    requires key == if right then Xor(XorSum(Side(h, tree, clear, false)), delta) else XorSum(Side(h, tree, clear, false))
    ensures Masked(Xor(Xor(XorSum(Side(h, nodes, clear, right)), Left(h, ZERO, clear)), key), clear) == Child(h, tree[pos], clear, right)
  {
    hide Xor, Masked, XorSum;
    var s, t, junk := Side(h, nodes, clear, right), Side(h, tree, clear, right), Left(h, ZERO, clear);
    KeyIsSum(h, tree, clear, right, delta, key);
    XorSumExcept(s, t, pos);
    XorGroup(h(ZERO), ZERO, ZERO);
    assert s[pos] == junk;
    var want, sum := t[pos], XorSum(t);
    MaskedLinear(Xor(sum, want), key, clear);
    MaskedLinear(sum, want, clear);
    SideSumMasked(h, tree, clear, right);
    ChildMasked(h, tree[pos], clear, right);
    XorGroup(sum, want, ZERO);
    XorGroup(want, sum, sum);
    XorGroup(want, ZERO, ZERO);
  }

  lemma ChildMasked(h: Hash, parent: Block, clear: bool, right: bool)
    ensures Masked(Child(h, parent, clear, right), clear) == Child(h, parent, clear, right)
  {
    MaskedTwice(if right then Xor(parent, h(parent)) else h(parent), clear);
  }

  lemma MaskedTwice(a: Block, clear: bool)
    ensures Masked(Masked(a, clear), clear) == Masked(a, clear)
  {
  }

  lemma {:induction false} SideSumMasked(h: Hash, nodes: seq<Block>, clear: bool, right: bool)
    ensures Masked(XorSum(Side(h, nodes, clear, right)), clear) == XorSum(Side(h, nodes, clear, right))
  {
    var s := Side(h, nodes, clear, right);
    if nodes == [] {
      assert Masked(ZERO, clear) == ZERO;
    } else {
      hide Xor, Masked;
      var m := |nodes| - 1;
      SideSumMasked(h, nodes[..m], clear, right);
      assert s[..m] == Side(h, nodes[..m], clear, right);
      MaskedLinear(XorSum(s[..m]), s[m], clear);
      MaskedTwice(if right then Xor(nodes[m], h(nodes[m])) else h(nodes[m]), clear);
    }
  }

  /** The receiver's array after `level` levels. */
  ghost predicate Rebuilt(h: Hash, root: Block, delta: Block, depth: nat, clear: bool, alpha: nat, level: nat, tree: seq<Block>) {
    && 1 <= level <= depth && |tree| == Pow2(depth) && Pow2(level) <= |tree|
    && Punctured(tree[..Pow2(level)], Level(h, root, delta, depth, clear, level), Position(alpha, depth, level))
  }

  /** Puncturing the next level: zeros below the punctured node, then the sibling from the level's key. */
  method PunctureLevel(h: Hash, tree: array<Block>, depth: nat, alpha: nat, clear: bool, level: nat, pos: nat, key: Block,
                       ghost root: Block, ghost delta: Block)
    returns (next: nat)
    requires 2 <= level <= depth && tree.Length == Pow2(depth) && pos == Position(alpha, depth, level - 1)
    modifies tree
    ensures next == Position(alpha, depth, level) && tree.Length == Pow2(depth)
    ensures old(Rebuilt(h, root, delta, depth, clear, alpha, level - 1, tree[..])) && key == KeyFor(h, root, delta, depth, clear, alpha, level)
      ==> Rebuilt(h, root, delta, depth, clear, alpha, level, tree[..])
  {
    hide Level, LeftSum, XorSum, Expand, Pow2, Xor, Masked, KeyFor, Side, Rebuilt;
    LevelUnfolds(h, root, delta, depth, clear, level);
    PositionUnfolds(alpha, depth, level);
    ghost var before := tree[..];
    var half := Pow2(level - 1);
    var bit := PathBit(alpha, depth, level);
    var last := clear && level == depth;
    ghost var nodes := tree[..half];
    var sum := ExpandLevel(h, tree, half, !bit, last);
    ghost var grown: seq<Block> := tree[..2 * half];
    var junk := tree[pos];
    tree[pos], tree[pos + half] := ZERO, ZERO;
    var sibling := Xor(Xor(sum, junk), key);
    if last {
      sibling := ClearLsb(sibling);
    }
    tree[pos + if bit then 0 else half] := sibling;
    next := pos + if bit then half else 0;
    ghost var after: seq<Block> := tree[..2 * half];
    assert after == grown[pos := ZERO][pos + half := ZERO][pos + (if bit then 0 else half) := sibling];
    if Rebuilt(h, root, delta, depth, clear, alpha, level - 1, before) && key == KeyFor(h, root, delta, depth, clear, alpha, level) {
      RebuiltMeans(h, root, delta, depth, clear, alpha, level - 1, before);
      assert nodes == before[..half];
      MaskedMeans(Xor(Xor(sum, junk), key), last);
      NextPunctured(h, root, delta, depth, clear, alpha, level, nodes, after, pos, junk, sibling, key);
      RebuiltFrom(h, root, delta, depth, clear, alpha, level, tree[..], after);
    }
  }

  lemma MaskedMeans(a: Block, clear: bool)
    ensures Masked(a, clear) == if clear then ClearLsb(a) else a
  {
  }

  lemma RebuiltMeans(h: Hash, root: Block, delta: Block, depth: nat, clear: bool, alpha: nat, level: nat, tree: seq<Block>)
    requires Rebuilt(h, root, delta, depth, clear, alpha, level, tree)
    ensures 1 <= level <= depth && Pow2(level) <= |tree|
    ensures Punctured(tree[..Pow2(level)], Level(h, root, delta, depth, clear, level), Position(alpha, depth, level))
  {
  }

  lemma RebuiltFrom(h: Hash, root: Block, delta: Block, depth: nat, clear: bool, alpha: nat, level: nat, tree: seq<Block>, part: seq<Block>)
    requires 1 <= level <= depth && |tree| == Pow2(depth) && Pow2(level) <= |tree| && part == tree[..Pow2(level)]
    requires Punctured(part, Level(h, root, delta, depth, clear, level), Position(alpha, depth, level))
    ensures Rebuilt(h, root, delta, depth, clear, alpha, level, tree)
  {
  }

  lemma PositionUnfolds(alpha: nat, depth: nat, level: nat)
    requires 1 <= level <= depth
    ensures Position(alpha, depth, level) == Position(alpha, depth, level - 1) + if PathBit(alpha, depth, level) then Pow2(level - 1) else 0
  {
  }

  /** The heart of the rebuilding: one level of the receiver's tree is the sender's, punctured. */
  lemma NextPunctured(h: Hash, root: Block, delta: Block, depth: nat, clear: bool, alpha: nat, level: nat,
                      nodes: seq<Block>, after: seq<Block>, pos: nat, junk: Block, sibling: Block, key: Block)
    requires 2 <= level <= depth && pos == Position(alpha, depth, level - 1) && |nodes| == Pow2(level - 1)
    requires Punctured(nodes, Level(h, root, delta, depth, clear, level - 1), pos)
    requires key == KeyFor(h, root, delta, depth, clear, alpha, level)
    requires var bit, last, half := PathBit(alpha, depth, level), clear && level == depth, |nodes|;
      && junk == Expand(h, nodes, last)[pos]
      && sibling == Masked(Xor(Xor(XorSum(Side(h, nodes, last, !bit)), junk), key), last)
      && after == Expand(h, nodes, last)[pos := ZERO][pos + half := ZERO][pos + (if bit then 0 else half) := sibling]
    ensures Punctured(after, Level(h, root, delta, depth, clear, level), Position(alpha, depth, level))
  {
    hide Level, LeftSum, XorSum, Pow2, Xor, Masked, Side;
    var tree, bit, last, half := Level(h, root, delta, depth, clear, level - 1), PathBit(alpha, depth, level), clear && level == depth, |nodes|;
    LevelUnfolds(h, root, delta, depth, clear, level);
    PositionUnfolds(alpha, depth, level);
    LevelSumsToDelta(h, root, delta, depth, clear, level - 1);
    Unmasked(delta);
    assert junk == Left(h, ZERO, last);
    Sibling(h, nodes, tree, pos, last, !bit, delta, key);
    var want := Expand(h, tree, last);
    assert want[pos] == Child(h, tree[pos], last, false) && want[pos + half] == Child(h, tree[pos], last, true);
    forall y | 0 <= y < 2 * half && y != pos && y != pos + half
      ensures after[y] == want[y]
    {
      assert after[y] == Expand(h, nodes, last)[y];
    }
  }

  /** cggm_eval_receiver */
  method EvalReceiver(h: Hash, depth: nat, alpha: nat, keys: seq<Block>, clear: bool, ghost root: Block, ghost delta: Block)
    returns (leaves: seq<Block>)
    requires depth >= 1 && |keys| == depth
    ensures |leaves| == Pow2(depth)
    ensures KeysMatch(h, root, delta, depth, clear, alpha, keys)
      ==> Punctured(leaves, Level(h, root, delta, depth, clear, depth), Position(alpha, depth, depth))
  {
    hide Level, KeyFor, Punctured;
    PowGrows(1, depth);
    var tree := new Block[Pow2(depth)](_ => ZERO);
    var bit := PathBit(alpha, depth, 1);
    tree[if bit then 0 else 1] := keys[0];
    var pos := if bit then 1 else 0;
    FirstPunctured(h, root, delta, depth, clear, alpha, keys[0], tree[..], bit);
    ghost var matched := KeysMatch(h, root, delta, depth, clear, alpha, keys);
    assert matched ==> keys[0] == KeyFor(h, root, delta, depth, clear, alpha, 1);
    for level := 2 to depth + 1
      invariant tree.Length == Pow2(depth) && pos == Position(alpha, depth, level - 1)
      invariant matched ==> Rebuilt(h, root, delta, depth, clear, alpha, level - 1, tree[..])
    {
      pos := PunctureLevel(h, tree, depth, alpha, clear, level, pos, keys[level - 1], root, delta);
    }
    leaves := tree[..];
    assert leaves[..Pow2(depth)] == leaves;
  }

  lemma FirstPunctured(h: Hash, root: Block, delta: Block, depth: nat, clear: bool, alpha: nat, key: Block, tree: seq<Block>, bit: bool)
    requires depth >= 1 && |tree| == Pow2(depth) >= 2 && bit == PathBit(alpha, depth, 1)
    requires tree[if bit then 0 else 1] == key && tree[if bit then 1 else 0] == ZERO
    ensures Position(alpha, depth, 1) == if bit then 1 else 0
    ensures key == KeyFor(h, root, delta, depth, clear, alpha, 1) ==> Rebuilt(h, root, delta, depth, clear, alpha, 1, tree)
  {
    hide Xor;
    assert Pow2(0) == 1;
    PositionUnfolds(alpha, depth, 1);
    XorGroup(root, delta, ZERO);
  }

  // ---- the punctured leaf ----

  /** cggm_bit_reverse */
  function BitReverse(x: nat, depth: nat): (r: nat)
    ensures r < Pow2(depth)
  {
    if depth == 0 then 0 else 2 * BitReverse(x, depth - 1) + if Bit(x, depth - 1) then 1 else 0
  }

  method ReverseBits(x: nat, depth: nat) returns (r: nat)
    ensures r == BitReverse(x, depth)
  {
    r := 0;
    var rest := x;
    for d := 0 to depth
      invariant r == BitReverse(x, d) && forall k: nat :: Bit(rest, k) == Bit(x, d + k)
    {
      assert Bit(rest, 0) == Bit(x, d + 0);
      r := 2 * r + rest % 2;
      assert forall k: nat :: Bit(rest / 2, k) == Bit(rest, k + 1);
      rest := rest / 2;
    }
  }

  lemma {:induction false} ReverseLow(x: nat, depth: nat)
    requires depth > 0
    ensures BitReverse(x, depth) == (if x % 2 == 1 then Pow2(depth - 1) else 0) + BitReverse(x / 2, depth - 1)
  {
    if depth > 1 {
      ReverseLow(x, depth - 1);
    }
  }

  lemma {:induction false} PositionHalf(alpha: nat, depth: nat, level: nat)
    requires level < depth
    ensures Position(alpha, depth, level) == Position(alpha / 2, depth - 1, level)
  {
    if level > 0 {
      PositionHalf(alpha, depth, level - 1);
    }
  }

  /** The punctured leaf is at the bit-reversed path. */
  lemma {:induction false} PositionIsReverse(alpha: nat, depth: nat)
    ensures Position(alpha, depth, depth) == BitReverse(alpha, depth)
  {
    if depth > 0 {
      PositionIsReverse(alpha / 2, depth - 1);
      PositionHalf(alpha, depth, depth - 1);
      ReverseLow(alpha, depth);
    }
  }

  /** Reversing twice gives the path back. */
  lemma {:induction false} ReverseTwice(x: nat, depth: nat)
    requires x < Pow2(depth)
    ensures BitReverse(BitReverse(x, depth), depth) == x
  {
    if depth > 0 {
      ReverseTwice(x / 2, depth - 1);
      ReverseTopBit(x, depth);
    }
  }

  lemma {:induction false} BitAbove(x: nat, k: nat)
    requires x < Pow2(k)
    ensures !Bit(x, k)
  {
    if k > 0 {
      BitAbove(x / 2, k - 1);
    }
  }

  lemma {:induction false} LowBitsReverse(x: nat, y: nat, k: nat)
    requires k > 0 && x < Pow2(k - 1) && (y == x || y == x + Pow2(k - 1))
    ensures BitReverse(y, k - 1) == BitReverse(x, k - 1) && Bit(y, k - 1) == (y != x)
    decreases k
  {
    if y != x {
      LowBits(x, k - 1, k - 1);
    } else {
      BitAbove(x, k - 1);
    }
  }

  lemma {:induction false} LowBits(x: nat, top: nat, k: nat)
    requires x < Pow2(top) && k <= top
    ensures BitReverse(x + Pow2(top), k) == BitReverse(x, k) && (k == top ==> Bit(x + Pow2(top), top))
  {
    if k > 0 {
      LowBits(x, top, k - 1);
      HighBitApart(x, top, k - 1);
    }
    if k == top {
      TopBitSet(x, top);
    }
  }

  lemma {:induction false} HighBitApart(x: nat, top: nat, k: nat)
    requires k < top
    ensures Bit(x + Pow2(top), k) == Bit(x, k)
  {
    if k > 0 {
      assert (x + Pow2(top)) / 2 == x / 2 + Pow2(top - 1);
      HighBitApart(x / 2, top - 1, k - 1);
    }
  }

  lemma {:induction false} TopBitSet(x: nat, top: nat)
    requires x < Pow2(top)
    ensures Bit(x + Pow2(top), top)
  {
    if top > 0 {
      assert (x + Pow2(top)) / 2 == x / 2 + Pow2(top - 1);
      TopBitSet(x / 2, top - 1);
    }
  }

  lemma ReverseTopBit(x: nat, depth: nat)
    requires depth > 0 && x < Pow2(depth)
    requires BitReverse(BitReverse(x / 2, depth - 1), depth - 1) == x / 2
    ensures BitReverse(BitReverse(x, depth), depth) == x
  {
    var low := BitReverse(x / 2, depth - 1);
    ReverseLow(x, depth);
    LowBitsReverse(low, BitReverse(x, depth), depth);
  }

  /** Given the per-level keys of the complemented path, the receiver ends with the sender's leaves,
  all but the one at the reversed path, for every depth and path. */
  lemma RebuiltLeaves(h: Hash, root: Block, delta: Block, depth: nat, clear: bool, index: nat, leaves: seq<Block>)
    requires depth >= 1 && index < Pow2(depth)
    requires Punctured(leaves, Level(h, root, delta, depth, clear, depth), Position(BitReverse(index, depth), depth, depth))
    ensures Punctured(leaves, Level(h, root, delta, depth, clear, depth), index)
  {
    PositionIsReverse(BitReverse(index, depth), depth);
    ReverseTwice(index, depth);
  }
}

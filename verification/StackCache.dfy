/** Walking a range downwards with a stack of prefixes: the values met, and what the walk costs. */
module StackCache {
  import opened Masks
  import opened Shachain
  import opened Prefixes
  import opened RangeCovers

  const TILE_HEIGHT: nat := 4
  const TILE_LEAVES: nat := 16

  function Common(a: seq<nat>, b: seq<nat>): (k: nat)
    ensures k <= |a| && k <= |b| && a[..k] == b[..k] && (k < |a| && k < |b| ==> a[k] != b[k])
  {
    if a == [] || b == [] || a[0] != b[0] then 0
    else
      var k := Common(a[1..], b[1..]);
      assert a[..k + 1] == [a[0]] + a[1..][..k] && b[..k + 1] == [b[0]] + b[1..][..k];
      k + 1
  }

  lemma {:induction false} CommonUnique(a: seq<nat>, b: seq<nat>, k: nat)
    requires k <= |a| && k <= |b| && a[..k] == b[..k] && (k < |a| && k < |b| ==> a[k] != b[k])
    ensures Common(a, b) == k
  {
    if k > 0 {
      assert a[0] == a[..k][0] == b[..k][0] == b[0];
      assert a[1..][..k - 1] == a[..k][1..] && b[1..][..k - 1] == b[..k][1..];
      CommonUnique(a[1..], b[1..], k - 1);
    }
  }

  /** `vals[k]` is the node after the first `k` bits. */
  predicate NodesOn(hash: Value -> Value, trunk: Value, bits: seq<nat>, vals: seq<Value>) {
    Indices(bits) && |vals| == |bits| + 1 && forall k :: 0 <= k <= |bits| ==> vals[k] == Chain(hash, trunk, bits[..k])
  }

  lemma NodesCut(hash: Value -> Value, trunk: Value, bits: seq<nat>, vals: seq<Value>, p: nat)
    requires NodesOn(hash, trunk, bits, vals) && p <= |bits|
    ensures NodesOn(hash, trunk, bits[..p], vals[..p + 1])
  {
    hide Chain;
    forall k | 0 <= k <= p
      ensures vals[..p + 1][k] == Chain(hash, trunk, bits[..p][..k])
    {
      assert bits[..p][..k] == bits[..k];
    }
  }

  lemma NodesPush(hash: Value -> Value, trunk: Value, bits: seq<nat>, vals: seq<Value>, bit: nat)
    requires NodesOn(hash, trunk, bits, vals) && bit < INDEX_BITS
    ensures NodesOn(hash, trunk, bits + [bit], vals + [hash(Flip(vals[|bits|], bit))])
  {
    hide Chain, Flip;
    assert bits[..|bits|] == bits;
    ChainStep(hash, trunk, bits, bit);
    var longer := bits + [bit];
    forall k | 0 <= k <= |longer|
      ensures (vals + [hash(Flip(vals[|bits|], bit))])[k] == Chain(hash, trunk, longer[..k])
    {
      if k <= |bits| {
        assert longer[..k] == bits[..k];
      } else {
        assert longer[..k] == longer;
      }
    }
  }

  // ---- what the stack costs ----

  /** The nonzero prefixes of an index. */
  ghost function PrefixSet(n: nat): (s: set<nat>)
    ensures forall p :: p in s ==> 0 < p <= n
  {
    if n == 0 then {} else PrefixSet(ClearLow(n)) + {n}
  }

  lemma {:induction false} PrefixSetMembers(n: nat, p: nat)
    ensures p in PrefixSet(n) <==> p > 0 && Prefix(p, n)
  {
    if n > 0 {
      PrefixSetMembers(ClearLow(n), p);
      ParentIsPrefix(n);
      if p > 0 && p != n {
        if Prefix(p, n) {
          ProperPrefix(p, n);
        }
        if Prefix(p, ClearLow(n)) {
          PrefixTransitive(p, ClearLow(n), n);
        }
      }
    }
  }

  lemma {:induction false} PrefixSetSize(n: nat)
    ensures |PrefixSet(n)| == PopCount(n) == |SetBits(n)|
  {
    SetBitsCount(n);
    if n > 0 {
      PrefixSetSize(ClearLow(n));
      ClearLowPop(n);
    }
  }

  /** One index's bits start another's exactly for prefixes. */
  lemma BitsStart(a: nat, b: nat)
    ensures SetBits(a) <= SetBits(b) <==> Prefix(a, b)
  {
    hide SetBits, Prefix;
    if Prefix(a, b) {
      PrefixBits(a, b);
    }
    if SetBits(a) <= SetBits(b) {
      var k := |SetBits(a)|;
      assert SetBits(b)[..k] == SetBits(a);
      FirstBits(b, k);
      AllBitsSum(a);
    }
  }

  lemma CommonWhole(a: seq<nat>, b: seq<nat>)
    requires Common(a, b) == |a|
    ensures a <= b
  {
    assert a[..|a|] == a;
  }

  lemma CommonDropLast(a: seq<nat>, x: nat, b: seq<nat>)
    requires !(a + [x] <= b)
    ensures Common(a + [x], b) == Common(a, b)
  {
    var k := Common(a + [x], b);
    if k == |a| + 1 {
      CommonWhole(a + [x], b);
    }
    assert a[..k] == (a + [x])[..k];
    CommonUnique(a, b, k);
  }

  /** The prefixes two indices share are the nodes the stack keeps. */
  lemma {:induction false} SharedPrefixes(a: nat, b: nat)
    ensures |PrefixSet(a) * PrefixSet(b)| == Common(SetBits(a), SetBits(b))
  {
    hide Prefix;
    BitsStart(a, b);
    if Prefix(a, b) {
      forall p | p in PrefixSet(a)
        ensures p in PrefixSet(b)
      {
        PrefixSetMembers(a, p);
        PrefixSetMembers(b, p);
        PrefixTransitive(p, a, b);
      }
      assert PrefixSet(a) * PrefixSet(b) == PrefixSet(a);
      PrefixSetSize(a);
      CommonUnique(SetBits(a), SetBits(b), |SetBits(a)|);
    } else {
      PrefixSetMembers(b, a);
      ZeroPrefix(b);
      assert PrefixSet(a) * PrefixSet(b) == PrefixSet(ClearLow(a)) * PrefixSet(b);
      SharedPrefixes(ClearLow(a), b);
      CommonDropLast(SetBits(ClearLow(a)), Tz(a), SetBits(b));
    }
  }

  lemma ZeroPrefix(b: nat)
    ensures Prefix(0, b)
  {
  }

  /** The nonzero prefixes of everything from `x` up to `top`. */
  ghost function Seen(x: nat, top: nat): set<nat>
    decreases top + 1 - x
  {
    if x > top then {} else Seen(x + 1, top) + PrefixSet(x)
  }

  lemma {:induction false} SeenMembers(x: nat, top: nat, p: nat)
    ensures p in Seen(x, top) <==> p > 0 && exists i :: x <= i <= top && Prefix(p, i)
    decreases top + 1 - x
  {
    hide Prefix;
    if x <= top {
      SeenMembers(x + 1, top, p);
      PrefixSetMembers(x, p);
    }
  }

  /** Going down, the only prefixes seen before are the ones shared with the last index. */
  lemma SeenBefore(x: nat, y: nat, top: nat)
    requires x < y <= top
    ensures PrefixSet(x) * Seen(y, top) == PrefixSet(x) * PrefixSet(y)
  {
    forall p | p in PrefixSet(x)
      ensures p in Seen(y, top) <==> p in PrefixSet(y)
    {
      PrefixSetMembers(x, p);
      PrefixSetMembers(y, p);
      SeenMembers(y, top, p);
      if i :| y <= i <= top && Prefix(p, i) {
        assert Prefix(p, y);
      }
    }
  }

  lemma SeenGrows(x: nat, top: nat)
    requires x < top
    ensures |Seen(x, top)| == |Seen(x + 1, top)| + |SetBits(x)| - Common(SetBits(x + 1), SetBits(x))
  {
    hide Common, SetBits;
    SeenBefore(x, x + 1, top);
    SharedPrefixes(x + 1, x);
    PrefixSetSize(x);
    assert PrefixSet(x) * PrefixSet(x + 1) == PrefixSet(x + 1) * PrefixSet(x);
    var more, before := PrefixSet(x), Seen(x + 1, top);
    assert Seen(x, top) == before + more;
    assert |before + more| == |before| + |more| - |before * more|;
    assert before * more == more * before;
  }

  // ---- the descending walk ----

  function TileBase(index: nat): nat {
    index - index % TILE_LEAVES
  }

  /** The value of an index: the chain of its low bits from the trunk at `base`. */
  function Wanted(hash: Value -> Value, trunk: Value, base: nat, index: nat): Value
    requires base <= index && index - base <= MAX_INDEX
  {
    IndexBits(index - base);
    Chain(hash, trunk, SetBits(index - base))
  }

  lemma WantedIs(hash: Value -> Value, trunk: Value, base: nat, i: nat)
    requires base <= i <= base + MAX_INDEX
    ensures Indices(SetBits(i - base)) && Wanted(hash, trunk, base, i) == Chain(hash, trunk, SetBits(i - base))
  {
    IndexBits(i - base);
  }

  lemma ArmIs(hash: Value -> Value, root: Value, offset: nat, height: nat, s: nat)
    requires offset + height <= INDEX_BITS && s < Pow2(height)
    ensures Indices(Shift(SetBits(s), offset)) && TileArms(hash, root, offset, height)[s] == Chain(hash, root, Shift(SetBits(s), offset))
  {
    hide SetBits, Chain, Pow2;
    WindowBits(s, offset, height);
  }

  lemma SixteenLeaves()
    ensures Pow2(TILE_HEIGHT) == TILE_LEAVES
  {
  }

  /** The bits of a multiple of 16 and of a number below 16. */
  lemma TileBits(x: nat, s: nat)
    requires x % TILE_LEAVES == 0 && s < TILE_LEAVES
    ensures SetBits(x + s) == SetBits(x) + SetBits(s)
  {
    hide SetBits;
    SixteenLeaves();
    var q := x / TILE_LEAVES;
    assert x == q * TILE_LEAVES;
    SetBitsSplit(q, s, TILE_HEIGHT);
    SetBitsSplit(q, 0, TILE_HEIGHT);
    NoSetBits();
    assert SetBits(x) + [] == SetBits(x);
  }

  /** The arms of a full tile are its indices' values. */
  lemma TileWanted(hash: Value -> Value, trunk: Value, base: nat, b: nat, root: Value, s: nat)
    requires base <= b && b + 15 <= base + MAX_INDEX && (b - base) % TILE_LEAVES == 0 && s < TILE_LEAVES
    requires root == Wanted(hash, trunk, base, b)
    ensures Pow2(TILE_HEIGHT) == TILE_LEAVES && TileArms(hash, root, 0, TILE_HEIGHT)[s] == Wanted(hash, trunk, base, b + s)
  {
    hide SetBits, Chain, TileArms, Pow2, Wanted;
    SixteenLeaves();
    ArmIs(hash, root, 0, TILE_HEIGHT, s);
    WantedIs(hash, trunk, base, b);
    WantedIs(hash, trunk, base, b + s);
    TileBits(b - base, s);
    assert Shift(SetBits(s), 0) == SetBits(s);
    ChainAppend(hash, trunk, SetBits(b - base), SetBits(s));
    assert b + s - base == b - base + s;
  }

  lemma AlignedBase(index: nat, d: nat)
    requires d >= TILE_HEIGHT
    ensures Trunk(index, d) % TILE_LEAVES == 0
  {
    var s, p := Shr(index, d), Pow2(d - TILE_HEIGHT);
    PowAdd(TILE_HEIGHT, d - TILE_HEIGHT);
    assert Pow2(TILE_HEIGHT) == 16;
    assert Trunk(index, d) == s * (16 * p);
    assert s * (16 * p) == 16 * (s * p);
  }

  lemma LowInRange(hash: Value -> Value, seed: Value, lo: nat, i: nat, hi: nat, d: nat)
    requires lo <= i <= hi <= MAX_INDEX && Shr(lo, d) == Shr(hi, d)
    ensures Trunk(lo, d) <= lo && Trunk(i, d) == Trunk(lo, d) && Indices(SetBits(i - Trunk(lo, d)))
    ensures Secret(hash, seed, i) == Chain(hash, Secret(hash, seed, Trunk(lo, d)), SetBits(i - Trunk(lo, d)))
  {
    hide Chain, SetBits, Secret, Trunk;
    BetweenTrunk(lo, i, hi, d);
    TrunkBound(lo, d);
    BranchSecret(hash, seed, i, d);
  }

  // ---- counting on the way down ----

  /** The hashes so far are the prefixes seen, and the stack holds the last index's. */
  ghost predicate Counted(bits: seq<nat>, hashes: int, x: nat, top: nat) {
    hashes == |Seen(x, top)| && bits == if x == top + 1 then [] else SetBits(x)
  }

  lemma NothingCounted(top: nat)
    ensures Counted([], 0, top + 1, top)
  {
  }

  lemma FinalCount(bits: seq<nat>, hashes: int, x: nat, top: nat)
    requires Counted(bits, hashes, x, top)
    ensures hashes == |Seen(x, top)|
  {
  }

  lemma CountedStep(x: nat, top: nat, bits: seq<nat>, before: int, after: int)
    requires x <= top && after == before + |SetBits(x)| - Common(bits, SetBits(x))
    ensures Counted(bits, before, x + 1, top) ==> Counted(SetBits(x), after, x, top)
  {
    hide SetBits, Common;
    if Counted(bits, before, x + 1, top) {
      SeenStep(x, top, bits);
    }
  }

  lemma SeenStep(x: nat, top: nat, bits: seq<nat>)
    requires x <= top && bits == if x == top then [] else SetBits(x + 1)
    ensures |Seen(x, top)| == |Seen(x + 1, top)| + |SetBits(x)| - Common(bits, SetBits(x))
  {
    if x == top {
      PrefixSetSize(x);
      assert Seen(x, top) == PrefixSet(x);
      CommonUnique([], SetBits(x), 0);
    } else {
      SeenGrows(x, top);
    }
  }

  // ---- tiles cost as many hashes as single nodes ----

  /** The nodes of a tile below its root: each is a prefix of itself and of nothing at or past the next tile. */
  function TileNodes(x: nat): (s: set<nat>)
    ensures |s| == TILE_LEAVES - 1 && forall p :: p in s <==> x < p < x + TILE_LEAVES
  {
    UpTo(x, TILE_LEAVES - 1)
  }

  function UpTo(x: nat, n: nat): (s: set<nat>)
    ensures |s| == n && forall p :: p in s <==> x < p <= x + n
  {
    if n == 0 then {} else UpTo(x, n - 1) + {x + n}
  }

  /** A number in the block below `q * 2^k` derives nothing past the block. */
  lemma {:induction false} BlockEnd(q: nat, s: nat, k: nat)
    requires 0 < s < Pow2(k)
    ensures q * Pow2(k) + s + LowBit(q * Pow2(k) + s) <= (q + 1) * Pow2(k)
  {
    var n, h := q * Pow2(k) + s, Pow2(k - 1);
    assert q * Pow2(k) == 2 * (q * h) && (q + 1) * Pow2(k) == 2 * ((q + 1) * h);
    if s % 2 == 0 {
      BlockEnd(q, s / 2, k - 1);
      assert n / 2 == q * h + s / 2;
    }
  }

  lemma TileNodeEnds(x: nat, p: nat)
    requires x % TILE_LEAVES == 0 && x < p < x + TILE_LEAVES
    ensures p + LowBit(p) <= x + TILE_LEAVES
  {
    SixteenLeaves();
    BlockEnd(x / TILE_LEAVES, p - x, TILE_HEIGHT);
  }

  lemma TileMembers(x: nat, top: nat, p: nat)
    requires x % TILE_LEAVES == 0 && x + TILE_LEAVES - 1 <= top
    ensures p in Seen(x, top) <==> p in Seen(x + TILE_LEAVES, top) || p in PrefixSet(x) || p in TileNodes(x)
    ensures p in TileNodes(x) ==> p !in Seen(x + TILE_LEAVES, top) && p !in PrefixSet(x)
  {
    SeenMembers(x, top, p);
    SeenMembers(x + TILE_LEAVES, top, p);
    PrefixSetMembers(x, p);
    if x < p < x + TILE_LEAVES {
      TileNodeEnds(x, p);
      assert Prefix(p, p);
    }
    if i :| x <= i <= top && p > 0 && Prefix(p, i) && i < x + TILE_LEAVES && p <= x {
      assert Prefix(p, x);
    }
  }

  /** A tile and its alignment cost what its sixteen indices cost one at a time. */
  lemma TileCost(x: nat, top: nat, bits: seq<nat>)
    requires x % TILE_LEAVES == 0 && x + TILE_LEAVES - 1 <= top
    requires bits == if x + TILE_LEAVES == top + 1 then [] else SetBits(x + TILE_LEAVES)
    ensures |Seen(x, top)| == |Seen(x + TILE_LEAVES, top)| + |SetBits(x)| - Common(bits, SetBits(x)) + TILE_LEAVES - 1
  {
    hide Common, SetBits, Prefix, Seen, PrefixSet;
    var y := x + TILE_LEAVES;
    var before, more, tile := Seen(y, top), PrefixSet(x), TileNodes(x);
    forall p
      ensures p in Seen(x, top) <==> p in before || p in more || p in tile
      ensures p in tile ==> p !in before && p !in more
    {
      if p >= 0 {
        TileMembers(x, top, p);
      }
    }
    assert Seen(x, top) == before + more + tile;
    assert |before + more + tile| == |before + more| + |tile|;
    assert |before + more| == |before| + |more| - |before * more|;
    PrefixSetSize(x);
    if y <= top {
      SeenBefore(x, y, top);
      SharedPrefixes(y, x);
      assert before * more == more * before && more * PrefixSet(y) == PrefixSet(y) * more;
    } else {
      NothingSeen(y, top);
      CommonUnique([], SetBits(x), 0);
    }
  }

  lemma NothingSeen(x: nat, top: nat)
    requires x > top
    ensures Seen(x, top) == {}
  {
  }

  lemma CountedTile(x: nat, top: nat, bits: seq<nat>, before: int, after: int)
    requires x % TILE_LEAVES == 0 && x + TILE_LEAVES - 1 <= top && after == before + |SetBits(x)| - Common(bits, SetBits(x)) + TILE_LEAVES - 1
    ensures Counted(bits, before, x + TILE_LEAVES, top) ==> Counted(SetBits(x), after, x, top)
  {
    hide SetBits, Common;
    if Counted(bits, before, x + TILE_LEAVES, top) {
      TileCost(x, top, bits);
    }
  }

  /** Below an aligned trunk every nonzero number is a prefix that occurs. */
  lemma AllSeen(top: nat)
    ensures |Seen(0, top)| == top
  {
    forall p
      ensures p in Seen(0, top) <==> p in UpTo(0, top)
    {
      if p >= 0 {
        SeenMembers(0, top, p);
        assert Prefix(p, p);
      }
    }
    assert Seen(0, top) == UpTo(0, top);
  }

  /** The full tiles between two indices. */
  function FullTiles(lo: nat, hi: nat): nat {
    if (hi + 1) / TILE_LEAVES > (lo + TILE_LEAVES - 1) / TILE_LEAVES then (hi + 1) / TILE_LEAVES - (lo + TILE_LEAVES - 1) / TILE_LEAVES else 0
  }

  lemma NoTilesYet(hi: nat)
    ensures FullTiles(hi + 1, hi) == 0
  {
  }

  lemma OneTileMore(b: nat, hi: nat)
    requires b % TILE_LEAVES == 0 && b + TILE_LEAVES - 1 <= hi
    ensures FullTiles(b, hi) == FullTiles(b + TILE_LEAVES, hi) + 1
  {
  }

  lemma NoTileHere(i: nat, hi: nat)
    requires i % TILE_LEAVES != 0 || i + TILE_LEAVES - 1 > hi
    ensures FullTiles(i, hi) == FullTiles(i + 1, hi)
  {
  }

  /** The walk stands at the top of every full tile it is about to enter. */
  predicate AtTileTop(next: nat, lo: nat, hi: nat) {
    next > lo && TileBase(next - 1) >= lo && TileBase(next - 1) + TILE_LEAVES - 1 <= hi ==> next % TILE_LEAVES == 0
  }

  lemma StartsAtTop(lo: nat, hi: nat)
    ensures AtTileTop(hi + 1, lo, hi)
  {
  }

  /** A single index is taken only where no full tile starts. */
  lemma SingleTaken(i: nat, lo: nat, hi: nat)
    requires lo <= i <= hi && AtTileTop(i + 1, lo, hi)
    requires !(i % TILE_LEAVES == TILE_LEAVES - 1 && TileBase(i) >= lo && TileBase(i) + TILE_LEAVES - 1 <= hi)
    ensures AtTileTop(i, lo, hi) && FullTiles(i, hi) == FullTiles(i + 1, hi)
  {
    if i % TILE_LEAVES != 0 || i + TILE_LEAVES - 1 > hi {
      NoTileHere(i, hi);
    }
  }

  lemma TileLeft(b: nat, lo: nat, hi: nat)
    requires b % TILE_LEAVES == 0
    ensures AtTileTop(b, lo, hi)
  {
  }
}

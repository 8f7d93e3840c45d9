/** Splitting a range at a shared trunk, and the values of branches and of tiles stacked below it. */
module RangeCovers {
  import opened Masks
  import opened Shachain
  import opened Prefixes

  // ---- trunk and branch ----

  /** index & high_mask, for a split of `d` low bits. */
  function Trunk(index: nat, d: nat): nat {
    Shr(index, d) * Pow2(d)
  }

  lemma {:induction false} ShrStep(n: nat, k: nat)
    ensures Shr(n, k) == 2 * Shr(n, k + 1) + if Bit(n, k) then 1 else 0
  {
    if k > 0 {
      ShrStep(n / 2, k - 1);
    } else {
      assert Shr(n, 1) == n / 2;
    }
  }

  lemma TrunkStep(s: nat, t: nat, p: nat, index: nat, bit: bool)
    requires t == 2 * s + (if bit then 1 else 0) && t * p <= index < t * p + p
    ensures s * (2 * p) <= index < s * (2 * p) + 2 * p
  {
    assert s * (2 * p) == (2 * s) * p;
    if bit {
      assert (2 * s + 1) * p == (2 * s) * p + p;
    }
  }

  lemma {:induction false} TrunkBound(index: nat, d: nat)
    ensures Trunk(index, d) <= index < Trunk(index, d) + Pow2(d)
  {
    if d > 0 {
      hide Shr, Bit;
      TrunkBound(index, d - 1);
      ShrStep(index, d - 1);
      TrunkStep(Shr(index, d), Shr(index, d - 1), Pow2(d - 1), index, Bit(index, d - 1));
    } else {
      NoShr(index);
    }
  }

  lemma NoShr(n: nat)
    ensures Shr(n, 0) == n
  {
  }

  /** index & low_mask */
  function Low(index: nat, d: nat): (low: nat)
    ensures low < Pow2(d) && Trunk(index, d) + low == index
  {
    TrunkBound(index, d);
    index - Trunk(index, d)
  }

  lemma {:induction false} ShrMonotone(a: nat, b: nat, d: nat)
    requires a <= b
    ensures Shr(a, d) <= Shr(b, d)
  {
    if d > 0 {
      ShrMonotone(a / 2, b / 2, d - 1);
    }
  }

  lemma {:induction false} ShrGone(n: nat, k: nat)
    requires n < Pow2(k)
    ensures Shr(n, k) == 0
  {
    if k > 0 {
      ShrGone(n / 2, k - 1);
    }
  }

  /** Indices with the same bits from `d` on have the same trunk. */
  lemma {:induction false} SameTrunk(a: nat, b: nat, d: nat)
    requires a <= MAX_INDEX && b <= MAX_INDEX && d <= INDEX_BITS
    requires forall k :: d <= k < INDEX_BITS ==> Bit(a, k) == Bit(b, k)
    ensures Shr(a, d) == Shr(b, d)
    decreases INDEX_BITS - d
  {
    if d == INDEX_BITS {
      IndexWidth();
      ShrGone(a, d);
      ShrGone(b, d);
    } else {
      SameTrunk(a, b, d + 1);
      ShrStep(a, d);
      ShrStep(b, d);
    }
  }

  /** An index's bits are its trunk's, then its low ones. */
  lemma TrunkBits(index: nat, d: nat)
    ensures SetBits(index) == SetBits(Trunk(index, d)) + SetBits(Low(index, d))
  {
    SetBitsSplit(Shr(index, d), Low(index, d), d);
    SetBitsSplit(Shr(index, d), 0, d);
    assert SetBits(0) == [];
  }

  /** A branch hashed down from the trunk's secret is the index's secret. */
  lemma BranchSecret(hash: Value -> Value, seed: Value, index: nat, d: nat)
    requires index <= MAX_INDEX
    ensures Trunk(index, d) <= MAX_INDEX && Indices(SetBits(Low(index, d)))
    ensures Secret(hash, seed, index) == Chain(hash, Secret(hash, seed, Trunk(index, d)), SetBits(Low(index, d)))
  {
    hide SetBits, Chain, Trunk, Low;
    TrunkBits(index, d);
    IndexBits(index);
    IndexBits(Trunk(index, d));
    IndexBits(Low(index, d));
    ChainAppend(hash, seed, SetBits(Trunk(index, d)), SetBits(Low(index, d)));
  }

  /** range_split_masks, the search for the split: the number of low bits in which the indices differ. */
  method SplitDepth(indices: seq<nat>) returns (d: nat)
    requires indices != [] && forall i :: 0 <= i < |indices| ==> indices[i] <= MAX_INDEX
    ensures d <= INDEX_BITS && forall i :: 0 <= i < |indices| ==> Shr(indices[i], d) == Shr(indices[0], d)
    ensures d > 0 ==> exists i :: 0 <= i < |indices| && Bit(indices[i], d - 1) != Bit(indices[0], d - 1)
  {
    hide Bit, Shr;
    d := INDEX_BITS;
    while d > 0 && forall i | 0 <= i < |indices| :: Bit(indices[i], d - 1) == Bit(indices[0], d - 1)
      invariant d <= INDEX_BITS
      invariant forall i, k :: 0 <= i < |indices| && d <= k < INDEX_BITS ==> Bit(indices[i], k) == Bit(indices[0], k)
    {
      d := d - 1;
    }
    forall i | 0 <= i < |indices|
      ensures Shr(indices[i], d) == Shr(indices[0], d)
    {
      SameTrunk(indices[i], indices[0], d);
    }
  }

  lemma SharedTrunk(a: nat, b: nat, d: nat)
    requires Shr(a, d) == Shr(b, d)
    ensures Trunk(a, d) == Trunk(b, d)
  {
  }

  lemma BetweenTrunk(lo: nat, i: nat, hi: nat, d: nat)
    requires lo <= i <= hi && Shr(lo, d) == Shr(hi, d)
    ensures Trunk(i, d) == Trunk(lo, d)
  {
    ShrMonotone(lo, i, d);
    ShrMonotone(i, hi, d);
  }

  // ---- arithmetic of positions ----

  lemma MulMono(m: nat, a: nat, b: nat)
    requires a <= b
    ensures m * a <= m * b
  {
  }

  lemma BlockIndex(t: nat, i: nat, m: nat)
    requires m > 0 && i * m <= t < i * m + m
    ensures t / m == i && t % m == t - i * m
  {
    var q := t / m;
    assert t == m * q + t % m;
    if q > i {
      MulMono(m, i + 1, q);
    } else if q < i {
      MulMono(m, q + 1, i);
    }
  }

  lemma RootIndex(t: nat, m: nat, n: nat)
    requires m > 0 && t < n * m
    ensures t / m < n && t == (t / m) * m + t % m && t % m < m
  {
    var q := t / m;
    assert t == m * q + t % m;
    if q >= n {
      MulMono(m, n, q);
    }
  }

  /** A nonzero multiple of `h` is at least `h`, and `h` less is a multiple again. */
  lemma OneWindowLess(x: nat, h: nat)
    requires h >= 1 && x % h == 0 && x > 0
    ensures x >= h && (x - h) % h == 0
  {
    var q := x / h;
    assert x == h * q;
    MulMono(h, 1, q);
    assert h * (q - 1) == x - h;
    BlockIndex(x - h, q - 1, h);
  }

  lemma WindowsOnly(depth: nat, h: nat)
    requires 1 <= h <= depth
    ensures (depth - depth % h) % h == 0 && h <= depth - depth % h
  {
    var q := depth / h;
    assert depth == h * q + depth % h;
    BlockIndex(h * q, q, h);
  }

  // ---- tiles ----

  datatype TileLevel = TileLevel(bitOffset: nat, height: nat)

  /** Levels whose windows follow each other from bit `depth` down to bit 0. */
  predicate Stacked(levels: seq<TileLevel>, depth: nat) {
    && levels != [] && levels[0].bitOffset + levels[0].height == depth
    && (forall i :: 0 <= i < |levels| - 1 ==> levels[i + 1].bitOffset + levels[i + 1].height == levels[i].bitOffset)
    && levels[|levels| - 1].bitOffset == 0
  }

  datatype TilePlan = Levels(levels: seq<TileLevel>) | BadHeight | BadDepth

  /** plan_tile_levels: full windows down to bit 0, and one shorter window on top if they do not divide the depth. */
  method PlanTileLevels(depth: nat, height: nat) returns (r: TilePlan)
    ensures height < 1 ==> r == BadHeight
    ensures height >= 1 && depth < height ==> r == BadDepth
    ensures height >= 1 && depth >= height ==>
      && r.Levels? && Stacked(r.levels, depth)
      && (forall i :: 0 < i < |r.levels| ==> r.levels[i].height == height)
      && 1 <= r.levels[0].height <= height
  {
    if height < 1 {
      return BadHeight;
    }
    if depth < height {
      return BadDepth;
    }
    var levels: seq<TileLevel> := [];
    var rest, top := depth, depth % height;
    if top != 0 {
      levels := [TileLevel(depth - top, top)];
      rest := depth - top;
    }
    WindowsOnly(depth, height);
    var offset := rest;
    while offset > 0
      invariant offset % height == 0 && (levels == [] ==> offset == depth)
      invariant levels != [] ==> levels[0].bitOffset + levels[0].height == depth && levels[|levels| - 1].bitOffset == offset
      invariant levels != [] ==> 1 <= levels[0].height <= height
      invariant forall i :: 0 <= i < |levels| - 1 ==> levels[i + 1].bitOffset + levels[i + 1].height == levels[i].bitOffset
      invariant forall i :: 0 < i < |levels| ==> levels[i].height == height
    {
      OneWindowLess(offset, height);
      offset := offset - height;
      levels := levels + [TileLevel(offset, height)];
    }
    return Levels(levels);
  }

  /** The tiles of a whole cover: one on top, and for every full window below it one per root. */
  function TilesFor(depth: nat, height: nat): nat
    requires height > 0
  {
    if depth <= height then 1 else TilesFor(depth - height, height) + Pow2(depth - height)
  }

  lemma OneTile(depth: nat, height: nat)
    requires depth <= height && height > 0
    ensures TilesFor(depth, height) == 1
  {
  }

  lemma OneLevelMore(depth: nat, height: nat)
    requires 0 < height && 0 < depth
    ensures TilesFor(depth + height, height) == TilesFor(depth, height) + Pow2(depth)
  {
  }

  /** The values of a tile's arms: what the tile circuit computes from its root. */
  function TileArms(hash: Value -> Value, root: Value, offset: nat, height: nat): (arms: seq<Value>)
    requires offset + height <= INDEX_BITS
    ensures |arms| == Pow2(height)
  {
    seq(Pow2(height), s requires 0 <= s < Pow2(height) =>
      WindowBits(s, offset, height);
      Chain(hash, root, Shift(SetBits(s), offset)))
  }

  lemma WindowBits(s: nat, offset: nat, height: nat)
    requires s < Pow2(height) && offset + height <= INDEX_BITS
    ensures Indices(Shift(SetBits(s), offset))
  {
    CountdownFindsBits(s, height);
    BitsBelowBound(s, height);
  }

  /** Root `j` of a level whose windows start at bit `offset`: the chain of `j`'s bits from the trunk. */
  ghost predicate RootsAt(hash: Value -> Value, trunk: Value, roots: seq<Value>, offset: nat, depth: nat)
  {
    && offset <= depth <= INDEX_BITS && |roots| == Pow2(depth - offset)
    && forall j :: 0 <= j < |roots| ==> RootAt(hash, trunk, roots, offset, depth, j)
  }

  ghost predicate RootAt(hash: Value -> Value, trunk: Value, roots: seq<Value>, offset: nat, depth: nat, j: nat)
    requires offset <= depth <= INDEX_BITS && j < |roots| == Pow2(depth - offset)
  {
    WindowBits(j, offset, depth - offset);
    roots[j] == Chain(hash, trunk, Shift(SetBits(j), offset))
  }

  /** The arm `s` of root `j` is root `j * 2^height + s` of the next level. */
  lemma ArmIsRoot(hash: Value -> Value, trunk: Value, root: Value, j: nat, s: nat, offset: nat, height: nat)
    requires s < Pow2(height) && Indices(Shift(SetBits(j), offset + height)) && offset + height <= INDEX_BITS
    requires root == Chain(hash, trunk, Shift(SetBits(j), offset + height))
    ensures Indices(Shift(SetBits(j * Pow2(height) + s), offset)) && Indices(Shift(SetBits(s), offset))
    ensures Chain(hash, root, Shift(SetBits(s), offset)) == Chain(hash, trunk, Shift(SetBits(j * Pow2(height) + s), offset))
  {
    hide SetBits, Chain;
    SetBitsSplit(j, s, height);
    ShiftAppend(Shift(SetBits(j), height), SetBits(s), offset);
    assert Shift(Shift(SetBits(j), height), offset) == Shift(SetBits(j), offset + height);
    WindowBits(s, offset, height);
    ChainAppend(hash, trunk, Shift(SetBits(j), offset + height), Shift(SetBits(s), offset));
  }

  lemma {:induction false} PowAdd(a: nat, b: nat)
    ensures Pow2(a + b) == Pow2(a) * Pow2(b)
  {
    if a > 0 {
      PowAdd(a - 1, b);
      var x, y := Pow2(a - 1), Pow2(b);
      assert 2 * (x * y) == (2 * x) * y;
    }
  }

  /** All arms of the first `n` roots. */
  function AllArms(hash: Value -> Value, roots: seq<Value>, offset: nat, height: nat, n: nat): (s: seq<Value>)
    requires offset + height <= INDEX_BITS && n <= |roots|
  {
    if n == 0 then [] else AllArms(hash, roots, offset, height, n - 1) + TileArms(hash, roots[n - 1], offset, height)
  }

  lemma {:induction false} AllArmsAt(hash: Value -> Value, roots: seq<Value>, offset: nat, height: nat, n: nat, j: nat, k: nat)
    requires offset + height <= INDEX_BITS && n <= |roots| && j < n && k < Pow2(height)
    ensures |AllArms(hash, roots, offset, height, n)| == n * Pow2(height) && j * Pow2(height) + k < n * Pow2(height)
    ensures AllArms(hash, roots, offset, height, n)[j * Pow2(height) + k] == TileArms(hash, roots[j], offset, height)[k]
  {
    hide TileArms, Pow2;
    var m := Pow2(height);
    assert n * m == (n - 1) * m + m;
    if n > 1 {
      AllArmsAt(hash, roots, offset, height, n - 1, if j < n - 1 then j else 0, k);
    }
    if j < n - 1 {
      MulMono(m, j + 1, n - 1);
    }
  }

  lemma ArmsAreRoots(hash: Value -> Value, roots: seq<Value>, level: TileLevel, trunk: Value, depth: nat)
    requires level.bitOffset + level.height <= depth <= INDEX_BITS
    requires RootsAt(hash, trunk, roots, level.bitOffset + level.height, depth)
    ensures RootsAt(hash, trunk, AllArms(hash, roots, level.bitOffset, level.height, |roots|), level.bitOffset, depth)
  {
    hide Chain, SetBits, TileArms, Pow2, Shift, AllArms, RootAt;
    var next := AllArms(hash, roots, level.bitOffset, level.height, |roots|);
    PowAdd(depth - level.bitOffset - level.height, level.height);
    PowPositive(level.height);
    AllArmsAt(hash, roots, level.bitOffset, level.height, |roots|, 0, 0);
    forall t | 0 <= t < |next|
      ensures RootAt(hash, trunk, next, level.bitOffset, depth, t)
    {
      ArmIsRootAt(hash, roots, level, trunk, depth, next, t);
    }
  }

  lemma RootMeans(hash: Value -> Value, trunk: Value, roots: seq<Value>, offset: nat, depth: nat, j: nat)
    requires RootsAt(hash, trunk, roots, offset, depth) && j < |roots|
    ensures Indices(Shift(SetBits(j), offset)) && roots[j] == Chain(hash, trunk, Shift(SetBits(j), offset))
  {
    hide Chain, SetBits, Shift, Pow2;
    assert RootAt(hash, trunk, roots, offset, depth, j);
    WindowBits(j, offset, depth - offset);
  }

  lemma RootFrom(hash: Value -> Value, trunk: Value, roots: seq<Value>, offset: nat, depth: nat, j: nat)
    requires offset <= depth <= INDEX_BITS && j < |roots| == Pow2(depth - offset)
    requires Indices(Shift(SetBits(j), offset)) && roots[j] == Chain(hash, trunk, Shift(SetBits(j), offset))
    ensures RootAt(hash, trunk, roots, offset, depth, j)
  {
  }

  lemma ArmIsRootAt(hash: Value -> Value, roots: seq<Value>, level: TileLevel, trunk: Value, depth: nat, next: seq<Value>, t: nat)
    requires level.bitOffset + level.height <= depth <= INDEX_BITS
    requires RootsAt(hash, trunk, roots, level.bitOffset + level.height, depth)
    requires next == AllArms(hash, roots, level.bitOffset, level.height, |roots|)
    requires t < |next| == Pow2(depth - level.bitOffset) == |roots| * Pow2(level.height)
    ensures RootAt(hash, trunk, next, level.bitOffset, depth, t)
  {
    hide Chain, SetBits, TileArms, Pow2, Shift, AllArms, RootsAt, RootAt, Indices;
    var m := Pow2(level.height);
    PowPositive(level.height);
    RootIndex(t, m, |roots|);
    var j, k := t / m, t % m;
    AllArmsAt(hash, roots, level.bitOffset, level.height, |roots|, j, k);
    RootMeans(hash, trunk, roots, level.bitOffset + level.height, depth, j);
    ArmRoot(hash, trunk, roots[j], j, k, level);
    RootFrom(hash, trunk, next, level.bitOffset, depth, t);
  }

  lemma PowPositive(k: nat)
    ensures Pow2(k) > 0
  {
  }

  lemma ArmRoot(hash: Value -> Value, trunk: Value, root: Value, j: nat, s: nat, level: TileLevel)
    requires s < Pow2(level.height) && level.bitOffset + level.height <= INDEX_BITS
    requires Indices(Shift(SetBits(j), level.bitOffset + level.height))
    requires root == Chain(hash, trunk, Shift(SetBits(j), level.bitOffset + level.height))
    ensures Indices(Shift(SetBits(j * Pow2(level.height) + s), level.bitOffset))
    ensures TileArms(hash, root, level.bitOffset, level.height)[s] == Chain(hash, trunk, Shift(SetBits(j * Pow2(level.height) + s), level.bitOffset))
  {
    hide Chain, SetBits, Pow2, Shift;
    ArmIsRoot(hash, trunk, root, j, s, level.bitOffset, level.height);
  }

  lemma OneRoot(hash: Value -> Value, trunk: Value, depth: nat)
    requires depth <= INDEX_BITS
    ensures RootsAt(hash, trunk, [trunk], depth, depth)
  {
    assert Shift(SetBits(0), depth) == [];
    assert RootAt(hash, trunk, [trunk], depth, depth, 0);
  }
}

/** The 128-row bit-matrix transpose: 16x16 byte tiles through four rounds of interleaves, then bits peeled off by sign. */
module Transpose {
  import opened Blocks

  /** A byte as its bits, least significant first. */
  type Byte = s: seq<bool> | |s| == 8 witness NoBits(8)

  const ROW_GROUPS: nat := 8

  predicate Granule(g: nat) {
    g == 1 || g == 2 || g == 4 || g == 8
  }

  predicate Tile<T>(m: seq<seq<T>>) {
    |m| == 16 && forall r :: 0 <= r < 16 ==> |m[r]| == 16
  }

  /** Lane `l` of one half of `a.interleave(b)` with elements of `g` lanes: is it taken from `b`? */
  predicate FromSecond(l: nat, g: nat)
    requires Granule(g)
  {
    (if g == 1 then l else if g == 2 then l / 2 else if g == 4 then l / 4 else l / 8) % 2 == 1
  }

  /** ... and from which lane. */
  function FromLane(r: nat, l: nat, g: nat): (lane: nat)
    requires Granule(g)
    ensures l < 16 ==> lane < 16
  {
    (if g == 1 then l / 2 else if g == 2 then l / 4 * 2 + l % 2 else if g == 4 then l / 8 * 4 + l % 4 else l / 16 * 8 + l % 8)
      + if r % 2 == 1 then 8 else 0
  }

  function Interleaved<T>(a: seq<T>, b: seq<T>, g: nat, high: bool): (r: seq<T>)
    requires |a| == |b| == 16 && Granule(g)
    ensures |r| == 16
  {
    seq(16, l requires 0 <= l < 16 => (if FromSecond(l, g) then b else a)[FromLane(if high then 1 else 0, l, g)])
  }

  /** The first of the two rows that row `r` of a round is interleaved from; the second is `g` rows below. */
  function FirstRow(r: nat, g: nat): (a: nat)
    requires Granule(g) && r < 16
    ensures a + g < 16
  {
    if g == 1 then r / 2 * 2 else if g == 2 then r / 4 * 4 + r % 4 / 2 else if g == 4 then r / 8 * 8 + r % 8 / 2 else r / 2
  }

  /** One round of transpose_16x16_bytes: rows interleaved in pairs, low half then high half. */
  function Round<T>(m: seq<seq<T>>, g: nat): (t: seq<seq<T>>)
    requires Granule(g) && Tile(m)
    ensures Tile(t)
  {
    seq(16, r requires 0 <= r < 16 => Interleaved(m[FirstRow(r, g)], m[FirstRow(r, g) + g], g, r % 2 == 1))
  }

  function FromRow(r: nat, l: nat, g: nat): (row: nat)
    requires Granule(g) && r < 16
    ensures row < 16
  {
    FirstRow(r, g) + if FromSecond(l, g) then g else 0
  }

  lemma RoundAt<T>(m: seq<seq<T>>, g: nat, r: nat, l: nat)
    requires Granule(g) && Tile(m) && r < 16 && l < 16
    ensures Round(m, g)[r][l] == m[FromRow(r, l, g)][FromLane(r, l, g)]
  {
  }

  /** A four-bit number. */
  function Nibble(a: bool, b: bool, c: bool, d: bool): (n: nat)
    ensures n < 16
  {
    (if a then 8 else 0) + (if b then 4 else 0) + (if c then 2 else 0) + if d then 1 else 0
  }

  lemma NibbleOf(n: nat) returns (a: bool, b: bool, c: bool, d: bool)
    requires n < 16
    ensures n == Nibble(a, b, c, d)
  {
    a, b, c, d := n / 8 == 1, n / 4 % 2 == 1, n / 2 % 2 == 1, n % 2 == 1;
  }

  lemma NibbleParts(a: bool, b: bool, c: bool, d: bool)
    ensures var n := Nibble(a, b, c, d);
      && n / 2 == Nibble(false, a, b, c) && n % 2 == Nibble(false, false, false, d)
      && n / 4 == Nibble(false, false, a, b) && n % 4 == Nibble(false, false, c, d)
      && n / 8 == Nibble(false, false, false, a) && n % 8 == Nibble(false, b, c, d)
      && n / 16 == 0
  {
  }

  lemma NibbleWeights(a: bool, b: bool, c: bool, d: bool)
    ensures Nibble(a, b, c, d) == Nibble(a, false, false, false) + Nibble(false, b, c, d)
    ensures Nibble(a, b, c, d) == Nibble(a, b, false, false) + Nibble(false, false, c, d)
    ensures Nibble(a, b, false, false) == 4 * Nibble(false, false, a, b)
    ensures Nibble(a, b, c, false) == 2 * Nibble(false, a, b, c)
    ensures Nibble(a, b, c, d) == Nibble(a, b, c, false) + Nibble(false, false, false, d)
    ensures Nibble(a, false, false, false) == (if a then 8 else 0) && Nibble(false, false, false, d) == if d then 1 else 0
    ensures Nibble(a, b, c, d) == Nibble(a, false, c, d) + (if b then 4 else 0) == Nibble(a, b, false, d) + if c then 2 else 0
  {
  }

  /** Each round moves one bit between the row number and the lane number. */
  lemma Move8(a: bool, b: bool, c: bool, d: bool, e: bool, f: bool, g: bool, h: bool)
    ensures FromRow(Nibble(a, b, c, d), Nibble(e, f, g, h), 8) == Nibble(e, a, b, c)
    ensures FromLane(Nibble(a, b, c, d), Nibble(e, f, g, h), 8) == Nibble(d, f, g, h)
  {
    NibbleParts(a, b, c, d);
    NibbleParts(e, f, g, h);
    NibbleWeights(e, a, b, c);
    NibbleWeights(d, f, g, h);
    hide Nibble;
    NibbleWeights(false, false, false, d);
    NibbleWeights(false, false, false, e);
  }

  lemma Move4(a: bool, b: bool, c: bool, d: bool, e: bool, f: bool, g: bool, h: bool)
    ensures FromRow(Nibble(a, b, c, d), Nibble(e, f, g, h), 4) == Nibble(a, f, b, c)
    ensures FromLane(Nibble(a, b, c, d), Nibble(e, f, g, h), 4) == Nibble(d, e, g, h)
  {
    NibbleParts(a, b, c, d);
    NibbleParts(e, f, g, h);
    NibbleParts(false, b, c, d);
    NibbleParts(false, false, e, f);
  }

  lemma Move2(a: bool, b: bool, c: bool, d: bool, e: bool, f: bool, g: bool, h: bool)
    ensures FromRow(Nibble(a, b, c, d), Nibble(e, f, g, h), 2) == Nibble(a, b, g, c)
    ensures FromLane(Nibble(a, b, c, d), Nibble(e, f, g, h), 2) == Nibble(d, e, f, h)
  {
    NibbleParts(a, b, c, d);
    NibbleParts(e, f, g, h);
    NibbleParts(false, false, c, d);
    NibbleParts(false, e, f, g);
  }

  lemma Move1(a: bool, b: bool, c: bool, d: bool, e: bool, f: bool, g: bool, h: bool)
    ensures FromRow(Nibble(a, b, c, d), Nibble(e, f, g, h), 1) == Nibble(a, b, c, h)
    ensures FromLane(Nibble(a, b, c, d), Nibble(e, f, g, h), 1) == Nibble(d, e, f, g)
  {
    NibbleParts(a, b, c, d);
    NibbleParts(e, f, g, h);
  }

  /** transpose_16x16_bytes */
  function TransposeTile<T>(m: seq<seq<T>>): (t: seq<seq<T>>)
    requires Tile(m)
    ensures Tile(t)
  {
    Round(Round(Round(Round(m, 1), 2), 4), 8)
  }

  /** The four rounds of interleaves are the transpose of the tile. */
  lemma TileTransposed<T>(m: seq<seq<T>>, r: nat, l: nat)
    requires Tile(m) && r < 16 && l < 16
    ensures TransposeTile(m)[r][l] == m[l][r]
  {
    hide Round, FromRow, FromLane, Nibble;
    var m1 := Round(m, 1);
    var m2 := Round(m1, 2);
    var m3 := Round(m2, 4);
    var a, b, c, d := NibbleOf(r);
    var e, f, g, h := NibbleOf(l);
    Move8(a, b, c, d, e, f, g, h);
    RoundAt(m3, 8, r, l);
    Move4(e, a, b, c, d, f, g, h);
    RoundAt(m2, 4, Nibble(e, a, b, c), Nibble(d, f, g, h));
    Move2(e, f, a, b, c, d, g, h);
    RoundAt(m1, 2, Nibble(e, f, a, b), Nibble(c, d, g, h));
    Move1(e, f, g, a, b, c, d, h);
    RoundAt(m, 1, Nibble(e, f, g, a), Nibble(b, c, d, h));
  }

  // ---- peeling off bits ----

  /** col <<= 1 */
  function ShiftedLeft(b: Byte, n: nat): Byte {
    seq(8, i requires 0 <= i < 8 => i >= n && b[i - n])
  }

  /** Bits of one column byte are in place for row group `rg`. */
  predicate ColumnPlaced(out: seq<Block>, col: seq<Byte>, source: nat, rg: nat, bit: nat)
    requires |col| == 16 && rg < ROW_GROUPS && bit < 8 && 8 * source + bit < |out|
  {
    forall l :: 0 <= l < 16 ==> out[8 * source + bit][16 * rg + l] == col[l][bit]
  }

  /** Everything outside the column's bytes is as before. */
  predicate OthersKept(before: seq<Block>, after: seq<Block>, source: nat, rg: nat) {
    && |before| == |after|
    && (forall n :: 0 <= n < |before| && !(8 * source <= n < 8 * source + 8) ==> after[n] == before[n])
    && (forall n, p :: 0 <= n < |before| && 0 <= p < BLOCK_BITS && !(16 * rg <= p < 16 * rg + 16) ==> after[n][p] == before[n][p])
  }

  function WithMask(b: Block, rg: nat, mask: seq<bool>): Block
    requires rg < ROW_GROUPS && |mask| == 16
  {
    seq(BLOCK_BITS, p requires 0 <= p < BLOCK_BITS => if 16 * rg <= p < 16 * rg + 16 then mask[p - 16 * rg] else b[p])
  }

  /** transpose_emit_column: the top bit of every lane, eight times, shifting left in between. */
  method EmitColumn(before: seq<Block>, col: seq<Byte>, source: nat, rg: nat) returns (out: seq<Block>)
    requires |col| == 16 && rg < ROW_GROUPS && 8 * source + 8 <= |before|
    ensures OthersKept(before, out, source, rg) && forall bit :: 0 <= bit < 8 ==> ColumnPlaced(out, col, source, rg, bit)
  {
    out := before;
    var c := col;
    for bit := 8 downto 0
      invariant |c| == 16 && forall l :: 0 <= l < 16 ==> c[l] == ShiftedLeft(col[l], 8 - bit)
      invariant OthersKept(before, out, source, rg) && forall b :: bit <= b < 8 ==> ColumnPlaced(out, col, source, rg, b)
    {
      var mask := seq(16, l requires 0 <= l < 16 => c[l][7]);
      var n := 8 * source + bit;
      ghost var was := out;
      out := out[n := WithMask(out[n], rg, mask)];
      assert ColumnPlaced(out, col, source, rg, bit);
      forall b | bit < b < 8
        ensures ColumnPlaced(out, col, source, rg, b)
      {
        assert ColumnPlaced(was, col, source, rg, b);
      }
      c := seq(16, l requires 0 <= l < 16 => ShiftedLeft(c[l], 1));
    }
  }

  /** The transposed bits of one byte of one row group. */
  predicate BytePlaced(rows: seq<seq<Byte>>, rowBytes: nat, out: seq<Block>, source: nat, rg: nat)
    requires Rows(rows, rowBytes) && |out| == 8 * rowBytes && source < rowBytes && rg < ROW_GROUPS
  {
    forall bit, l :: 0 <= bit < 8 && 0 <= l < 16 ==> BitPlaced(rows, rowBytes, out, source, rg, bit, l)
  }

  predicate BitPlaced(rows: seq<seq<Byte>>, rowBytes: nat, out: seq<Block>, source: nat, rg: nat, bit: nat, l: nat)
    requires Rows(rows, rowBytes) && |out| == 8 * rowBytes && source < rowBytes && rg < ROW_GROUPS && bit < 8 && l < 16
  {
    out[8 * source + bit][16 * rg + l] == rows[16 * rg + l][source][bit]
  }

  predicate Rows(rows: seq<seq<Byte>>, rowBytes: nat) {
    |rows| == BLOCK_BITS && forall p :: 0 <= p < BLOCK_BITS ==> |rows[p]| == rowBytes
  }

  lemma PlacedStays(rows: seq<seq<Byte>>, rowBytes: nat, before: seq<Block>, after: seq<Block>, s: nat, rg: nat, s': nat, rg': nat)
    requires Rows(rows, rowBytes) && |before| == 8 * rowBytes && s < rowBytes && rg < ROW_GROUPS
    requires OthersKept(before, after, s', rg') && (s != s' || rg != rg') && BytePlaced(rows, rowBytes, before, s, rg)
    ensures BytePlaced(rows, rowBytes, after, s, rg)
  {
    forall bit, l | 0 <= bit < 8 && 0 <= l < 16
      ensures BitPlaced(rows, rowBytes, after, s, rg, bit, l)
    {
      assert BitPlaced(rows, rowBytes, before, s, rg, bit, l);
    }
  }

  lemma JustPlaced(rows: seq<seq<Byte>>, rowBytes: nat, out: seq<Block>, col: seq<Byte>, s: nat, rg: nat)
    requires Rows(rows, rowBytes) && |out| == 8 * rowBytes && s < rowBytes && rg < ROW_GROUPS && |col| == 16
    requires forall l :: 0 <= l < 16 ==> col[l] == rows[16 * rg + l][s]
    requires forall bit :: 0 <= bit < 8 ==> ColumnPlaced(out, col, s, rg, bit)
    ensures BytePlaced(rows, rowBytes, out, s, rg)
  {
    forall bit, l | 0 <= bit < 8 && 0 <= l < 16
      ensures BitPlaced(rows, rowBytes, out, s, rg, bit, l)
    {
      assert ColumnPlaced(out, col, s, rg, bit);
      assert out[8 * s + bit][16 * rg + l] == col[l][bit];
    }
  }

  /** All bytes below `s` of row group `rg`, and all of the groups before it. */
  predicate PlacedUpTo(rows: seq<seq<Byte>>, rowBytes: nat, out: seq<Block>, lo: nat, hi: nat, rg: nat, s: nat)
    requires Rows(rows, rowBytes) && |out| == 8 * rowBytes && hi <= rowBytes && rg <= ROW_GROUPS
  {
    forall t, q :: lo <= t < hi && 0 <= q < ROW_GROUPS && (q < rg || (q == rg && t < s)) ==> BytePlaced(rows, rowBytes, out, t, q)
  }

  /** Bytes placed before stay placed, outside sources `lo` up to `hi` of group `rg`. */
  predicate KeptOutside(rows: seq<seq<Byte>>, rowBytes: nat, before: seq<Block>, after: seq<Block>, lo: nat, hi: nat, rg: nat)
    requires Rows(rows, rowBytes) && |before| == |after| == 8 * rowBytes
  {
    forall t, q :: 0 <= t < rowBytes && 0 <= q < ROW_GROUPS && (q != rg || t < lo || t >= hi) ==>
      (BytePlaced(rows, rowBytes, before, t, q) ==> BytePlaced(rows, rowBytes, after, t, q))
  }

  /** One column of one row group. */
  method PlaceColumn(rows: seq<seq<Byte>>, rowBytes: nat, before: seq<Block>, col: seq<Byte>, s: nat, rg: nat) returns (out: seq<Block>)
    requires Rows(rows, rowBytes) && |before| == 8 * rowBytes && s < rowBytes && rg < ROW_GROUPS && |col| == 16
    requires forall l :: 0 <= l < 16 ==> col[l] == rows[16 * rg + l][s]
    ensures |out| == |before| && BytePlaced(rows, rowBytes, out, s, rg)
    ensures KeptOutside(rows, rowBytes, before, out, s, s + 1, rg)
  {
    out := EmitColumn(before, col, s, rg);
    JustPlaced(rows, rowBytes, out, col, s, rg);
    forall t, q | 0 <= t < rowBytes && 0 <= q < ROW_GROUPS && (t != s || q != rg) && BytePlaced(rows, rowBytes, before, t, q)
      ensures BytePlaced(rows, rowBytes, out, t, q)
    {
      PlacedStays(rows, rowBytes, before, out, t, q, s, rg);
    }
  }

  /** One 16x16 tile. */
  method PlaceTile(rows: seq<seq<Byte>>, rowBytes: nat, before: seq<Block>, cg: nat, rg: nat) returns (out: seq<Block>)
    requires Rows(rows, rowBytes) && |before| == 8 * rowBytes && 16 * cg + 16 <= rowBytes && rg < ROW_GROUPS
    ensures |out| == |before| && forall t :: 16 * cg <= t < 16 * cg + 16 ==> BytePlaced(rows, rowBytes, out, t, rg)
    ensures KeptOutside(rows, rowBytes, before, out, 16 * cg, 16 * cg + 16, rg)
  {
    hide BytePlaced, TransposeTile;
    var m := seq(16, r requires 0 <= r < 16 => rows[16 * rg + r][16 * cg..16 * cg + 16]);
    var cols := TransposeTile(m);
    out := before;
    for c := 0 to 16
      invariant |out| == |before| && forall t :: 16 * cg <= t < 16 * cg + c ==> BytePlaced(rows, rowBytes, out, t, rg)
      invariant KeptOutside(rows, rowBytes, before, out, 16 * cg, 16 * cg + c, rg)
    {
      forall l | 0 <= l < 16
        ensures cols[c][l] == rows[16 * rg + l][16 * cg + c]
      {
        TileTransposed(m, c, l);
      }
      out := PlaceColumn(rows, rowBytes, out, cols[c], 16 * cg + c, rg);
    }
  }

  /** transpose_128_rows: bit `p` of output `n` is bit `n` of row `p`, for any row width. */
  method TransposeRows(rows: seq<seq<Byte>>, rowBytes: nat) returns (out: seq<Block>)
    requires Rows(rows, rowBytes)
    ensures |out| == 8 * rowBytes
    ensures forall n, p :: 0 <= n < |out| && 0 <= p < BLOCK_BITS ==> out[n][p] == rows[p][n / 8][n % 8]
  {
    hide BytePlaced;
    out := seq(8 * rowBytes, _ => ZERO);
    var tiles := rowBytes / 16;
    for rg := 0 to ROW_GROUPS
      invariant |out| == 8 * rowBytes && PlacedUpTo(rows, rowBytes, out, 0, 16 * tiles, rg, 0)
    {
      for cg := 0 to tiles
        invariant |out| == 8 * rowBytes && PlacedUpTo(rows, rowBytes, out, 0, 16 * tiles, rg, 16 * cg)
      {
        ghost var before := out;
        out := PlaceTile(rows, rowBytes, out, cg, rg);
        TileAdds(rows, rowBytes, before, out, tiles, cg, rg);
      }
    }
    for s := 16 * tiles to rowBytes
      invariant |out| == 8 * rowBytes && PlacedUpTo(rows, rowBytes, out, 0, s, ROW_GROUPS, 0)
    {
      for rg := 0 to ROW_GROUPS
        invariant |out| == 8 * rowBytes && PlacedUpTo(rows, rowBytes, out, 0, s, ROW_GROUPS, 0)
        invariant PlacedUpTo(rows, rowBytes, out, s, s + 1, rg, 0)
      {
        var lane := seq(16, l requires 0 <= l < 16 => rows[16 * rg + l][s]);
        out := PlaceColumn(rows, rowBytes, out, lane, s, rg);
      }
    }
    AllPlaced(rows, rowBytes, out);
  }

  lemma TileAdds(rows: seq<seq<Byte>>, rowBytes: nat, before: seq<Block>, out: seq<Block>, tiles: nat, cg: nat, rg: nat)
    requires Rows(rows, rowBytes) && |before| == |out| == 8 * rowBytes && 16 * tiles <= rowBytes && cg < tiles && rg < ROW_GROUPS
    requires PlacedUpTo(rows, rowBytes, before, 0, 16 * tiles, rg, 16 * cg)
    requires forall t :: 16 * cg <= t < 16 * cg + 16 ==> BytePlaced(rows, rowBytes, out, t, rg)
    requires KeptOutside(rows, rowBytes, before, out, 16 * cg, 16 * cg + 16, rg)
    ensures PlacedUpTo(rows, rowBytes, out, 0, 16 * tiles, rg, 16 * cg + 16)
  {
    hide BytePlaced;
    forall t, q | 0 <= t < 16 * tiles && 0 <= q < ROW_GROUPS && (q < rg || (q == rg && t < 16 * cg + 16))
      ensures BytePlaced(rows, rowBytes, out, t, q)
    {
      if q == rg && t >= 16 * cg {
        assert BytePlaced(rows, rowBytes, out, t, rg);
      } else {
        assert BytePlaced(rows, rowBytes, before, t, q);
      }
    }
  }

  lemma AllPlaced(rows: seq<seq<Byte>>, rowBytes: nat, out: seq<Block>)
    requires Rows(rows, rowBytes) && |out| == 8 * rowBytes && PlacedUpTo(rows, rowBytes, out, 0, rowBytes, ROW_GROUPS, 0)
    ensures forall n, p :: 0 <= n < |out| && 0 <= p < BLOCK_BITS ==> out[n][p] == rows[p][n / 8][n % 8]
  {
    forall n, p | 0 <= n < |out| && 0 <= p < BLOCK_BITS
      ensures out[n][p] == rows[p][n / 8][n % 8]
    {
      var s, bit, rg, l := n / 8, n % 8, p / 16, p % 16;
      assert BytePlaced(rows, rowBytes, out, s, rg);
      assert BitPlaced(rows, rowBytes, out, s, rg, bit, l);
      assert 8 * s + bit == n && 16 * rg + l == p;
    }
  }
}

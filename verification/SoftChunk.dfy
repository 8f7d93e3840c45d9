/** One chunk of correlated OTs: the planes of both roles, the corrections between them, the transposed outputs. */
module SoftChunk {
  import opened Blocks
  import opened Masks
  import opened Cggm
  import opened Butterfly
  import opened Transpose

  const K: nat := 4
  const TREES: nat := 32
  const LEAVES: nat := 16

  /** The trees of one role: 32 times 16 leaves. */
  type Forest = seq<seq<Block>>

  predicate Whole(t: Forest) {
    |t| == TREES && forall i :: 0 <= i < TREES ==> |t[i]| == LEAVES
  }

  function FourBits(a: bool, b: bool, c: bool, d: bool): (n: nat)
    ensures n < LEAVES
  {
    (if a then 1 else 0) + 2 * ((if b then 1 else 0) + 2 * ((if c then 1 else 0) + 2 * if d then 1 else 0))
  }

  lemma FourBitsBits(a: bool, b: bool, c: bool, d: bool)
    ensures var n := FourBits(a, b, c, d); Bit(n, 0) == a && Bit(n, 1) == b && Bit(n, 2) == c && Bit(n, 3) == d
  {
    var n := FourBits(a, b, c, d);
    var n1 := (if b then 1 else 0) + 2 * ((if c then 1 else 0) + 2 * if d then 1 else 0);
    var n2 := (if c then 1 else 0) + 2 * if d then 1 else 0;
    assert n / 2 == n1 && n1 / 2 == n2;
    assert Bit(n, 1) == Bit(n1, 0) && Bit(n, 2) == Bit(n1, 1) == Bit(n2, 0) && Bit(n, 3) == Bit(n1, 2) == Bit(n2, 1);
  }

  /** The four bits of Δ that index tree `i`. */
  function Alpha(delta: Block, i: nat): (a: nat)
    requires i < TREES
    ensures a < LEAVES
  {
    FourBits(delta[4 * i], delta[4 * i + 1], delta[4 * i + 2], delta[4 * i + 3])
  }

  lemma AlphaBitOf(delta: Block, i: nat, bit: nat)
    requires i < TREES && bit < K
    ensures Bit(Alpha(delta, i), bit) == delta[4 * i + bit]
  {
    hide Bit, FourBits;
    FourBitsBits(delta[4 * i], delta[4 * i + 1], delta[4 * i + 2], delta[4 * i + 3]);
  }

  lemma AlphaBit(delta: Block, p: nat)
    requires p < BLOCK_BITS
    ensures Bit(Alpha(delta, p / 4), p % 4) == delta[p]
  {
    hide Bit, Alpha;
    AlphaBitOf(delta, p / 4, p % 4);
  }

  /** The receiver-side trees agree with the sender-side ones except at the leaf Δ points to. */
  ghost predicate Agree(theirs: Forest, ours: Forest, delta: Block) {
    Whole(theirs) && Whole(ours) && forall i :: 0 <= i < TREES ==> AgreeAt(theirs, ours, delta, i)
  }

  ghost predicate AgreeAt(theirs: Forest, ours: Forest, delta: Block, i: nat)
    requires Whole(theirs) && Whole(ours) && i < TREES
  {
    forall y :: 0 <= y < LEAVES && y != Alpha(delta, i) ==> theirs[i][y] == ours[i][y]
  }

  lemma Sixteen()
    ensures Pow2(K) == LEAVES
  {
  }

  // ---- blocks of the planes, at one counter ----

  function VBlock(f: Expander, session: nat, counter: nat, leaves: seq<Block>, b: nat): Block {
    Plane(Expanded(f, session, counter, leaves), b)
  }

  function UBlock(f: Expander, session: nat, counter: nat, leaves: seq<Block>): Block {
    XorSum(Expanded(f, session, counter, leaves))
  }

  function WBlock(f: Expander, session: nat, counter: nat, leaves: seq<Block>, alpha: nat, b: nat): Block
    requires |leaves| == LEAVES && alpha < LEAVES
  {
    Sixteen();
    Plane(Expanded(f, session, counter, MovedLeaves(leaves, alpha, K)), b)
  }

  predicate Grid(planes: PlaneGrid, rows: nat, bs: nat) {
    |planes| == rows && forall p :: 0 <= p < rows ==> |planes[p]| == bs
  }

  // ---- the OT sender (Alice) ----

  /** send_chunk_prepare */
  method SendPrepare(f: Expander, leaves: Forest, delta: Block, base: nat, bs: nat, session: nat) returns (planes: PlaneGrid)
    requires Whole(leaves)
    ensures Grid(planes, BLOCK_BITS, bs)
    ensures forall p, j :: 0 <= p < BLOCK_BITS && 0 <= j < bs ==>
      planes[p][j] == WBlock(f, session, base + j, leaves[p / 4], Alpha(delta, p / 4), p % 4)
  {
    hide Plane, Alpha;
    Sixteen();
    planes := [];
    for i := 0 to TREES
      invariant Grid(planes, 4 * i, bs)
      invariant forall p, j :: 0 <= p < 4 * i && 0 <= j < bs ==>
        planes[p][j] == WBlock(f, session, base + j, leaves[p / 4], Alpha(delta, p / 4), p % 4)
    {
      var w := ReceiverButterfly(f, K, Alpha(delta, i), leaves[i], base, bs, session);
      forall p, j | 4 * i <= p < 4 * i + 4 && 0 <= j < bs
        ensures (planes + w)[p][j] == WBlock(f, session, base + j, leaves[p / 4], Alpha(delta, p / 4), p % 4)
      {
        assert p / 4 == i && p % 4 == p - 4 * i;
      }
      planes := planes + w;
    }
  }

  /** The corrected plane: the correction of its tree where Δ has a bit, and nothing in plane 0. */
  function CorrectedBlock(plane: Block, correction: Block, delta: Block, p: nat): Block
    requires p < BLOCK_BITS
  {
    if p == 0 then ZERO else if p >= 4 && delta[p] then Xor(plane, correction) else plane
  }

  /** The loops of send_chunk_finish; correction row `i - 1` belongs to tree `i`. */
  method Correct(planes: PlaneGrid, d: PlaneGrid, delta: Block, bs: nat) returns (fixed: PlaneGrid)
    requires Grid(planes, BLOCK_BITS, bs) && Grid(d, TREES - 1, bs)
    ensures Grid(fixed, BLOCK_BITS, bs)
    ensures forall p, j :: 0 <= p < BLOCK_BITS && 0 <= j < bs ==>
      fixed[p][j] == CorrectedBlock(planes[p][j], if p >= 4 then d[p / 4 - 1][j] else ZERO, delta, p)
  {
    hide Xor;
    fixed := planes;
    for i := 1 to TREES
      invariant Grid(fixed, BLOCK_BITS, bs) && (forall p :: 4 * i <= p < BLOCK_BITS ==> fixed[p] == planes[p])
      invariant fixed[0] == planes[0]
      invariant forall p, j :: 1 <= p < 4 * i && 0 <= j < bs ==>
        fixed[p][j] == CorrectedBlock(planes[p][j], if p >= 4 then d[p / 4 - 1][j] else ZERO, delta, p)
    {
      for bit := 0 to K
        invariant Grid(fixed, BLOCK_BITS, bs) && (forall p :: 4 * i + bit <= p < BLOCK_BITS ==> fixed[p] == planes[p])
        invariant fixed[0] == planes[0]
        invariant forall p, j :: 1 <= p < 4 * i + bit && 0 <= j < bs ==>
          fixed[p][j] == CorrectedBlock(planes[p][j], if p >= 4 then d[p / 4 - 1][j] else ZERO, delta, p)
      {
        var p := 4 * i + bit;
        AlphaBit(delta, p);
        assert p / 4 == i && p % 4 == bit;
        if Bit(Alpha(delta, i), bit) {
          fixed := fixed[p := seq(bs, j requires 0 <= j < bs => Xor(fixed[p][j], d[i - 1][j]))];
        }
      }
    }
    fixed := fixed[0 := seq(bs, _ => ZERO)];
  }

  // ---- the OT receiver (Bob) ----

  /** The first half of recv_chunk_prepare: planes, corrections and the canonical u. */
  method RecvPlanes(f: Expander, leaves: Forest, base: nat, bs: nat, session: nat) returns (planes: PlaneGrid, d: PlaneGrid, u: seq<Block>)
    requires Whole(leaves)
    ensures Grid(planes, BLOCK_BITS, bs) && Grid(d, TREES - 1, bs) && |u| == bs
    ensures forall j :: 0 <= j < bs ==> u[j] == UBlock(f, session, base + j, leaves[0])
    ensures forall i, j :: 0 <= i < TREES - 1 && 0 <= j < bs ==> d[i][j] == Xor(u[j], UBlock(f, session, base + j, leaves[i + 1]))
    ensures forall p, j :: 0 <= p < BLOCK_BITS && 0 <= j < bs ==>
      planes[p][j] == if p == 0 then u[j] else VBlock(f, session, base + j, leaves[p / 4], p % 4)
  {
    hide Plane, XorSum, Xor;
    Sixteen();
    u, planes := SenderButterfly(f, K, leaves[0], base, bs, session);
    d := [];
    for i := 1 to TREES
      invariant Grid(planes, 4 * i, bs) && Grid(d, i - 1, bs)
      invariant forall t, j :: 0 <= t < i - 1 && 0 <= j < bs ==> d[t][j] == Xor(u[j], UBlock(f, session, base + j, leaves[t + 1]))
      invariant forall p, j :: 0 <= p < 4 * i && 0 <= j < bs ==> planes[p][j] == VBlock(f, session, base + j, leaves[p / 4], p % 4)
    {
      var temp, v := SenderButterfly(f, K, leaves[i], base, bs, session);
      d := d + [seq(bs, j requires 0 <= j < bs => Xor(u[j], temp[j]))];
      forall p, j | 4 * i <= p < 4 * i + 4 && 0 <= j < bs
        ensures (planes + v)[p][j] == VBlock(f, session, base + j, leaves[p / 4], p % 4)
      {
        assert p / 4 == i && p % 4 == p - 4 * i;
      }
      planes := planes + v;
    }
    planes := planes[0 := u];
  }

  // ---- the transpose of the planes ----

  /** Byte `t` of a row of blocks. */
  function RowByte(row: seq<Block>, t: nat): Byte
    requires t < 16 * |row|
  {
    var lo := 8 * (t % 16);
    seq(8, i requires 0 <= i < 8 => row[t / 16][lo + i])
  }

  function RowBytes(row: seq<Block>): (r: seq<Byte>)
    ensures |r| == 16 * |row| && forall t :: 0 <= t < |r| ==> r[t] == RowByte(row, t)
  {
    seq(16 * |row|, t requires 0 <= t < 16 * |row| => RowByte(row, t))
  }

  /** transpose_softspoken_planes */
  method TransposePlanes(planes: PlaneGrid, bs: nat) returns (out: seq<Block>)
    requires Grid(planes, BLOCK_BITS, bs)
    ensures |out| == BLOCK_BITS * bs
    ensures forall n, p :: 0 <= n < |out| && 0 <= p < BLOCK_BITS ==> out[n][p] == planes[p][n / BLOCK_BITS][n % BLOCK_BITS]
  {
    var rows := seq(BLOCK_BITS, p requires 0 <= p < BLOCK_BITS => RowBytes(planes[p]));
    out := TransposeRows(rows, 16 * bs);
    forall n, p | 0 <= n < |out| && 0 <= p < BLOCK_BITS
      ensures out[n][p] == planes[p][n / BLOCK_BITS][n % BLOCK_BITS]
    {
      assert rows[p][n / 8] == RowByte(planes[p], n / 8);
      assert n / 8 / 16 == n / BLOCK_BITS && 8 * (n / 8 % 16) + n % 8 == n % BLOCK_BITS;
    }
  }

  // ---- the correlation ----

  /** What every pair of outputs satisfies. */
  predicate Correlated(send: Block, recv: Block, delta: Block) {
    recv == Xor(send, Select(recv[0], delta)) && !send[0]
  }

  ghost predicate AllCorrelated(send: seq<Block>, recv: seq<Block>, delta: Block) {
    |send| == |recv| && forall n :: 0 <= n < |send| ==> Correlated(send[n], recv[n], delta)
  }

  /** The two roles' planes at one position. */
  predicate PlanesMatch(q: Block, r: Block, u: Block, delta: Block, p: nat)
    requires p < BLOCK_BITS
  {
    if p == 0 then q == ZERO && r == u else q == Xor(r, Select(delta[p], u))
  }

  /** After the corrections every plane of the sender is the receiver's, moved by u where Δ has a bit. */
  lemma CorrectedPlane(f: Expander, session: nat, counter: nat, theirs: Forest, ours: Forest, delta: Block, p: nat)
    requires Agree(theirs, ours, delta) && 0 < p < BLOCK_BITS
    ensures var u, i := UBlock(f, session, counter, ours[0]), p / 4;
      var w := WBlock(f, session, counter, theirs[i], Alpha(delta, i), p % 4);
      CorrectedBlock(w, Xor(u, UBlock(f, session, counter, ours[i])), delta, p) ==
        Xor(VBlock(f, session, counter, ours[i], p % 4), Select(delta[p], u))
  {
    hide Plane, XorSum, Xor, Alpha;
    var i := p / 4;
    Sixteen();
    assert AgreeAt(theirs, ours, delta, i);
    ButterflyCorrelation(f, K, ours[i], theirs[i], Alpha(delta, i), session, counter, p % 4);
    AlphaBit(delta, p);
    var u, ui, v := UBlock(f, session, counter, ours[0]), UBlock(f, session, counter, ours[i]), VBlock(f, session, counter, ours[i], p % 4);
    XorGroup(v, ui, Xor(u, ui));
    XorGroup(ui, u, ui);
    XorCancel(u, ui);
    XorGroup(u, ui, ZERO);
  }

  // ---- one OT of a session, as a function of the trees ----

  function SenderPlane(f: Expander, theirs: Forest, ours: Forest, delta: Block, session: nat, counter: nat, p: nat): Block
    requires Whole(theirs) && Whole(ours) && p < BLOCK_BITS
  {
    CorrectedBlock(WBlock(f, session, counter, theirs[p / 4], Alpha(delta, p / 4), p % 4),
                   if p >= 4 then Xor(UBlock(f, session, counter, ours[0]), UBlock(f, session, counter, ours[p / 4])) else ZERO, delta, p)
  }

  function ReceiverPlane(f: Expander, ours: Forest, session: nat, counter: nat, p: nat): Block
    requires Whole(ours) && p < BLOCK_BITS
  {
    if p == 0 then UBlock(f, session, counter, ours[0]) else VBlock(f, session, counter, ours[p / 4], p % 4)
  }

  /** The sender's block of OT `t` at a counter of a session. */
  function SendItem(f: Expander, theirs: Forest, ours: Forest, delta: Block, session: nat, counter: nat, t: nat): Block
    requires Whole(theirs) && Whole(ours) && t < BLOCK_BITS
  {
    seq(BLOCK_BITS, p requires 0 <= p < BLOCK_BITS => SenderPlane(f, theirs, ours, delta, session, counter, p)[t])
  }

  /** ... and the receiver's. */
  function RecvItem(f: Expander, ours: Forest, session: nat, counter: nat, t: nat): Block
    requires Whole(ours) && t < BLOCK_BITS
  {
    seq(BLOCK_BITS, p requires 0 <= p < BLOCK_BITS => ReceiverPlane(f, ours, session, counter, p)[t])
  }

  lemma PlanesAt(f: Expander, theirs: Forest, ours: Forest, delta: Block, session: nat, counter: nat, p: nat)
    requires Agree(theirs, ours, delta) && p < BLOCK_BITS
    ensures PlanesMatch(SenderPlane(f, theirs, ours, delta, session, counter, p), ReceiverPlane(f, ours, session, counter, p),
                        UBlock(f, session, counter, ours[0]), delta, p)
  {
    hide Plane, XorSum, Alpha, Xor, WBlock, UBlock, VBlock, Agree;
    assert Whole(theirs) && Whole(ours) by {
      AgreeWhole(theirs, ours, delta);
    }
    if p > 0 {
      CorrectedPlane(f, session, counter, theirs, ours, delta, p);
    }
  }

  lemma AgreeWhole(theirs: Forest, ours: Forest, delta: Block)
    requires Agree(theirs, ours, delta)
    ensures Whole(theirs) && Whole(ours)
  {
  }

  /** An OT of agreeing trees is correlated exactly when Δ is odd or the receiver's choice bit, a bit of u, is clear:
  plane 0 of the sender is zeroed, so an even Δ cannot account for a set choice bit. */
  lemma ItemsCorrelated(f: Expander, theirs: Forest, ours: Forest, delta: Block, session: nat, counter: nat, t: nat)
    requires Agree(theirs, ours, delta) && t < BLOCK_BITS
    ensures RecvItem(f, ours, session, counter, t)[0] == UBlock(f, session, counter, ours[0])[t]
    ensures Correlated(SendItem(f, theirs, ours, delta, session, counter, t), RecvItem(f, ours, session, counter, t), delta)
      <==> delta[0] || !UBlock(f, session, counter, ours[0])[t]
  {
    hide SenderPlane, ReceiverPlane, UBlock, Agree;
    AgreeWhole(theirs, ours, delta);
    var send, recv := SendItem(f, theirs, ours, delta, session, counter, t), RecvItem(f, ours, session, counter, t);
    var want := Xor(send, Select(recv[0], delta));
    PlanesAt(f, theirs, ours, delta, session, counter, 0);
    if delta[0] || !recv[0] {
      forall p | 0 <= p < BLOCK_BITS
        ensures recv[p] == want[p]
      {
        PlanesAt(f, theirs, ours, delta, session, counter, p);
      }
    } else {
      assert recv[0] != want[0];
    }
  }

  /** A chunk on both sides: its outputs are consecutive OTs of the session, and all of them are correlated exactly
  when Δ is odd or no choice bit is set. */
  method ExchangeChunk(f: Expander, theirs: Forest, ours: Forest, delta: Block, base: nat, bs: nat, session: nat)
    returns (send: seq<Block>, recv: seq<Block>, u: seq<Block>)
    requires Agree(theirs, ours, delta)
    ensures |send| == |recv| == BLOCK_BITS * bs && |u| == bs
    ensures forall j :: 0 <= j < bs ==> u[j] == UBlock(f, session, base + j, ours[0])
    ensures forall n :: 0 <= n < |send| ==>
      && send[n] == SendItem(f, theirs, ours, delta, session, base + n / BLOCK_BITS, n % BLOCK_BITS)
      && recv[n] == RecvItem(f, ours, session, base + n / BLOCK_BITS, n % BLOCK_BITS)
    ensures forall n :: 0 <= n < |recv| ==> recv[n][0] == u[n / BLOCK_BITS][n % BLOCK_BITS]
    ensures AllCorrelated(send, recv, delta) <==> delta[0] || forall j, t :: 0 <= j < bs && 0 <= t < BLOCK_BITS ==> !u[j][t]
  {
    hide Plane, XorSum, Alpha, Xor, Correlated, WBlock, UBlock, VBlock, CorrectedBlock, Agree;
    AgreeWhole(theirs, ours, delta);
    var w := SendPrepare(f, theirs, delta, base, bs, session);
    var r, d;
    r, d, u := RecvPlanes(f, ours, base, bs, session);
    recv := TransposePlanes(r, bs);
    var q := Correct(w, d, delta, bs);
    send := TransposePlanes(q, bs);
    forall n | 0 <= n < |send|
      ensures send[n] == SendItem(f, theirs, ours, delta, session, base + n / BLOCK_BITS, n % BLOCK_BITS)
      ensures recv[n] == RecvItem(f, ours, session, base + n / BLOCK_BITS, n % BLOCK_BITS)
    {
      var j, t := n / BLOCK_BITS, n % BLOCK_BITS;
      forall p | 0 <= p < BLOCK_BITS
        ensures send[n][p] == SenderPlane(f, theirs, ours, delta, session, base + j, p)[t]
        ensures recv[n][p] == ReceiverPlane(f, ours, session, base + j, p)[t]
      {
        assert send[n][p] == q[p][j][t] && recv[n][p] == r[p][j][t];
        assert u[j] == UBlock(f, session, base + j, ours[0]) && r[p][j] == ReceiverPlane(f, ours, session, base + j, p);
        assert q[p][j] == CorrectedBlock(w[p][j], if p >= 4 then d[p / 4 - 1][j] else ZERO, delta, p);
        if p >= 4 {
          var i := p / 4 - 1;
          assert d[i][j] == Xor(u[j], UBlock(f, session, base + j, ours[i + 1]));
        }
        assert q[p][j] == SenderPlane(f, theirs, ours, delta, session, base + j, p);
      }
    }
    ItemsAllCorrelated(f, theirs, ours, delta, base, bs, session, send, recv, u);
  }

  lemma ItemsAllCorrelated(f: Expander, theirs: Forest, ours: Forest, delta: Block, base: nat, bs: nat, session: nat,
                           send: seq<Block>, recv: seq<Block>, u: seq<Block>)
    requires Agree(theirs, ours, delta) && |send| == |recv| == BLOCK_BITS * bs && |u| == bs
    requires forall j :: 0 <= j < bs ==> u[j] == UBlock(f, session, base + j, ours[0])
    requires forall n :: 0 <= n < |send| ==>
      && send[n] == SendItem(f, theirs, ours, delta, session, base + n / BLOCK_BITS, n % BLOCK_BITS)
      && recv[n] == RecvItem(f, ours, session, base + n / BLOCK_BITS, n % BLOCK_BITS)
    ensures forall n :: 0 <= n < |recv| ==> recv[n][0] == u[n / BLOCK_BITS][n % BLOCK_BITS]
    ensures AllCorrelated(send, recv, delta) <==> delta[0] || forall j, t :: 0 <= j < bs && 0 <= t < BLOCK_BITS ==> !u[j][t]
  {
    hide UBlock, Correlated, SendItem, RecvItem, Agree;
    AgreeWhole(theirs, ours, delta);
    forall n | 0 <= n < |send|
      ensures recv[n][0] == u[n / BLOCK_BITS][n % BLOCK_BITS]
      ensures Correlated(send[n], recv[n], delta) <==> delta[0] || !u[n / BLOCK_BITS][n % BLOCK_BITS]
    {
      ItemsCorrelated(f, theirs, ours, delta, session, base + n / BLOCK_BITS, n % BLOCK_BITS);
    }
    if AllCorrelated(send, recv, delta) && !delta[0] {
      forall j, t | 0 <= j < bs && 0 <= t < BLOCK_BITS
        ensures !u[j][t]
      {
        var n := BLOCK_BITS * j + t;
        assert n / BLOCK_BITS == j && n % BLOCK_BITS == t;
        assert Correlated(send[n], recv[n], delta);
      }
    }
  }

  /** Trees that agree for an even Δ and yet give an uncorrelated OT: an expander that hands the leaf through, and one
  leaf with its lowest bit set. */
  method EvenDeltaFails() returns (send: seq<Block>, recv: seq<Block>)
    ensures Lsb(BIT0) && !Lsb(ZERO) && !AllCorrelated(send, recv, ZERO)
  {
    hide AllCorrelated, SendItem, RecvItem;
    var trees := EvenTrees();
    EvenTreesSum();
    var u;
    send, recv, u := ExchangeChunk((session, counter, leaf) => leaf, trees, trees, ZERO, 0, 1, 0);
    assert u[0][0];
  }

  function EvenTrees(): (t: Forest)
    ensures Agree(t, t, ZERO)
  {
    [[BIT0] + Zeros(LEAVES - 1)] + seq(TREES - 1, _ => Zeros(LEAVES))
  }

  function Zeros(n: nat): (s: seq<Block>)
    ensures |s| == n && forall i :: 0 <= i < n ==> s[i] == ZERO
  {
    seq(n, _ => ZERO)
  }

  lemma {:induction false} SumThenZeros(x: Block, n: nat)
    ensures XorSum([x] + Zeros(n)) == x
  {
    XorGroup(x, ZERO, ZERO);
    if n > 0 {
      SumThenZeros(x, n - 1);
      assert ([x] + Zeros(n))[..n] == [x] + Zeros(n - 1);
    } else {
      assert ([x] + Zeros(0))[..0] == [];
    }
  }

  lemma EvenTreesSum()
    ensures UBlock((session, counter, leaf) => leaf, 0, 0, EvenTrees()[0]) == BIT0
  {
    SumThenZeros(BIT0, LEAVES - 1);
    var leaves := EvenTrees()[0];
    assert Expanded((session, counter, leaf) => leaf, 0, 0, leaves) == leaves;
  }
}

/** The triple generator: leaky AND, layers of bucketing and the final opening.

It runs in place on each party's MAC and key arrays. */
module TriplePool {
  import opened Blocks
  import opened Auth
  import opened Mitccrh
  import opened Triples

  datatype Result<T> = Success(value: T) | FeqMismatch

  /** Ag2pcLayerSlices: the MACs and keys of one run of shares, three arms of `l` each:
  x at `k`, y at `l + k`, z at `2 * l + k`. */
  datatype Shares = Shares(l: nat, mac: seq<Block>, key: seq<Block>) {
    predicate Sized() {
      |mac| == |key| == 3 * l
    }

    function X(k: nat): Bundle
      requires Sized() && k < l
    {
      Bundle(mac[k], key[k])
    }

    function Y(k: nat): Bundle
      requires Sized() && k < l
    {
      Bundle(mac[l + k], key[l + k])
    }

    function Z(k: nat): Bundle
      requires Sized() && k < l
    {
      Bundle(mac[2 * l + k], key[2 * l + k])
    }

    lemma ItemMeans(k: nat)
      requires Sized() && k < l
      ensures X(k) == Bundle(mac[k], key[k]) && Y(k) == Bundle(mac[l + k], key[l + k])
      ensures Z(k) == Bundle(mac[2 * l + k], key[2 * l + k])
    {
    }

    /** The shares with z item `k` replaced. */
    function SetZ(k: nat, z: Bundle): (s: Shares)
      requires Sized() && k < l
      ensures s.Sized() && s.l == l && s.Z(k) == z
      ensures forall j :: 0 <= j < l && j != k ==> s.Z(j) == Z(j)
      ensures forall j :: 0 <= j < l ==> s.X(j) == X(j) && s.Y(j) == Y(j)
    {
      Shares(l, mac[2 * l + k := z.mac], key[2 * l + k := z.key])
    }

    /** The shares with items `k` of x and z replaced. */
    function SetXZ(k: nat, x: Bundle, z: Bundle): (s: Shares)
      requires Sized() && k < l
      ensures s.Sized() && s.l == l && s.X(k) == x && s.Z(k) == z
      ensures forall j :: 0 <= j < l && j != k ==> s.X(j) == X(j) && s.Z(j) == Z(j)
      ensures forall j :: 0 <= j < l ==> s.Y(j) == Y(j)
    {
      Shares(l, mac[k := x.mac][2 * l + k := z.mac], key[k := x.key][2 * l + k := z.key])
    }
  }

  function FromArms(x: seq<Bundle>, y: seq<Bundle>, z: seq<Bundle>): (s: Shares)
    requires |x| == |y| == |z|
    ensures s.l == |x| && s.Sized()
    ensures forall k :: 0 <= k < s.l ==> s.X(k) == x[k]
    ensures forall k :: 0 <= k < s.l ==> s.Y(k) == y[k]
    ensures forall k :: 0 <= k < s.l ==> s.Z(k) == z[k]
  {
    var all := x + y + z;
    Shares(|x|, seq(|all|, i requires 0 <= i < |all| => all[i].mac), seq(|all|, i requires 0 <= i < |all| => all[i].key))
  }

  /** Ag2pcShareSlicesMut: a run of shares that is edited in place. */
  class ShareArray {
    var at: Shares

    constructor (at: Shares)
      ensures this.at == at
    {
      this.at := at;
    }
  }

  /** Calls of the batched hash over `l` items in batches of eight. */
  function Batches(l: nat): nat { (l + 7) / 8 }

  /** One call of the batched hash on up to eight pairs, padded with zero blocks. */
  method HashPairs(mitc: Mitccrh8, left: seq<Block>, right: seq<Block>) returns (hl: seq<Block>, hr: seq<Block>)
    requires |left| == |right| <= 8 && mitc.Valid() && mitc.drawn % 8 == 0
    modifies mitc
    ensures mitc.Valid() && mitc.drawn == old(mitc.drawn) + 8
    ensures |hl| == |hr| == |left|
    ensures forall j :: 0 <= j < |left| ==> hl[j] == mitc.cipher(old(mitc.drawn) / 8, left[j])
    ensures forall j :: 0 <= j < |left| ==> hr[j] == mitc.cipher(old(mitc.drawn) / 8, right[j])
  {
    var pad: seq<Block> := seq(16, _ => ZERO);
    for j := 0 to |left|
      invariant |pad| == 16
      invariant forall m :: 0 <= m < j ==> pad[2 * m] == left[m] && pad[2 * m + 1] == right[m]
    {
      pad := pad[2 * j := left[j]][2 * j + 1 := right[j]];
    }
    pad := mitc.Hash(pad, 8, 2, false);
    hl := seq(|left|, j requires 0 <= j < |left| => pad[2 * j]);
    hr := seq(|left|, j requires 0 <= j < |left| => pad[2 * j + 1]);
  }

  /** The bucket that hashes item `k` of a run of batches starting at key slot `start`. */
  function BucketOf(start: nat, k: nat): nat { start / 8 + k / 8 }

  lemma SameBucket(start: nat, i: nat, k: nat)
    requires start % 8 == 0 && 8 * i <= k < 8 * i + 8
    ensures (start + 8 * i) / 8 == BucketOf(start, k)
  {
  }

  /** `g` holds every item's leaky_and_prepare_g block, hashed from key slot `start` on. */
  ghost predicate GBlocks(cipher: (nat, Block) -> Block, start: nat, s: Shares, delta: Block, g: seq<Block>) {
    s.Sized() && |g| == s.l && forall k :: 0 <= k < s.l ==> g[k] == GBlock(cipher, BucketOf(start, k), s.X(k), s.Y(k), delta)
  }

  /** ... and `sout` every item's leaky_and_prepare_s block, given the peer's blocks `w`. */
  ghost predicate SBlocks(cipher: (nat, Block) -> Block, start: nat, s: Shares, delta: Block, w: seq<Block>, sout: seq<Block>) {
    && s.Sized() && |sout| == |w| == s.l
    && forall k :: 0 <= k < s.l ==> sout[k] == SBlock(cipher, BucketOf(start, k), s.X(k), s.Y(k), s.Z(k), delta, w[k])
  }

  predicate LowBits(bits: seq<bool>, sout: seq<Block>) {
    |bits| == |sout| && forall k :: 0 <= k < |sout| ==> bits[k] == Lsb1(sout[k])
  }

  /** One batch of leaky_and_prepare_g. */
  method MaskBatch(delta: Block, s: Shares, k0: nat, batch: nat, gmitc: Mitccrh8, ghost start: nat)
    returns (more: seq<Block>)
    requires s.Sized() && batch <= 8 && k0 + batch <= s.l && k0 % 8 == 0
    requires gmitc.Valid() && start % 8 == 0 && gmitc.drawn == start + k0
    modifies gmitc
    ensures gmitc.Valid() && gmitc.drawn == old(gmitc.drawn) + 8
    ensures |more| == batch
    ensures forall k :: k0 <= k < k0 + batch ==>
      more[k - k0] == GBlock(gmitc.cipher, BucketOf(start, k), s.X(k), s.Y(k), delta)
  {
    hide Masked, Xor, BucketOf, Shares.X, Shares.Y, Shares.Z;
    var keys, l := s.key[k0..k0 + batch], s.l;
    var hl, hr := HashPairs(gmitc, keys, seq(batch, j requires 0 <= j < batch => Xor(keys[j], delta)));
    more := [];
    for j := 0 to batch
      invariant gmitc.Valid() && gmitc.drawn == start + k0 + 8
      invariant |more| == j
      invariant forall k :: k0 <= k < k0 + j ==>
        more[k - k0] == GBlock(gmitc.cipher, BucketOf(start, k), s.X(k), s.Y(k), delta)
    {
      var k := k0 + j;
      SameBucket(start, k0 / 8, k);
      s.ItemMeans(k);
      more := more + [Masked(hl[j], hr[j], Bundle(s.mac[l + k], s.key[l + k]), delta)];
    }
  }

  /** leaky_and_prepare_g */
  method LeakyAndPrepareG(delta: Block, s: Shares, gmitc: Mitccrh8) returns (g: seq<Block>)
    requires s.Sized() && gmitc.Valid() && gmitc.drawn % 8 == 0
    modifies gmitc
    ensures gmitc.Valid() && gmitc.drawn == old(gmitc.drawn) + 8 * Batches(s.l)
    ensures GBlocks(gmitc.cipher, old(gmitc.drawn), s, delta, g)
  {
    hide GBlock, BucketOf, Shares.X, Shares.Y, Shares.Z;
    g := [];
    var i, l := 0, s.l;
    ghost var start := gmitc.drawn;
    while 8 * i < l
      invariant gmitc.Valid() && gmitc.drawn == start + 8 * i
      invariant i <= Batches(l)
      invariant |g| == if 8 * i < l then 8 * i else l
      invariant forall k :: 0 <= k < |g| ==>
        g[k] == GBlock(gmitc.cipher, BucketOf(start, k), s.X(k), s.Y(k), delta)
      decreases l - 8 * i
    {
      var k0 := 8 * i;
      var batch := if l - k0 < 8 then l - k0 else 8;
      var more := MaskBatch(delta, s, k0, batch, gmitc, start);
      g := g + more;
      i := i + 1;
    }
  }

  /** One batch of leaky_and_prepare_s. */
  method CombineBatch(delta: Block, s: Shares, k0: nat, batch: nat, emitc: Mitccrh8, w: seq<Block>,
                      ghost start: nat) returns (more: seq<Block>)
    requires s.Sized() && batch <= 8 && k0 + batch <= s.l == |w| && k0 % 8 == 0
    requires emitc.Valid() && start % 8 == 0 && emitc.drawn == start + k0
    modifies emitc
    ensures emitc.Valid() && emitc.drawn == old(emitc.drawn) + 8
    ensures |more| == batch
    ensures forall k :: k0 <= k < k0 + batch ==>
      more[k - k0] == SBlock(emitc.cipher, BucketOf(start, k), s.X(k), s.Y(k), s.Z(k), delta, w[k])
  {
    hide Combined, BucketOf, Shares.X, Shares.Y, Shares.Z;
    var hm, hk := HashPairs(emitc, s.mac[k0..k0 + batch], s.key[k0..k0 + batch]);
    more := [];
    var l := s.l;
    for j := 0 to batch
      invariant emitc.Valid() && emitc.drawn == start + k0 + 8
      invariant |more| == j
      invariant forall k :: k0 <= k < k0 + j ==>
        more[k - k0] == SBlock(emitc.cipher, BucketOf(start, k), s.X(k), s.Y(k), s.Z(k), delta, w[k])
    {
      var k := k0 + j;
      SameBucket(start, k0 / 8, k);
      var x, y := Bundle(s.mac[k], s.key[k]), Bundle(s.mac[l + k], s.key[l + k]);
      var z := Bundle(s.mac[2 * l + k], s.key[2 * l + k]);
      s.ItemMeans(k);
      more := more + [Combined(hk[j], hm[j], x, y, z, delta, w[k])];
    }
  }

  /** leaky_and_prepare_s */
  method LeakyAndPrepareS(delta: Block, s: Shares, emitc: Mitccrh8, w: seq<Block>)
    returns (bits: seq<bool>, sout: seq<Block>)
    requires s.Sized() && |w| == s.l && emitc.Valid() && emitc.drawn % 8 == 0
    modifies emitc
    ensures emitc.Valid() && emitc.drawn == old(emitc.drawn) + 8 * Batches(s.l)
    ensures SBlocks(emitc.cipher, old(emitc.drawn), s, delta, w, sout) && LowBits(bits, sout)
  {
    hide SBlock, BucketOf, Shares.X, Shares.Y, Shares.Z;
    sout := [];
    var i, l := 0, s.l;
    ghost var start := emitc.drawn;
    while 8 * i < l
      invariant emitc.Valid() && emitc.drawn == start + 8 * i
      invariant i <= Batches(l)
      invariant |sout| == if 8 * i < l then 8 * i else l
      invariant forall k :: 0 <= k < |sout| ==>
        sout[k] == SBlock(emitc.cipher, BucketOf(start, k), s.X(k), s.Y(k), s.Z(k), delta, w[k])
      decreases l - 8 * i
    {
      var k0 := 8 * i;
      var batch := if l - k0 < 8 then l - k0 else 8;
      var more := CombineBatch(delta, s, k0, batch, emitc, w, start);
      sout := sout + more;
      i := i + 1;
    }
    bits := seq(l, k requires 0 <= k < l => Lsb1(sout[k]));
  }

  /** leaky_and_finish: flips the z-arm where the opened bit says so and returns the blocks
  that go into the equality transcript. */
  method LeakyAndFinish(party: Role, delta: Block, s: ShareArray, mine: seq<bool>, peer: seq<bool>, sout: seq<Block>)
    returns (feq: seq<Block>)
    requires s.at.Sized() && |mine| == |peer| == |sout| == s.at.l
    modifies s
    ensures s.at.Sized() && |feq| == s.at.l == old(s.at.l)
    ensures forall k :: 0 <= k < s.at.l ==> s.at.X(k) == old(s.at).X(k) && s.at.Y(k) == old(s.at).Y(k)
    ensures forall k :: 0 <= k < s.at.l ==> s.at.Z(k) == AddPublic(party, mine[k] != peer[k], old(s.at).Z(k), delta)
    ensures forall k :: 0 <= k < s.at.l ==> feq[k] == Xor(sout[k], Select(mine[k] != peer[k], delta))
  {
    var dxor, l := Xor(delta, BIT0), s.at.l;
    ghost var was := s.at;
    feq := sout;
    for k := 0 to l
      invariant s.at.Sized() && |feq| == s.at.l == l
      invariant forall i :: 0 <= i < l ==> s.at.X(i) == was.X(i) && s.at.Y(i) == was.Y(i)
      invariant forall i :: k <= i < l ==> s.at.Z(i) == was.Z(i) && feq[i] == sout[i]
      invariant forall i :: 0 <= i < k ==> s.at.Z(i) == AddPublic(party, mine[i] != peer[i], was.Z(i), delta)
      invariant forall i :: 0 <= i < k ==> feq[i] == Xor(sout[i], Select(mine[i] != peer[i], delta))
    {
      hide Xor, Select, Shares.SetZ, Shares.X, Shares.Y, Shares.Z;
      var d, z := mine[k] != peer[k], s.at.Z(k);
      if party == Alice {
        s.at := s.at.SetZ(k, Bundle(Xor(z.mac, Select(d, BIT0)), z.key));
      } else {
        s.at := s.at.SetZ(k, Bundle(z.mac, Xor(z.key, Select(d, dxor))));
      }
      feq := feq[k := Xor(feq[k], Select(d, delta))];
    }
  }

  /** Where item `i` of the accumulator reads in a layer rotated by `r`. */
  function Rotated(i: nat, l: nat, r: nat): (src: nat)
    requires i < l && r < l
    ensures src < l
  {
    if i < l - r then i + r else i + r - l
  }

  lemma RotatedMeans(i: nat, l: nat, r: nat)
    requires i < l && r < l
    ensures Rotated(i, l, r) == if i < l - r then i + r else i + r - l
  {
  }

  /** Item `j` of the accumulator once `n` steps are done of bucket_prepare_layer. */
  predicate PreparedAt(was: Shares, now: Shares, layer: Shares, r: nat, d: seq<bool>, j: nat, n: nat)
    requires was.Sized() && now.Sized() && layer.Sized()
    requires was.l == now.l == layer.l == |d| && r < was.l && j < was.l
  {
    var src := Rotated(j, was.l, r);
    && now.X(j) == (if j < n then Add(was.X(j), layer.X(src)) else was.X(j))
    && now.Y(j) == was.Y(j)
    && now.Z(j) == (if j < n then Add(was.Z(j), layer.Z(src)) else was.Z(j))
    && (j < n ==> d[j] == (was.Y(j).Bit() != layer.Y(src).Bit()))
  }

  lemma PreparedMeans(was: Shares, now: Shares, layer: Shares, r: nat, d: seq<bool>, j: nat, n: nat)
    requires was.Sized() && now.Sized() && layer.Sized()
    requires was.l == now.l == layer.l == |d| && r < was.l && j < was.l
    ensures var src := Rotated(j, was.l, r);
      PreparedAt(was, now, layer, r, d, j, n) <==>
        && now.X(j) == (if j < n then Add(was.X(j), layer.X(src)) else was.X(j))
        && now.Y(j) == was.Y(j)
        && now.Z(j) == (if j < n then Add(was.Z(j), layer.Z(src)) else was.Z(j))
        && (j < n ==> d[j] == (was.Y(j).Bit() != layer.Y(src).Bit()))
  {
    hide Add, Shares.X, Shares.Y, Shares.Z, Rotated, Bundle.Bit;
  }

  lemma PrepareItem(was: Shares, now: Shares, layer: Shares, r: nat, d: seq<bool>,
                    i: nat, n: nat, x: Bundle, z: Bundle, bit: bool, now': Shares, d': seq<bool>)
    requires was.Sized() && now.Sized() && layer.Sized()
    requires was.l == now.l == layer.l == |d| && r < was.l && i < was.l && n == i + 1
    requires forall j :: 0 <= j < was.l ==> PreparedAt(was, now, layer, r, d, j, i)
    requires var src := Rotated(i, was.l, r);
      x == Add(now.X(i), layer.X(src)) && z == Add(now.Z(i), layer.Z(src)) && bit == (now.Y(i).Bit() != layer.Y(src).Bit())
    requires now' == now.SetXZ(i, x, z) && d' == d[i := bit]
    ensures forall j :: 0 <= j < was.l ==> PreparedAt(was, now', layer, r, d', j, n)
  {
    hide Add, Shares.SetXZ, Shares.X, Shares.Y, Shares.Z, Rotated, Bundle.Bit;
    forall j | 0 <= j < was.l
      ensures PreparedAt(was, now', layer, r, d', j, n)
    {
      assert PreparedAt(was, now, layer, r, d, j, i);
    }
  }

  /** bucket_prepare_layer */
  method BucketPrepareLayer(acc: ShareArray, layer: Shares, r: nat) returns (d: seq<bool>)
    requires acc.at.Sized() && layer.Sized() && r < acc.at.l == layer.l
    modifies acc
    ensures acc.at.Sized() && |d| == acc.at.l == old(acc.at.l)
    ensures forall i :: 0 <= i < layer.l ==> acc.at.X(i) == Add(old(acc.at).X(i), layer.X(Rotated(i, layer.l, r)))
    ensures forall i :: 0 <= i < layer.l ==> acc.at.Y(i) == old(acc.at).Y(i)
    ensures forall i :: 0 <= i < layer.l ==> acc.at.Z(i) == Add(old(acc.at).Z(i), layer.Z(Rotated(i, layer.l, r)))
    ensures forall i :: 0 <= i < layer.l ==> d[i] == (acc.at.Y(i).Bit() != layer.Y(Rotated(i, layer.l, r)).Bit())
  {
    hide Add, Shares.SetXZ, Shares.X, Shares.Y, Shares.Z, Rotated, Bundle.Bit, PreparedAt;
    var l := acc.at.l;
    ghost var was := acc.at;
    d := NoBits(l);
    forall j | 0 <= j < l
      ensures PreparedAt(was, acc.at, layer, r, d, j, 0)
    {
      PreparedMeans(was, acc.at, layer, r, d, j, 0);
    }
    for i := 0 to l
      invariant acc.at.Sized() && |d| == acc.at.l == l
      invariant forall j :: 0 <= j < l ==> PreparedAt(was, acc.at, layer, r, d, j, i)
    {
      var src := if i < l - r then i + r else i + r - l;
      RotatedMeans(i, l, r);
      var x, z, bit := Add(acc.at.X(i), layer.X(src)), Add(acc.at.Z(i), layer.Z(src)), acc.at.Y(i).Bit() != layer.Y(src).Bit();
      PrepareItem(was, acc.at, layer, r, d, i, i + 1, x, z, bit, acc.at.SetXZ(i, x, z), d[i := bit]);
      acc.at := acc.at.SetXZ(i, x, z);
      d := d[i := bit];
    }
    forall j | 0 <= j < l
      ensures acc.at.X(j) == Add(was.X(j), layer.X(Rotated(j, l, r))) && acc.at.Z(j) == Add(was.Z(j), layer.Z(Rotated(j, l, r)))
      ensures acc.at.Y(j) == was.Y(j) && d[j] == (was.Y(j).Bit() != layer.Y(Rotated(j, l, r)).Bit())
    {
      assert PreparedAt(was, acc.at, layer, r, d, j, l);
      PreparedMeans(was, acc.at, layer, r, d, j, l);
    }
  }

  /** bucket_finish_layer */
  method BucketFinishLayer(acc: ShareArray, layer: Shares, r: nat, mine: seq<bool>, peer: seq<bool>)
    requires acc.at.Sized() && layer.Sized() && r < acc.at.l == layer.l && |mine| == |peer| == layer.l
    modifies acc
    ensures acc.at.Sized() && acc.at.l == layer.l
    ensures forall i :: 0 <= i < layer.l ==> acc.at.X(i) == old(acc.at).X(i) && acc.at.Y(i) == old(acc.at).Y(i)
    ensures forall i :: 0 <= i < layer.l ==>
      acc.at.Z(i) == Add(old(acc.at).Z(i), Scale(mine[i] != peer[i], layer.X(Rotated(i, layer.l, r))))
  {
    var l := acc.at.l;
    ghost var was := acc.at;
    for i := 0 to l
      invariant acc.at.Sized() && acc.at.l == l
      invariant forall j :: 0 <= j < l ==> acc.at.X(j) == was.X(j) && acc.at.Y(j) == was.Y(j)
      invariant forall j :: i <= j < l ==> acc.at.Z(j) == was.Z(j)
      invariant forall j :: 0 <= j < i ==>
        acc.at.Z(j) == Add(was.Z(j), Scale(mine[j] != peer[j], layer.X(Rotated(j, l, r))))
    {
      hide Add, Scale, Shares.SetZ, Shares.X, Shares.Y, Shares.Z;
      var src := if i < l - r then i + r else i + r - l;
      acc.at := acc.at.SetZ(i, Add(acc.at.Z(i), Scale(mine[i] != peer[i], layer.X(src))));
    }
  }

  /** One party's pool: its Δ and the correlated shares its two OT instances mint, session by session. */
  class Pool {
    const party: Role
    const delta: Block
    /** Share `i` of a session. */
    const stream: (nat, nat) -> Bundle
    var session: nat
    /** Shares handed out in this session; cots_minted_since_check says whether there are any. */
    var pos: nat

    constructor (party: Role, delta: Block, stream: (nat, nat) -> Bundle)
      ensures this.party == party && this.delta == delta && this.stream == stream && session == 0 && pos == 0
    {
      this.party, this.delta, this.stream, session, pos := party, delta, stream, 0, 0;
    }

    /** The shares of the current session. */
    function Current(): (s: nat -> Bundle)
      reads this`session
      ensures forall i: nat :: s(i) == stream(session, i)
    {
      var (f, at) := (stream, session);
      (i: nat) => f(at, i)
    }

    /** gen_cot_shares: the next `count` shares of the session, never an earlier one again. */
    method Draw(count: nat) returns (shares: seq<Bundle>)
      modifies this`pos
      ensures pos == old(pos) + count && |shares| == count
      ensures forall i :: 0 <= i < count ==> shares[i] == Current()(old(pos) + i)
    {
      var start, f, at := pos, stream, session;
      shares := seq(count, i requires 0 <= i < count => f(at, start + i));
      pos := pos + count;
    }

    /** maybe_flush_cot_check: if anything was drawn, the session is checked and ended, and the next one begun. */
    method FlushCheck()
      modifies this`session, this`pos
      ensures pos == 0 && session == old(session) + if old(pos) > 0 then 1 else 0
    {
      if pos > 0 {
        session, pos := session + 1, 0;
      }
    }
  }

  /** The two pools of a session: normalised Δs, related streams, drawn in step. */
  ghost predicate PoolsPaired(a: Pool, b: Pool)
    reads a, b
  {
    && a != b && a.party == Alice && b.party == Bob
    && NormalDeltas(a.delta, b.delta)
    && a.session == b.session && a.pos == b.pos
    && StreamsRelated(a.stream, b.stream, a.delta, b.delta)
  }

  ghost predicate StreamsRelated(a: (nat, nat) -> Bundle, b: (nat, nat) -> Bundle, dA: Block, dB: Block) {
    forall session: nat, i: nat :: Related(a(session, i), b(session, i), dA, dB)
  }

  function Bits(shares: seq<Bundle>): (r: seq<bool>)
    ensures |r| == |shares| && forall k :: 0 <= k < |r| ==> r[k] == shares[k].Bit()
  {
    seq(|shares|, k requires 0 <= k < |shares| => shares[k].Bit())
  }

  /** Ag2pcComputeBuffer with the hash states of one call (Ag2pcComputeHashes). */
  class ComputeBuffer {
    const repA: seq<bool>
    const repB: seq<bool>
    const acc: ShareArray
    const gmitc: Mitccrh8
    const emitc: Mitccrh8
    var feq: seq<Block>

    ghost predicate Valid()
      reads this, acc, gmitc, emitc
    {
      && |repA| == |repB| == acc.at.l && acc.at.Sized()
      && gmitc != emitc && gmitc.Valid() && emitc.Valid()
      && gmitc.drawn == emitc.drawn && gmitc.drawn % 8 == 0
    }

    /** new and insert_random_cots: the operands fill the x and y arms, fresh shares the z arm. */
    constructor (cipher: (nat, Block) -> Block, sigma: Block -> Block,
                 repA: seq<Bundle>, repB: seq<Bundle>, random: seq<Bundle>)
      requires |repA| == |repB| == |random|
      ensures Valid() && acc.at.l == |repA| && fresh(acc) && fresh(gmitc) && fresh(emitc)
      ensures feq == [] && gmitc.drawn == 0 && gmitc.cipher == emitc.cipher == cipher
      ensures this.repA == Bits(repA) && this.repB == Bits(repB)
      ensures acc.at == FromArms(repA, repB, random)
    {
      hide FromArms;
      this.repA := Bits(repA);
      this.repB := Bits(repB);
      acc := new ShareArray(FromArms(repA, repB, random));
      gmitc := new Mitccrh8(cipher, sigma);
      emitc := new Mitccrh8(cipher, sigma);
      feq := [];
    }

    /** opening_bits */
    method OpeningBits() returns (xb: seq<bool>, yb: seq<bool>)
      requires Valid()
      ensures |xb| == |yb| == acc.at.l
      ensures forall k :: 0 <= k < acc.at.l ==> xb[k] == (repA[k] != acc.at.X(k).Bit())
      ensures forall k :: 0 <= k < acc.at.l ==> yb[k] == (repB[k] != acc.at.Y(k).Bit())
    {
      xb, yb := NoBits(acc.at.l), NoBits(acc.at.l);
      for i := 0 to acc.at.l
        invariant |xb| == |yb| == acc.at.l
        invariant forall k :: 0 <= k < i ==> xb[k] == (repA[k] != acc.at.X(k).Bit())
        invariant forall k :: 0 <= k < i ==> yb[k] == (repB[k] != acc.at.Y(k).Bit())
      {
        xb := xb[i := repA[i] != Lsb(acc.at.mac[i])];
        yb := yb[i := repB[i] != Lsb(acc.at.mac[acc.at.l + i])];
      }
    }

    /** finish */
    method Finish(party: Role, delta: Block, xMine: seq<bool>, yMine: seq<bool>, xPeer: seq<bool>, yPeer: seq<bool>)
      returns (out: seq<Bundle>)
      requires Valid() && |xMine| == |yMine| == |xPeer| == |yPeer| == acc.at.l
      ensures |out| == acc.at.l
      ensures forall k :: 0 <= k < acc.at.l ==>
        out[k] == OpenSigma(party, acc.at.X(k), acc.at.Y(k), acc.at.Z(k), xMine[k] != xPeer[k], yMine[k] != yPeer[k], delta)
    {
      hide Xor, Select;
      out := [];
      var dxor, l := Xor(delta, BIT0), acc.at.l;
      for i := 0 to l
        invariant |out| == i
        invariant forall k :: 0 <= k < i ==>
          out[k] == OpenSigma(party, acc.at.X(k), acc.at.Y(k), acc.at.Z(k), xMine[k] != xPeer[k], yMine[k] != yPeer[k], delta)
      {
        var xb, yb := xMine[i] != xPeer[i], yMine[i] != yPeer[i];
        var mac := Xor(Xor(acc.at.mac[2 * l + i], Select(xb, acc.at.mac[l + i])), Select(yb, acc.at.mac[i]));
        var key := Xor(Xor(acc.at.key[2 * l + i], Select(xb, acc.at.key[l + i])), Select(yb, acc.at.key[i]));
        if party == Alice {
          mac := Xor(mac, Select(xb && yb, BIT0));
        } else {
          key := Xor(key, Select(xb && yb, dxor));
        }
        out := out + [Bundle(mac, key)];
      }
    }
  }
}

/** Both parties' triple generation,
run message by message against each other. */
module TripleGeneration {
  import opened Options
  import opened Blocks
  import opened Auth
  import opened Mitccrh
  import opened Triples
  import opened TriplePool

  predicate SameShape(a: Shares, b: Shares) {
    a.Sized() && b.Sized() && a.l == b.l
  }

  predicate RelatedItem(a: Shares, b: Shares, k: nat, dA: Block, dB: Block)
    requires SameShape(a, b) && k < a.l
  {
    && Related(a.X(k), b.X(k), dA, dB)
    && Related(a.Y(k), b.Y(k), dA, dB)
    && Related(a.Z(k), b.Z(k), dA, dB)
  }

  /** All three arms of the two parties' shares are related. */
  predicate RelatedShares(a: Shares, b: Shares, dA: Block, dB: Block)
    requires SameShape(a, b)
  {
    forall k :: 0 <= k < a.l ==> RelatedItem(a, b, k, dA, dB)
  }

  predicate ProductItem(a: Shares, b: Shares, k: nat, dA: Block, dB: Block)
    requires SameShape(a, b) && k < a.l
  {
    Product(a.X(k), a.Y(k), a.Z(k), b.X(k), b.Y(k), b.Z(k), dA, dB)
  }

  /** ... and every z is the product of x and y. */
  predicate Products(a: Shares, b: Shares, dA: Block, dB: Block)
    requires SameShape(a, b)
  {
    forall k :: 0 <= k < a.l ==> ProductItem(a, b, k, dA, dB)
  }

  // ---- what the parties compute, item by item ----

  function ItemAt(a: Shares, b: Shares, k: nat): Item
    requires SameShape(a, b) && k < a.l
  {
    Item(Triple(a.X(k), a.Y(k), a.Z(k)), Triple(b.X(k), b.Y(k), b.Z(k)))
  }

  function Items(a: Shares, b: Shares): (s: seq<Item>)
    requires SameShape(a, b)
    ensures |s| == a.l && forall k :: 0 <= k < a.l ==> s[k] == ItemAt(a, b, k)
  {
    seq(a.l, k requires 0 <= k < a.l => ItemAt(a, b, k))
  }

  /** Every item after leaky_and_halfgate. */
  function AllSettled(items: seq<Item>, dA: Block, dB: Block): (s: seq<Item>)
    ensures |s| == |items| && forall k :: 0 <= k < |items| ==> s[k] == Settled(items[k], dA, dB)
  {
    seq(|items|, k requires 0 <= k < |items| => Settled(items[k], dA, dB))
  }

  /** What leaky_and_halfgate appends to the equality transcript, hashed from key slot `slot` on. */
  function Transcript(cipher: (nat, Block) -> Block, slot: nat, items: seq<Item>, dA: Block, dB: Block): (s: seq<Block>)
    ensures |s| == |items| && forall k :: 0 <= k < |items| ==> s[k] == FeqBlock(cipher, BucketOf(slot, k), items[k], dA, dB)
  {
    seq(|items|, k requires 0 <= k < |items| => FeqBlock(cipher, BucketOf(slot, k), items[k], dA, dB))
  }

  /** The accumulator after one layer, read at positions rotated by `r`. */
  function Layered(acc: seq<Item>, layer: seq<Item>, r: nat): (s: seq<Item>)
    requires r < |acc| == |layer|
    ensures |s| == |acc| && forall k :: 0 <= k < |acc| ==> s[k] == Bucketed(acc[k], layer[Rotated(k, |acc|, r)])
  {
    seq(|acc|, k requires 0 <= k < |acc| => Bucketed(acc[k], layer[Rotated(k, |acc|, r)]))
  }

  /** What the two pools of a session hand out, and both parties' Δs. */
  datatype Source = Source(alice: (nat, nat) -> Bundle, bob: (nat, nat) -> Bundle, session: nat, dA: Block, dB: Block)

  ghost function SourceOf(alice: Pool, bob: Pool): Source
    reads alice`session
  {
    Source(alice.stream, bob.stream, alice.session, alice.delta, bob.delta)
  }

  /** The `3 * l` shares from position `start` on, as the arms of `l` items. */
  function DrawnItems(f: Source, start: nat, l: nat): (s: seq<Item>)
    ensures |s| == l && forall k :: 0 <= k < l ==> s[k] == DrawnItem(f, start, l, k)
  {
    seq(l, k requires 0 <= k < l => DrawnItem(f, start, l, k))
  }

  function DrawnItem(f: Source, start: nat, l: nat, k: nat): Item {
    Item(Triple(f.alice(f.session, start + k), f.alice(f.session, start + l + k), f.alice(f.session, start + 2 * l + k)),
         Triple(f.bob(f.session, start + k), f.bob(f.session, start + l + k), f.bob(f.session, start + 2 * l + k)))
  }

  /** The accumulator after `n` layers, drawn from position `start` on. */
  function AfterLayers(acc: seq<Item>, f: Source, start: nat, rotation: nat -> nat, n: nat): (s: seq<Item>)
    requires acc != []
    ensures |s| == |acc|
  {
    if n == 0 then acc
    else
      var l := |acc|;
      Layered(AfterLayers(acc, f, start, rotation, n - 1), AllSettled(DrawnItems(f, start + 3 * l * (n - 1), l), f.dA, f.dB), rotation(n - 1) % l)
  }

  /** What `n` layers append to the equality transcript. */
  function LayerTranscript(cipher: (nat, Block) -> Block, slot: nat, f: Source, start: nat, l: nat, n: nat): seq<Block> {
    if n == 0 then []
    else
      LayerTranscript(cipher, slot, f, start, l, n - 1) +
      Transcript(cipher, slot + 8 * Batches(l) * (n - 1), DrawnItems(f, start + 3 * l * (n - 1), l), f.dA, f.dB)
  }

  /** The hash states of the two parties are at the same point and saw the same transcript. */
  ghost predicate InStep(a: ComputeBuffer, b: ComputeBuffer)
    reads a, a.acc, a.gmitc, a.emitc, b, b.acc, b.gmitc, b.emitc
  {
    && a.Valid() && b.Valid() && a != b && a.acc != b.acc && SameShape(a.acc.at, b.acc.at)
    && a.gmitc != b.gmitc && a.gmitc != b.emitc && a.emitc != b.gmitc && a.emitc != b.emitc
    && a.gmitc.cipher == a.emitc.cipher == b.gmitc.cipher == b.emitc.cipher
    && a.gmitc.drawn == b.gmitc.drawn
    && a.feq == b.feq
  }

  /** What the two parties' leaky-AND blocks of item `k` differ by. */
  function Leak(sa: Shares, sb: Shares, k: nat, dA: Block, dB: Block): Block
    requires SameShape(sa, sb) && k < sa.l
  {
    Select((Opened(sa.X(k), sb.X(k)) && Opened(sa.Y(k), sb.Y(k))) != Opened(sa.Z(k), sb.Z(k)), Xor(dA, dB))
  }

  predicate Leaked(sa: Shares, sb: Shares, dA: Block, dB: Block, soutA: seq<Block>, soutB: seq<Block>)
    requires SameShape(sa, sb) && sa.l == |soutA| == |soutB|
  {
    forall k :: 0 <= k < sa.l ==> Xor(soutA[k], soutB[k]) == Leak(sa, sb, k, dA, dB)
  }

  /** Alice's leaky-AND blocks of all items, hashed from key slot `slot` on. */
  function LeakyBlocks(cipher: (nat, Block) -> Block, slot: nat, items: seq<Item>, dA: Block, dB: Block): (s: seq<Block>)
    ensures |s| == |items| && forall k :: 0 <= k < |items| ==> s[k] == LeakyBlock(cipher, BucketOf(slot, k), items[k], dA, dB)
  {
    seq(|items|, k requires 0 <= k < |items| => LeakyBlock(cipher, BucketOf(slot, k), items[k], dA, dB))
  }

  lemma LeaksDiffer(sa: Shares, sb: Shares, dA: Block, dB: Block, cipher: (nat, Block) -> Block, start: nat,
                    ga: seq<Block>, gb: seq<Block>, soutA: seq<Block>, soutB: seq<Block>)
    requires SameShape(sa, sb) && RelatedShares(sa, sb, dA, dB)
    requires GBlocks(cipher, start, sa, dA, ga) && GBlocks(cipher, start, sb, dB, gb)
    requires SBlocks(cipher, start, sa, dA, gb, soutA) && SBlocks(cipher, start, sb, dB, ga, soutB)
    ensures |soutA| == |soutB| == sa.l && Leaked(sa, sb, dA, dB, soutA, soutB)
    ensures soutA == LeakyBlocks(cipher, start, Items(sa, sb), dA, dB)
  {
    hide GBlock, SBlock, Related, Xor, Select, BucketOf, Shares.X, Shares.Y, Shares.Z;
    forall k | 0 <= k < sa.l
      ensures Xor(soutA[k], soutB[k]) == Leak(sa, sb, k, dA, dB)
    {
      assert RelatedItem(sa, sb, k, dA, dB);
      LeakyAndDifference(cipher, BucketOf(start, k), sa.X(k), sa.Y(k), sa.Z(k), sb.X(k), sb.Y(k), sb.Z(k), dA, dB);
    }
  }

  lemma BlocksSized(cipher: (nat, Block) -> Block, start: nat, s: Shares, delta: Block, g: seq<Block>)
    requires GBlocks(cipher, start, s, delta, g)
    ensures |g| == s.l
  {
  }

  /** The masking half of leaky_and_halfgate, up to the exchange of the opened bits. */
  method LeakyAndMask(dA: Block, dB: Block, sa: Shares, sb: Shares, a: ComputeBuffer, b: ComputeBuffer)
    returns (bitsA: seq<bool>, soutA: seq<Block>, bitsB: seq<bool>, soutB: seq<Block>)
    requires InStep(a, b) && SameShape(sa, sb) && RelatedShares(sa, sb, dA, dB)
    modifies a.gmitc, a.emitc, b.gmitc, b.emitc
    ensures InStep(a, b)
    ensures |soutA| == |soutB| == sa.l && LowBits(bitsA, soutA) && LowBits(bitsB, soutB)
    ensures Leaked(sa, sb, dA, dB, soutA, soutB)
    ensures soutA == LeakyBlocks(a.gmitc.cipher, old(a.gmitc.drawn), Items(sa, sb), dA, dB)
    ensures a.gmitc.drawn == old(a.gmitc.drawn) + 8 * Batches(sa.l)
  {
    hide GBlocks, SBlocks, LowBits, RelatedShares, Leaked, Batches, Mitccrh8.Valid, Shares.Sized, LeakyBlocks, Items;
    ghost var start := a.gmitc.drawn;
    var ga := LeakyAndPrepareG(dA, sa, a.gmitc);
    var gb := LeakyAndPrepareG(dB, sb, b.gmitc);
    BlocksSized(a.gmitc.cipher, start, sa, dA, ga);
    BlocksSized(a.gmitc.cipher, start, sb, dB, gb);
    bitsA, soutA := LeakyAndPrepareS(dA, sa, a.emitc, gb);
    bitsB, soutB := LeakyAndPrepareS(dB, sb, b.emitc, ga);
    LeaksDiffer(sa, sb, dA, dB, a.gmitc.cipher, start, ga, gb, soutA, soutB);
  }

  /** The second half: the opened bits turn every z into the product, and the two parties'
  transcript blocks come out equal. */
  method LeakyAndOpen(dA: Block, dB: Block, sa: ShareArray, sb: ShareArray,
                      bitsA: seq<bool>, soutA: seq<Block>, bitsB: seq<bool>, soutB: seq<Block>)
    returns (feqA: seq<Block>, feqB: seq<Block>)
    requires NormalDeltas(dA, dB) && sa != sb && SameShape(sa.at, sb.at) && RelatedShares(sa.at, sb.at, dA, dB)
    requires |soutA| == |soutB| == sa.at.l && LowBits(bitsA, soutA) && LowBits(bitsB, soutB)
    requires Leaked(sa.at, sb.at, dA, dB, soutA, soutB)
    modifies sa, sb
    ensures SameShape(sa.at, sb.at) && sa.at.l == old(sa.at.l)
    ensures Products(sa.at, sb.at, dA, dB) && feqA == feqB
    ensures Items(sa.at, sb.at) == AllSettled(old(Items(sa.at, sb.at)), dA, dB)
    ensures |feqA| == |soutA| && forall k :: 0 <= k < |soutA| ==> feqA[k] == Xor(soutA[k], Select(Flips(old(Items(sa.at, sb.at))[k]), dA))
  {
    hide Related, AddPublic, Xor, Select;
    ghost var wasA, wasB := sa.at, sb.at;
    feqA := LeakyAndFinish(Alice, dA, sa, bitsA, bitsB, soutA);
    feqB := LeakyAndFinish(Bob, dB, sb, bitsB, bitsA, soutB);
    forall k | 0 <= k < wasA.l
      ensures ProductItem(sa.at, sb.at, k, dA, dB) && feqA[k] == feqB[k]
      ensures ItemAt(sa.at, sb.at, k) == Settled(ItemAt(wasA, wasB, k), dA, dB)
      ensures feqA[k] == Xor(soutA[k], Select(Flips(ItemAt(wasA, wasB, k)), dA))
    {
      assert RelatedItem(wasA, wasB, k, dA, dB) && Xor(soutA[k], soutB[k]) == Leak(wasA, wasB, k, dA, dB);
      LeakyAndSettles(wasA.X(k), wasA.Y(k), wasA.Z(k), wasB.X(k), wasB.Y(k), wasB.Z(k), dA, dB, soutA[k], soutB[k]);
    }
  }

  /** leaky_and_halfgate on both sides: the z-arm becomes the product of the x and y arms,
  and both parties append the items' blocks to the equality transcript. */
  method LeakyAndHalfgate(dA: Block, dB: Block, sa: ShareArray, sb: ShareArray, a: ComputeBuffer, b: ComputeBuffer)
    requires NormalDeltas(dA, dB) && InStep(a, b)
    requires sa != sb && SameShape(sa.at, sb.at) && RelatedShares(sa.at, sb.at, dA, dB)
    requires sa != b.acc && sb != a.acc
    modifies sa, sb, a`feq, b`feq, a.gmitc, a.emitc, b.gmitc, b.emitc
    ensures InStep(a, b)
    ensures SameShape(sa.at, sb.at) && sa.at.l == old(sa.at.l) && Products(sa.at, sb.at, dA, dB)
    ensures Items(sa.at, sb.at) == AllSettled(old(Items(sa.at, sb.at)), dA, dB)
    ensures a.feq == old(a.feq) + Transcript(a.gmitc.cipher, old(a.gmitc.drawn), old(Items(sa.at, sb.at)), dA, dB)
    ensures a.gmitc.drawn == old(a.gmitc.drawn) + 8 * Batches(old(sa.at.l))
  {
    hide RelatedShares, Products, Leaked, LowBits, Settled, Flips, LeakyBlock, Batches, Mitccrh8.Valid;
    ghost var items, slot := Items(sa.at, sb.at), a.gmitc.drawn;
    var bitsA, soutA, bitsB, soutB := LeakyAndMask(dA, dB, sa.at, sb.at, a, b);
    var feqA, feqB := LeakyAndOpen(dA, dB, sa, sb, bitsA, soutA, bitsB, soutB);
    assert feqA == Transcript(a.gmitc.cipher, slot, items, dA, dB);
    a.feq := a.feq + feqA;
    b.feq := b.feq + feqB;
  }

  /** bucket_one_layer on both sides: every item takes in the layer's item at its rotated position, and stays a product. */
  method BucketOneLayer(dA: Block, dB: Block, accA: ShareArray, accB: ShareArray, layerA: Shares, layerB: Shares, r: nat)
    requires accA != accB && SameShape(accA.at, accB.at) && SameShape(layerA, layerB)
    requires r < accA.at.l == layerA.l
    requires Products(accA.at, accB.at, dA, dB) && Products(layerA, layerB, dA, dB)
    modifies accA, accB
    ensures SameShape(accA.at, accB.at) && accA.at.l == layerA.l
    ensures Products(accA.at, accB.at, dA, dB)
    ensures Items(accA.at, accB.at) == Layered(old(Items(accA.at, accB.at)), Items(layerA, layerB), r)
  {
    hide Related, Add, Scale, Product, Rotated;
    var l := accA.at.l;
    ghost var wasA, wasB := accA.at, accB.at;
    var mineA := BucketPrepareLayer(accA, layerA, r);
    var mineB := BucketPrepareLayer(accB, layerB, r);
    BucketFinishLayer(accA, layerA, r, mineA, mineB);
    BucketFinishLayer(accB, layerB, r, mineB, mineA);
    forall k | 0 <= k < l
      ensures ProductItem(accA.at, accB.at, k, dA, dB)
      ensures ItemAt(accA.at, accB.at, k) == Bucketed(ItemAt(wasA, wasB, k), ItemAt(layerA, layerB, Rotated(k, l, r)))
    {
      var s, d := Rotated(k, l, r), mineA[k] != mineB[k];
      assert ProductItem(wasA, wasB, k, dA, dB) && ProductItem(layerA, layerB, s, dA, dB);
      BucketKeepsProduct(wasA.X(k), wasA.Y(k), wasA.Z(k), wasB.X(k), wasB.Y(k), wasB.Z(k),
                         layerA.X(s), layerA.Y(s), layerA.Z(s), layerB.X(s), layerB.Y(s), layerB.Z(s), d, dA, dB);
    }
  }

  lemma DrawnRelated(alice: Pool, bob: Pool, start: nat, a: seq<Bundle>, b: seq<Bundle>)
    requires PoolsPaired(alice, bob) && |a| == |b|
    requires forall i :: 0 <= i < |a| ==> a[i] == alice.Current()(start + i) && b[i] == bob.Current()(start + i)
    ensures AllRelated(a, b, alice.delta, bob.delta)
  {
    hide Related, Pool.Current;
    forall i | 0 <= i < |a|
      ensures Related(a[i], b[i], alice.delta, bob.delta)
    {
      var at := alice.session;
      assert Related(alice.stream(at, start + i), bob.stream(at, start + i), alice.delta, bob.delta);
    }
  }

  lemma PartRelated(a: seq<Bundle>, b: seq<Bundle>, lo: nat, hi: nat, dA: Block, dB: Block)
    requires lo <= hi <= |a| && AllRelated(a, b, dA, dB)
    ensures AllRelated(a[lo..hi], b[lo..hi], dA, dB)
  {
    hide Related;
  }

  lemma ArmsRelated(xa: seq<Bundle>, ya: seq<Bundle>, za: seq<Bundle>, xb: seq<Bundle>, yb: seq<Bundle>, zb: seq<Bundle>,
                    dA: Block, dB: Block)
    requires |xa| == |ya| == |za| == |xb| == |yb| == |zb|
    requires AllRelated(xa, xb, dA, dB) && AllRelated(ya, yb, dA, dB) && AllRelated(za, zb, dA, dB)
    ensures RelatedShares(FromArms(xa, ya, za), FromArms(xb, yb, zb), dA, dB)
  {
    hide Related, FromArms, Shares.X, Shares.Y, Shares.Z;
    var u, v := FromArms(xa, ya, za), FromArms(xb, yb, zb);
    forall k | 0 <= k < u.l
      ensures RelatedItem(u, v, k, dA, dB)
    {
      assert u.X(k) == xa[k] && u.Y(k) == ya[k] && u.Z(k) == za[k];
      assert v.X(k) == xb[k] && v.Y(k) == yb[k] && v.Z(k) == zb[k];
    }
  }

  /** Shares drawn in step by the two pools are related, arm by arm. */
  method DrawLayer(alice: Pool, bob: Pool, l: nat) returns (sa: ShareArray, sb: ShareArray)
    requires PoolsPaired(alice, bob)
    modifies alice`pos, bob`pos
    ensures PoolsPaired(alice, bob) && alice.pos == old(alice.pos) + 3 * l
    ensures fresh(sa) && fresh(sb) && sa != sb && SameShape(sa.at, sb.at) && sa.at.l == l
    ensures RelatedShares(sa.at, sb.at, alice.delta, bob.delta)
    ensures Items(sa.at, sb.at) == DrawnItems(SourceOf(alice, bob), old(alice.pos), l)
  {
    hide Related, FromArms, AllRelated, RelatedShares, Items, DrawnItems, StreamsRelated;
    var a := alice.Draw(3 * l);
    var b := bob.Draw(3 * l);
    DrawnRelated(alice, bob, old(alice.pos), a, b);
    PartRelated(a, b, 0, l, alice.delta, bob.delta);
    PartRelated(a, b, l, 2 * l, alice.delta, bob.delta);
    PartRelated(a, b, 2 * l, 3 * l, alice.delta, bob.delta);
    assert a[..l] == a[0..l] && b[..l] == b[0..l] && a[2 * l..] == a[2 * l..3 * l] && b[2 * l..] == b[2 * l..3 * l];
    ArmsRelated(a[..l], a[l..2 * l], a[2 * l..], b[..l], b[l..2 * l], b[2 * l..], alice.delta, bob.delta);
    DrawnArms(SourceOf(alice, bob), old(alice.pos), l, a, b);
    sa := new ShareArray(FromArms(a[..l], a[l..2 * l], a[2 * l..]));
    sb := new ShareArray(FromArms(b[..l], b[l..2 * l], b[2 * l..]));
  }

  lemma DrawnArms(f: Source, start: nat, l: nat, a: seq<Bundle>, b: seq<Bundle>)
    requires |a| == |b| == 3 * l
    requires forall i :: 0 <= i < 3 * l ==> a[i] == f.alice(f.session, start + i) && b[i] == f.bob(f.session, start + i)
    ensures Items(FromArms(a[..l], a[l..2 * l], a[2 * l..]), FromArms(b[..l], b[l..2 * l], b[2 * l..])) == DrawnItems(f, start, l)
  {
    hide FromArms, Shares.X, Shares.Y, Shares.Z;
    var u, v := FromArms(a[..l], a[l..2 * l], a[2 * l..]), FromArms(b[..l], b[l..2 * l], b[2 * l..]);
    forall k | 0 <= k < l
      ensures ItemAt(u, v, k) == DrawnItem(f, start, l, k)
    {
      assert u.X(k) == a[k] && u.Y(k) == a[l + k] && u.Z(k) == a[2 * l + k];
      assert v.X(k) == b[k] && v.Y(k) == b[l + k] && v.Z(k) == b[2 * l + k];
      assert start + (l + k) == start + l + k && start + (2 * l + k) == start + 2 * l + k;
    }
  }

  /** layered_bucket_into_acc on both sides. `rotation` is what the common transcript digest
  squeezes out for each layer. */
  method LayeredBucket(alice: Pool, bob: Pool, a: ComputeBuffer, b: ComputeBuffer, bucket: nat, rotation: nat -> nat)
    requires PoolsPaired(alice, bob) && InStep(a, b) && a.acc.at.l > 0 && bucket >= 1
    requires Products(a.acc.at, b.acc.at, alice.delta, bob.delta)
    modifies alice`pos, bob`pos, a.acc, b.acc, a`feq, b`feq, a.gmitc, a.emitc, b.gmitc, b.emitc
    ensures PoolsPaired(alice, bob) && InStep(a, b) && a.acc.at.l == old(a.acc.at.l)
    ensures Products(a.acc.at, b.acc.at, alice.delta, bob.delta)
    ensures alice.pos == old(alice.pos) + 3 * a.acc.at.l * (bucket - 1)
    ensures Items(a.acc.at, b.acc.at) == AfterLayers(old(Items(a.acc.at, b.acc.at)), SourceOf(alice, bob), old(alice.pos), rotation, bucket - 1)
    ensures a.feq == old(a.feq) + LayerTranscript(a.gmitc.cipher, old(a.gmitc.drawn), SourceOf(alice, bob), old(alice.pos), a.acc.at.l, bucket - 1)
  {
    hide AtLayer, AfterLayers, LayerTranscript, Items, Products, PoolsPaired;
    ghost var from := Layers(Items(a.acc.at, b.acc.at), SourceOf(alice, bob), alice.pos, rotation, a.gmitc.cipher, a.gmitc.drawn, a.feq);
    FirstLayer(alice, bob, a, b, from);
    for i := 0 to bucket - 1
      invariant AtLayer(alice, bob, a, b, from, i)
    {
      NextLayer(alice, bob, a, b, rotation, i, from);
    }
    LayersDone(alice, bob, a, b, from, bucket - 1);
  }

  /** Where a run of layers started. */
  datatype Layers = Layers(acc: seq<Item>, source: Source, start: nat, rotation: nat -> nat, cipher: (nat, Block) -> Block, slot: nat, feq: seq<Block>)

  /** The state of both parties after `n` of them. */
  ghost predicate AtLayer(alice: Pool, bob: Pool, a: ComputeBuffer, b: ComputeBuffer, from: Layers, n: nat)
    reads alice, bob, a, a.acc, a.gmitc, a.emitc, b, b.acc, b.gmitc, b.emitc
  {
    && from.acc != [] && PoolsPaired(alice, bob) && InStep(a, b) && a.acc.at.l == |from.acc| && SourceOf(alice, bob) == from.source
    && Products(a.acc.at, b.acc.at, alice.delta, bob.delta) && a.gmitc.cipher == from.cipher
    && alice.pos == from.start + 3 * |from.acc| * n && a.gmitc.drawn == from.slot + 8 * Batches(|from.acc|) * n
    && Items(a.acc.at, b.acc.at) == AfterLayers(from.acc, from.source, from.start, from.rotation, n)
    && a.feq == from.feq + LayerTranscript(from.cipher, from.slot, from.source, from.start, |from.acc|, n)
  }

  lemma FirstLayer(alice: Pool, bob: Pool, a: ComputeBuffer, b: ComputeBuffer, from: Layers)
    requires PoolsPaired(alice, bob) && InStep(a, b) && a.acc.at.l > 0 && Products(a.acc.at, b.acc.at, alice.delta, bob.delta)
    requires from == Layers(Items(a.acc.at, b.acc.at), SourceOf(alice, bob), alice.pos, from.rotation, a.gmitc.cipher, a.gmitc.drawn, a.feq)
    ensures AtLayer(alice, bob, a, b, from, 0)
  {
    hide Products, Items, PoolsPaired;
    assert a.feq + [] == a.feq;
  }

  lemma LayersDone(alice: Pool, bob: Pool, a: ComputeBuffer, b: ComputeBuffer, from: Layers, n: nat)
    requires AtLayer(alice, bob, a, b, from, n)
    ensures PoolsPaired(alice, bob) && InStep(a, b) && a.acc.at.l == |from.acc| && SourceOf(alice, bob) == from.source
    ensures Products(a.acc.at, b.acc.at, alice.delta, bob.delta) && alice.pos == from.start + 3 * |from.acc| * n
    ensures from.acc != [] && Items(a.acc.at, b.acc.at) == AfterLayers(from.acc, from.source, from.start, from.rotation, n)
    ensures a.gmitc.cipher == from.cipher && a.gmitc.drawn == from.slot + 8 * Batches(|from.acc|) * n
    ensures a.feq == from.feq + LayerTranscript(a.gmitc.cipher, from.slot, from.source, from.start, |from.acc|, n)
  {
    hide Products, Items, PoolsPaired, AfterLayers, LayerTranscript;
  }

  lemma InStepShape(a: ComputeBuffer, b: ComputeBuffer)
    requires InStep(a, b)
    ensures SameShape(a.acc.at, b.acc.at)
  {
  }

  lemma SourceMeans(alice: Pool, bob: Pool)
    ensures SourceOf(alice, bob).dA == alice.delta && SourceOf(alice, bob).dB == bob.delta
  {
  }

  lemma LayerTaken(from: Layers, i: nat, acc: seq<Item>, feq: seq<Block>, after: seq<Item>, feqAfter: seq<Block>)
    requires from.acc != [] && acc == AfterLayers(from.acc, from.source, from.start, from.rotation, i)
    requires feq == from.feq + LayerTranscript(from.cipher, from.slot, from.source, from.start, |from.acc|, i)
    requires var l, f := |from.acc|, from.source; var drawn := DrawnItems(f, from.start + 3 * l * i, l);
      && after == Layered(acc, AllSettled(drawn, f.dA, f.dB), from.rotation(i) % l)
      && feqAfter == feq + Transcript(from.cipher, from.slot + 8 * Batches(l) * i, drawn, f.dA, f.dB)
    ensures after == AfterLayers(from.acc, from.source, from.start, from.rotation, i + 1)
    ensures feqAfter == from.feq + LayerTranscript(from.cipher, from.slot, from.source, from.start, |from.acc|, i + 1)
  {
    hide AfterLayers, LayerTranscript, Layered, AllSettled, DrawnItems, Transcript, Batches;
    OneMoreLayer(from.acc, from.source, from.start, from.rotation, from.cipher, from.slot, i);
  }

  lemma LayerReached(alice: Pool, bob: Pool, a: ComputeBuffer, b: ComputeBuffer, from: Layers, n: nat)
    requires from.acc != [] && PoolsPaired(alice, bob) && InStep(a, b) && a.acc.at.l == |from.acc| && SourceOf(alice, bob) == from.source
    requires Products(a.acc.at, b.acc.at, alice.delta, bob.delta) && a.gmitc.cipher == from.cipher
    requires alice.pos == from.start + 3 * |from.acc| * n && a.gmitc.drawn == from.slot + 8 * Batches(|from.acc|) * n
    requires Items(a.acc.at, b.acc.at) == AfterLayers(from.acc, from.source, from.start, from.rotation, n)
    requires a.feq == from.feq + LayerTranscript(from.cipher, from.slot, from.source, from.start, |from.acc|, n)
    ensures AtLayer(alice, bob, a, b, from, n)
  {
    hide Products, PoolsPaired, Items, AfterLayers, LayerTranscript, Batches;
  }

  method NextLayer(alice: Pool, bob: Pool, a: ComputeBuffer, b: ComputeBuffer, rotation: nat -> nat, i: nat, ghost from: Layers)
    requires AtLayer(alice, bob, a, b, from, i) && from.rotation == rotation
    modifies alice`pos, bob`pos, a.acc, b.acc, a`feq, b`feq, a.gmitc, a.emitc, b.gmitc, b.emitc
    ensures AtLayer(alice, bob, a, b, from, i + 1)
  {
    hide *;
    LayersDone(alice, bob, a, b, from, i);
    InStepShape(a, b);
    SourceMeans(alice, bob);
    ghost var feq, acc := a.feq, Items(a.acc.at, b.acc.at);
    LayerPositions(|from.acc|, i);
    OneLayer(alice, bob, a, b, rotation(i) % a.acc.at.l);
    InStepShape(a, b);
    LayerTaken(from, i, acc, feq, Items(a.acc.at, b.acc.at), a.feq);
    LayerReached(alice, bob, a, b, from, i + 1);
  }

  lemma OneMoreLayer(acc: seq<Item>, f: Source, start: nat, rotation: nat -> nat, cipher: (nat, Block) -> Block, slot: nat, i: nat)
    requires acc != []
    ensures var l, drawn := |acc|, DrawnItems(f, start + 3 * |acc| * i, |acc|);
      && AfterLayers(acc, f, start, rotation, i + 1) == Layered(AfterLayers(acc, f, start, rotation, i), AllSettled(drawn, f.dA, f.dB), rotation(i) % l)
      && LayerTranscript(cipher, slot, f, start, l, i + 1) ==
        LayerTranscript(cipher, slot, f, start, l, i) + Transcript(cipher, slot + 8 * Batches(l) * i, drawn, f.dA, f.dB)
  {
  }

  /** Alice's x-shares that `n` layers add to item `k`: one per layer, each at its rotated position. */
  function LayersX(f: Source, start: nat, l: nat, rotation: nat -> nat, n: nat, k: nat): Bundle
    requires k < l
  {
    if n == 0 then Bundle(ZERO, ZERO)
    else Add(LayersX(f, start, l, rotation, n - 1, k), DrawnItem(f, start + 3 * l * (n - 1), l, Rotated(k, l, rotation(n - 1) % l)).a.x)
  }

  /** In the end an item's x is its first x plus those of all layers, and its y is untouched. */
  lemma {:induction false} LayersGather(acc: seq<Item>, f: Source, start: nat, rotation: nat -> nat, n: nat, k: nat)
    requires k < |acc|
    ensures AfterLayers(acc, f, start, rotation, n)[k].a.x == Add(acc[k].a.x, LayersX(f, start, |acc|, rotation, n, k))
    ensures AfterLayers(acc, f, start, rotation, n)[k].a.y == acc[k].a.y && AfterLayers(acc, f, start, rotation, n)[k].b.y == acc[k].b.y
  {
    hide Xor, DrawnItem, Rotated, BucketZ, Settled;
    var x := acc[k].a.x;
    if n == 0 {
      XorGroup(x.mac, ZERO, ZERO);
      XorGroup(x.key, ZERO, ZERO);
    } else {
      LayersGather(acc, f, start, rotation, n - 1, k);
      var l := |acc|;
      var before, s := LayersX(f, start, l, rotation, n - 1, k), Rotated(k, l, rotation(n - 1) % l);
      var drawn := DrawnItem(f, start + 3 * l * (n - 1), l, s);
      SettledKeeps(drawn, f.dA, f.dB);
      XorGroup(x.mac, before.mac, drawn.a.x.mac);
      XorGroup(x.key, before.key, drawn.a.x.key);
    }
  }

  lemma SettledKeeps(i: Item, dA: Block, dB: Block)
    ensures Settled(i, dA, dB).a.x == i.a.x && Settled(i, dA, dB).a.y == i.a.y
  {
  }

  lemma LayerPositions(l: nat, i: nat)
    ensures 3 * l * (i + 1) == 3 * l * i + 3 * l && 8 * Batches(l) * (i + 1) == 8 * Batches(l) * i + 8 * Batches(l)
  {
  }

  /** One layer: fresh shares, their leaky AND, and their way into the accumulator. */
  method OneLayer(alice: Pool, bob: Pool, a: ComputeBuffer, b: ComputeBuffer, r: nat)
    requires PoolsPaired(alice, bob) && InStep(a, b) && r < a.acc.at.l
    requires Products(a.acc.at, b.acc.at, alice.delta, bob.delta)
    modifies alice`pos, bob`pos, a.acc, b.acc, a`feq, b`feq, a.gmitc, a.emitc, b.gmitc, b.emitc
    ensures PoolsPaired(alice, bob) && InStep(a, b) && a.acc.at.l == old(a.acc.at.l)
    ensures Products(a.acc.at, b.acc.at, alice.delta, bob.delta)
    ensures alice.pos == old(alice.pos) + 3 * a.acc.at.l && a.gmitc.drawn == old(a.gmitc.drawn) + 8 * Batches(a.acc.at.l)
    ensures var drawn := DrawnItems(SourceOf(alice, bob), old(alice.pos), a.acc.at.l);
      && Items(a.acc.at, b.acc.at) == Layered(old(Items(a.acc.at, b.acc.at)), AllSettled(drawn, alice.delta, bob.delta), r)
      && a.feq == old(a.feq) + Transcript(a.gmitc.cipher, old(a.gmitc.drawn), drawn, alice.delta, bob.delta)
  {
    hide Products, RelatedShares, Mitccrh8.Valid, StreamsRelated, Layered, AllSettled, DrawnItems, Transcript, Items, Batches;
    var sa, sb := DrawLayer(alice, bob, a.acc.at.l);
    LeakyAndHalfgate(alice.delta, bob.delta, sa, sb, a, b);
    BucketOneLayer(alice.delta, bob.delta, a.acc, b.acc, sa.at, sb.at, r);
  }

  /** The exchange of the opening bits and both parties' finish. */
  method OpenProducts(dA: Block, dB: Block, a: ComputeBuffer, b: ComputeBuffer)
    returns (sa: seq<Bundle>, sb: seq<Bundle>)
    requires a.Valid() && b.Valid() && SameShape(a.acc.at, b.acc.at) && Products(a.acc.at, b.acc.at, dA, dB)
    ensures |sa| == |sb| == a.acc.at.l
    ensures AllRelated(sa, sb, dA, dB)
    ensures forall k :: 0 <= k < a.acc.at.l ==>
      (sa[k], sb[k]) == Sigma(Items(a.acc.at, b.acc.at)[k], a.repA[k] != b.repA[k], a.repB[k] != b.repB[k], dA, dB)
    ensures forall k :: 0 <= k < a.acc.at.l ==>
      Opened(sa[k], sb[k]) == ((a.repA[k] != b.repA[k]) && (a.repB[k] != b.repB[k]))
  {
    hide Product, Related, OpenSigma;
    var xa, ya := a.OpeningBits();
    var xb, yb := b.OpeningBits();
    sa := a.Finish(Alice, dA, xa, ya, xb, yb);
    sb := b.Finish(Bob, dB, xb, yb, xa, ya);
    ghost var u, v := a.acc.at, b.acc.at;
    forall k | 0 <= k < u.l
      ensures Related(sa[k], sb[k], dA, dB)
      ensures Opened(sa[k], sb[k]) == ((a.repA[k] != b.repA[k]) && (a.repB[k] != b.repB[k]))
      ensures (sa[k], sb[k]) == Sigma(ItemAt(u, v, k), a.repA[k] != b.repA[k], a.repB[k] != b.repB[k], dA, dB)
    {
      assert ProductItem(u, v, k, dA, dB);
      OpeningMultiplies(u.X(k), u.Y(k), u.Z(k), v.X(k), v.Y(k), v.Z(k), a.repA[k] != b.repA[k],
                        a.repB[k] != b.repB[k], xa[k] != xb[k], ya[k] != yb[k], dA, dB);
    }
  }

  /** The items a call starts from: the operands as x and y, fresh shares as z. */
  function Operands(f: Source, start: nat, aliceA: seq<Bundle>, aliceB: seq<Bundle>, bobA: seq<Bundle>, bobB: seq<Bundle>): (s: seq<Item>)
    requires |aliceA| == |aliceB| == |bobA| == |bobB|
    ensures |s| == |aliceA|
  {
    seq(|aliceA|, k requires 0 <= k < |aliceA| =>
      Item(Triple(aliceA[k], aliceB[k], f.alice(f.session, start + k)), Triple(bobA[k], bobB[k], f.bob(f.session, start + k))))
  }

  /** The accumulator that a whole call opens: the operands settled, then every layer taken in. */
  function Accumulated(f: Source, start: nat, rotation: nat -> nat, bucket: nat,
                       aliceA: seq<Bundle>, aliceB: seq<Bundle>, bobA: seq<Bundle>, bobB: seq<Bundle>): (s: seq<Item>)
    requires |aliceA| == |aliceB| == |bobA| == |bobB| && bucket >= 1
    ensures |s| == |aliceA|
  {
    if aliceA == [] then []
    else AfterLayers(AllSettled(Operands(f, start, aliceA, aliceB, bobA, bobB), f.dA, f.dB), f, start + |aliceA|, rotation, bucket - 1)
  }

  /** ... and the equality transcript of the call. */
  function WholeTranscript(cipher: (nat, Block) -> Block, f: Source, start: nat, bucket: nat,
                           aliceA: seq<Bundle>, aliceB: seq<Bundle>, bobA: seq<Bundle>, bobB: seq<Bundle>): seq<Block>
    requires |aliceA| == |aliceB| == |bobA| == |bobB| && bucket >= 1
  {
    var l := |aliceA|;
    Transcript(cipher, 0, Operands(f, start, aliceA, aliceB, bobA, bobB), f.dA, f.dB) +
    LayerTranscript(cipher, 8 * Batches(l), f, start + l, l, bucket - 1)
  }

  lemma OperandItems(f: Source, start: nat, aliceA: seq<Bundle>, aliceB: seq<Bundle>, bobA: seq<Bundle>, bobB: seq<Bundle>,
                     randomA: seq<Bundle>, randomB: seq<Bundle>)
    requires |aliceA| == |aliceB| == |bobA| == |bobB| == |randomA| == |randomB|
    requires forall k :: 0 <= k < |aliceA| ==> randomA[k] == f.alice(f.session, start + k) && randomB[k] == f.bob(f.session, start + k)
    ensures SameShape(FromArms(aliceA, aliceB, randomA), FromArms(bobA, bobB, randomB))
    ensures Items(FromArms(aliceA, aliceB, randomA), FromArms(bobA, bobB, randomB)) == Operands(f, start, aliceA, aliceB, bobA, bobB)
  {
  }

  /** Both parties' fresh buffers, filled with the operands and shares just drawn. */
  method StartCompute(alice: Pool, bob: Pool, cipher: (nat, Block) -> Block, sigma: Block -> Block,
                      aliceA: seq<Bundle>, aliceB: seq<Bundle>, bobA: seq<Bundle>, bobB: seq<Bundle>)
    returns (a: ComputeBuffer, b: ComputeBuffer)
    requires PoolsPaired(alice, bob)
    requires |aliceA| == |aliceB| == |bobA| == |bobB|
    requires AllRelated(aliceA, bobA, alice.delta, bob.delta) && AllRelated(aliceB, bobB, alice.delta, bob.delta)
    modifies alice`pos, bob`pos
    ensures PoolsPaired(alice, bob) && alice.pos == old(alice.pos) + |aliceA|
    ensures InStep(a, b) && a.acc.at.l == |aliceA|
    ensures fresh({a, b, a.acc, b.acc, a.gmitc, a.emitc, b.gmitc, b.emitc})
    ensures RelatedShares(a.acc.at, b.acc.at, alice.delta, bob.delta)
    ensures Items(a.acc.at, b.acc.at) == Operands(SourceOf(alice, bob), old(alice.pos), aliceA, aliceB, bobA, bobB)
    ensures a.feq == [] && a.gmitc.drawn == 0 && a.gmitc.cipher == cipher
    ensures forall k :: 0 <= k < |aliceA| ==> (a.repA[k] != b.repA[k]) == Opened(aliceA[k], bobA[k])
    ensures forall k :: 0 <= k < |aliceA| ==> (a.repB[k] != b.repB[k]) == Opened(aliceB[k], bobB[k])
  {
    hide Related, FromArms, AllRelated, RelatedShares, StreamsRelated, Items, Operands;
    var l := |aliceA|;
    var randomA := alice.Draw(l);
    var randomB := bob.Draw(l);
    DrawnRelated(alice, bob, old(alice.pos), randomA, randomB);
    ArmsRelated(aliceA, aliceB, randomA, bobA, bobB, randomB, alice.delta, bob.delta);
    OperandItems(SourceOf(alice, bob), old(alice.pos), aliceA, aliceB, bobA, bobB, randomA, randomB);
    a := new ComputeBuffer(cipher, sigma, aliceA, aliceB, randomA);
    b := new ComputeBuffer(cipher, sigma, bobA, bobB, randomB);
  }

  lemma StepParts(a: ComputeBuffer, b: ComputeBuffer)
    requires InStep(a, b)
    ensures a.Valid() && b.Valid() && SameShape(a.acc.at, b.acc.at) && a.feq == b.feq
  {
  }

  /** The first leaky AND, on the accumulators themselves. */
  method SettleOperands(dA: Block, dB: Block, a: ComputeBuffer, b: ComputeBuffer)
    requires NormalDeltas(dA, dB) && InStep(a, b) && RelatedShares(a.acc.at, b.acc.at, dA, dB)
    modifies a.acc, b.acc, a`feq, b`feq, a.gmitc, a.emitc, b.gmitc, b.emitc
    ensures InStep(a, b) && a.acc.at.l == old(a.acc.at.l) && Products(a.acc.at, b.acc.at, dA, dB)
    ensures Items(a.acc.at, b.acc.at) == AllSettled(old(Items(a.acc.at, b.acc.at)), dA, dB)
    ensures a.feq == old(a.feq) + Transcript(a.gmitc.cipher, old(a.gmitc.drawn), old(Items(a.acc.at, b.acc.at)), dA, dB)
    ensures a.gmitc.drawn == old(a.gmitc.drawn) + 8 * Batches(old(a.acc.at.l))
  {
    hide Related, RelatedShares, Products, Mitccrh8.Valid, Items, AllSettled, Transcript, Batches;
    LeakyAndHalfgate(dA, dB, a.acc, b.acc, a, b);
  }

  /** The buffers of a whole call before they are opened. */
  method Accumulate(alice: Pool, bob: Pool, cipher: (nat, Block) -> Block, sigma: Block -> Block, rotation: nat -> nat, bucket: nat,
                    aliceA: seq<Bundle>, aliceB: seq<Bundle>, bobA: seq<Bundle>, bobB: seq<Bundle>)
    returns (a: ComputeBuffer, b: ComputeBuffer)
    requires PoolsPaired(alice, bob) && bucket >= 1
    requires |aliceA| == |aliceB| == |bobA| == |bobB| > 0
    requires AllRelated(aliceA, bobA, alice.delta, bob.delta) && AllRelated(aliceB, bobB, alice.delta, bob.delta)
    modifies alice`pos, bob`pos
    ensures PoolsPaired(alice, bob) && alice.pos == old(alice.pos) + |aliceA| * (3 * bucket - 2)
    ensures InStep(a, b) && a.acc.at.l == |aliceA| && Products(a.acc.at, b.acc.at, alice.delta, bob.delta)
    ensures Items(a.acc.at, b.acc.at) == Accumulated(SourceOf(alice, bob), old(alice.pos), rotation, bucket, aliceA, aliceB, bobA, bobB)
    ensures a.feq == WholeTranscript(cipher, SourceOf(alice, bob), old(alice.pos), bucket, aliceA, aliceB, bobA, bobB)
    ensures forall k :: 0 <= k < |aliceA| ==> (a.repA[k] != b.repA[k]) == Opened(aliceA[k], bobA[k])
    ensures forall k :: 0 <= k < |aliceA| ==> (a.repB[k] != b.repB[k]) == Opened(aliceB[k], bobB[k])
  {
    hide ItemAt, Settled, Shares.X, Shares.Y, Shares.Z, FromArms, Related, RelatedShares, Products, Mitccrh8.Valid, StreamsRelated, Items, AllSettled, AfterLayers, Transcript, LayerTranscript, Operands, Batches, Accumulated, WholeTranscript, AllRelated, Opened, InStep;
    ghost var f, start := SourceOf(alice, bob), alice.pos;
    a, b := StartCompute(alice, bob, cipher, sigma, aliceA, aliceB, bobA, bobB);
    StepParts(a, b);
    ghost var items := Items(a.acc.at, b.acc.at);
    SettleOperands(alice.delta, bob.delta, a, b);
    StepParts(a, b);
    ghost var settled := Items(a.acc.at, b.acc.at);
    assert items == Operands(f, start, aliceA, aliceB, bobA, bobB) && settled == AllSettled(items, f.dA, f.dB);
    LayeredBucket(alice, bob, a, b, bucket, rotation);
    WholeCall(cipher, f, start, rotation, bucket, aliceA, aliceB, bobA, bobB);
    StepParts(a, b);
    DrawnInAll(|aliceA|, bucket);
  }

  /** compute_inplace on both sides: for any operands, any number of layers and any rotations the equality check
  compares the digests of the call's transcript, and every sigma is what opening the accumulator gives: a pair of
  related shares of the product. `forged` is a digest that reaches a party in place of the other's. */
  method ComputeInplace<D(==)>(alice: Pool, bob: Pool, cipher: (nat, Block) -> Block, sigma: Block -> Block,
                               digest: seq<Block> -> D, forged: Option<D>, rotation: nat -> nat, bucket: nat,
                               aliceA: seq<Bundle>, aliceB: seq<Bundle>, bobA: seq<Bundle>, bobB: seq<Bundle>)
    returns (out: Result<(seq<Bundle>, seq<Bundle>)>)
    requires PoolsPaired(alice, bob) && bucket >= 1
    requires |aliceA| == |aliceB| == |bobA| == |bobB|
    requires AllRelated(aliceA, bobA, alice.delta, bob.delta) && AllRelated(aliceB, bobB, alice.delta, bob.delta)
    modifies alice`pos, bob`pos
    ensures PoolsPaired(alice, bob)
    ensures alice.pos == old(alice.pos) + |aliceA| * (3 * bucket - 2)
    ensures out == FeqMismatch <==>
      && aliceA != [] && forged.Some?
      && forged.value != digest(WholeTranscript(cipher, SourceOf(alice, bob), old(alice.pos), bucket, aliceA, aliceB, bobA, bobB))
    ensures out.Success? ==>
      && AllRelated(out.value.0, out.value.1, alice.delta, bob.delta) && |out.value.0| == |aliceA|
      && (forall k :: 0 <= k < |aliceA| ==>
        Opened(out.value.0[k], out.value.1[k]) == (Opened(aliceA[k], bobA[k]) && Opened(aliceB[k], bobB[k])))
      && var acc := Accumulated(SourceOf(alice, bob), old(alice.pos), rotation, bucket, aliceA, aliceB, bobA, bobB);
         forall k :: 0 <= k < |aliceA| ==>
           (out.value.0[k], out.value.1[k]) == Sigma(acc[k], Opened(aliceA[k], bobA[k]), Opened(aliceB[k], bobB[k]), alice.delta, bob.delta)
  {
    hide Related, RelatedShares, Products, Mitccrh8.Valid, StreamsRelated, Items, AllSettled, AfterLayers, Transcript, LayerTranscript, Operands, Batches, Sigma, Accumulated, WholeTranscript, AllRelated, Opened, InStep;
    var l := |aliceA|;
    if l == 0 {
      return Success(([], []));
    }
    var a, b := Accumulate(alice, bob, cipher, sigma, rotation, bucket, aliceA, aliceB, bobA, bobB);
    StepParts(a, b);
    var received := if forged.Some? then forged.value else digest(b.feq);
    if digest(a.feq) != received {
      return FeqMismatch;
    }
    var sa, sb := OpenProducts(alice.delta, bob.delta, a, b);
    return Success((sa, sb));
  }

  lemma WholeCall(cipher: (nat, Block) -> Block, f: Source, start: nat, rotation: nat -> nat, bucket: nat,
                  aliceA: seq<Bundle>, aliceB: seq<Bundle>, bobA: seq<Bundle>, bobB: seq<Bundle>)
    requires |aliceA| == |aliceB| == |bobA| == |bobB| > 0 && bucket >= 1
    ensures var items, l := Operands(f, start, aliceA, aliceB, bobA, bobB), |aliceA|;
      && Accumulated(f, start, rotation, bucket, aliceA, aliceB, bobA, bobB) == AfterLayers(AllSettled(items, f.dA, f.dB), f, start + l, rotation, bucket - 1)
      && WholeTranscript(cipher, f, start, bucket, aliceA, aliceB, bobA, bobB) ==
        [] + Transcript(cipher, 0, items, f.dA, f.dB) + LayerTranscript(cipher, 8 * Batches(l), f, start + l, l, bucket - 1)
  {
    hide AfterLayers, AllSettled, Operands, Transcript, LayerTranscript, Batches;
  }

  lemma DrawnInAll(l: nat, bucket: nat)
    requires bucket >= 1
    ensures l + 3 * l * (bucket - 1) == l * (3 * bucket - 2)
  {
  }
}

/** The algebra of one item of the triple generator: leaky AND, bucketing layer, final opening. */
module Triples {
  import opened Blocks
  import opened Auth

  /** `c` of the leaky AND: the masked y-share. */
  function Cross(y: Bundle, delta: Block): Block {
    Xor(Xor(Select(y.Bit(), delta), y.key), y.mac)
  }

  /** The block leaky_and_prepare_g sends to the peer: `h0` and `h1` hash the key and the key ^ Δ. */
  function Masked(h0: Block, h1: Block, y: Bundle, delta: Block): Block {
    Xor(Xor(h0, h1), Cross(y, delta))
  }

  function GBlock(cipher: (nat, Block) -> Block, bucket: nat, x: Bundle, y: Bundle, delta: Block): Block {
    Masked(cipher(bucket, x.key), cipher(bucket, Xor(x.key, delta)), y, delta)
  }

  /** `sout` of leaky_and_prepare_s, from the hashes of key and MAC and the peer's block `w`. */
  function Combined(hk: Block, hm: Block, x: Bundle, y: Bundle, z: Bundle, delta: Block, w: Block): Block {
    var e := Xor(hm, Select(x.Bit(), w));
    Xor(Xor(Xor(Xor(Xor(hk, e), z.key), z.mac), Select(x.Bit(), Cross(y, delta))), Select(z.Bit(), delta))
  }

  function SBlock(cipher: (nat, Block) -> Block, bucket: nat,
                  x: Bundle, y: Bundle, z: Bundle, delta: Block, w: Block): Block {
    Combined(cipher(bucket, x.key), cipher(bucket, x.mac), x, y, z, delta, w)
  }

  lemma CrossIsDual(a: Bundle, b: Bundle, dA: Block, dB: Block)
    requires Related(a, b, dA, dB)
    ensures Cross(a, dA) == Xor(Xor(Dual(a, dA), Dual(b, dB)), Select(Opened(a, b), dB))
    ensures Cross(b, dB) == Xor(Xor(Dual(a, dA), Dual(b, dB)), Select(Opened(a, b), dA))
  {
    MacIsDual(a, b, dA, dB);
    var x, y := Dual(a, dA), Dual(b, dB);
    XorGroup(a.key, Select(a.Bit(), dA), ZERO);
    XorGroup(b.key, Select(b.Bit(), dB), ZERO);
    XorGroup(x, y, Select(Opened(a, b), dB));
    XorGroup(y, x, Select(Opened(a, b), dA));
    XorGroup(x, y, ZERO);
  }

  /** Both cross terms together carry the shared bit times the sum of the two Δs. */
  lemma CrossSum(a: Bundle, b: Bundle, dA: Block, dB: Block)
    requires Related(a, b, dA, dB)
    ensures Xor(Cross(a, dA), Cross(b, dB)) == Select(Opened(a, b), Xor(dA, dB))
  {
    CrossIsDual(a, b, dA, dB);
    var d, p := Xor(Dual(a, dA), Dual(b, dB)), Opened(a, b);
    XorSwap(d, Select(p, dB), d, Select(p, dA));
    XorGroup(d, d, d);
    XorGroup(Select(p, dB), Select(p, dA), ZERO);
    XorGroup(Xor(Select(p, dB), Select(p, dA)), ZERO, ZERO);
    SelectLinear(p, p, dA, dB);
  }

  /** One party's half of the leaky AND: hashing the MAC and unmasking the peer's block
  leaves the peer's key hash and the peer's cross term times the own share. */
  lemma HalfGate(cipher: (nat, Block) -> Block, bucket: nat, own: Bundle, peer: Bundle, y: Bundle, delta: Block)
    requires own.mac == Xor(peer.key, Select(own.Bit(), delta))
    ensures Xor(cipher(bucket, own.mac), Select(own.Bit(), GBlock(cipher, bucket, peer, y, delta)))
         == Xor(cipher(bucket, peer.key), Select(own.Bit(), Cross(y, delta)))
  {
    XorGroup(peer.key, ZERO, ZERO);
    XorGroup(cipher(bucket, peer.key), ZERO, ZERO);
    var h0, h1, c := cipher(bucket, peer.key), cipher(bucket, Xor(peer.key, delta)), Cross(y, delta);
    if own.Bit() {
      calc {
        Xor(h1, Xor(Xor(h0, h1), c));
        { XorGroup(h0, h1, c); XorGroup(h1, h0, c); }
        Xor(h1, Xor(h1, Xor(h0, c)));
        { XorCancel(Xor(h0, c), h1); }
        Xor(h0, c);
      }
    }
  }

  /** The leaky AND: what the two parties compute differs by (x·y ^ z)·(ΔA ^ ΔB). */
  lemma LeakyAndDifference(cipher: (nat, Block) -> Block, bucket: nat, xa: Bundle, ya: Bundle, za: Bundle,
                 xb: Bundle, yb: Bundle, zb: Bundle, dA: Block, dB: Block)
    requires Related(xa, xb, dA, dB) && Related(ya, yb, dA, dB) && Related(za, zb, dA, dB)
    ensures var sa := SBlock(cipher, bucket, xa, ya, za, dA, GBlock(cipher, bucket, xb, yb, dB));
            var sb := SBlock(cipher, bucket, xb, yb, zb, dB, GBlock(cipher, bucket, xa, ya, dA));
            Xor(sa, sb) == Select((Opened(xa, xb) && Opened(ya, yb)) != Opened(za, zb), Xor(dA, dB))
  {
    var ha, hb := cipher(bucket, xa.key), cipher(bucket, xb.key);
    var ca, cb := Cross(ya, dA), Cross(yb, dB);
    var wa, wb := GBlock(cipher, bucket, xb, yb, dB), GBlock(cipher, bucket, xa, ya, dA);
    HalfGate(cipher, bucket, xa, xb, yb, dB);
    HalfGate(cipher, bucket, xb, xa, ya, dA);
    SOrder(ha, Xor(cipher(bucket, xa.mac), Select(xa.Bit(), wa)), za, Select(xa.Bit(), ca), dA);
    SOrder(hb, Xor(cipher(bucket, xb.mac), Select(xb.Bit(), wb)), zb, Select(xb.Bit(), cb), dB);
    CrossSum(ya, yb, dA, dB);
    CrossSum(za, zb, dA, dB);
    Collect(ha, hb, xa.Bit(), xb.Bit(), ca, cb, Cross(za, dA), Cross(zb, dB));
    var d := Xor(dA, dB);
    SelectLinear(Opened(xa, xb), Opened(ya, yb), d, d);
    SelectLinear(Opened(xa, xb) && Opened(ya, yb), Opened(za, zb), d, d);
  }

  lemma SOrder(hk: Block, e: Block, z: Bundle, xc: Block, delta: Block)
    ensures Xor(Xor(Xor(Xor(Xor(hk, e), z.key), z.mac), xc), Select(z.Bit(), delta))
         == Xor(Xor(Xor(hk, e), xc), Cross(z, delta))
  {
    var s := Xor(hk, e);
    var l := Xor(Xor(Xor(Xor(s, z.key), z.mac), xc), Select(z.Bit(), delta));
    var r := Xor(Xor(s, xc), Cross(z, delta));
    assert forall i | 0 <= i < BLOCK_BITS :: l[i] == r[i];
  }

  lemma Collect(ha: Block, hb: Block, xa: bool, xb: bool, ca: Block, cb: Block, za: Block, zb: Block)
    ensures Xor(Xor(Xor(Xor(ha, Xor(hb, Select(xa, cb))), Select(xa, ca)), za),
                Xor(Xor(Xor(hb, Xor(ha, Select(xb, ca))), Select(xb, cb)), zb))
         == Xor(Select(xa != xb, Xor(ca, cb)), Xor(za, zb))
  {
    var pa := Xor(Xor(ha, Xor(hb, Select(xa, cb))), Select(xa, ca));
    var pb := Xor(Xor(hb, Xor(ha, Select(xb, ca))), Select(xb, cb));
    var h, c := Xor(ha, hb), Xor(ca, cb);
    HashesOut(ha, hb, xa, ca, cb);
    HashesOut(hb, ha, xb, cb, ca);
    XorGroup(ha, hb, ZERO);
    XorGroup(ca, cb, ZERO);
    XorSwap(pa, za, pb, zb);
    XorSwap(h, Select(xa, c), h, Select(xb, c));
    XorGroup(h, h, h);
    SelectLinear(xa, xb, c, c);
    XorGroup(Select(xa != xb, c), ZERO, ZERO);
  }

  lemma HashesOut(ha: Block, hb: Block, x: bool, ca: Block, cb: Block)
    ensures Xor(Xor(ha, Xor(hb, Select(x, cb))), Select(x, ca)) == Xor(Xor(ha, hb), Select(x, Xor(ca, cb)))
  {
    var l := Xor(Xor(ha, Xor(hb, Select(x, cb))), Select(x, ca));
    var r := Xor(Xor(ha, hb), Select(x, Xor(ca, cb)));
    assert forall i | 0 <= i < BLOCK_BITS :: l[i] == r[i];
  }

  /** leaky_and_finish: bit 1 of the two blocks tells whether z has to be flipped, after which
  z is the product and both parties feed the same block to the transcript. */
  lemma LeakyAndSettles(xa: Bundle, ya: Bundle, za: Bundle, xb: Bundle, yb: Bundle, zb: Bundle,
                       dA: Block, dB: Block, sa: Block, sb: Block)
    requires Related(za, zb, dA, dB) && NormalDeltas(dA, dB)
    requires Xor(sa, sb) == Select((Opened(xa, xb) && Opened(ya, yb)) != Opened(za, zb), Xor(dA, dB))
    ensures var d := Lsb1(sa) != Lsb1(sb);
            var za', zb' := AddPublic(Alice, d, za, dA), AddPublic(Bob, d, zb, dB);
            && Related(za', zb', dA, dB)
            && Opened(za', zb') == (Opened(xa, xb) && Opened(ya, yb))
            && Xor(sa, Select(d, dA)) == Xor(sb, Select(d, dB))
            && d == ((Opened(xa, xb) && Opened(ya, yb)) != Opened(za, zb))
  {
    var d := Lsb1(sa) != Lsb1(sb);
    var p := (Opened(xa, xb) && Opened(ya, yb)) != Opened(za, zb);
    assert Xor(sa, sb)[1] == Select(p, Xor(dA, dB))[1];
    assert d == p;
    RelatedAddPublic(d, za, zb, dA, dB);
    SelectLinear(d, d, dA, dB);
    XorSwap(sa, sb, Select(d, dA), Select(d, dB));
    XorSwap(sa, Select(d, dA), sb, Select(d, dB));
    XorGroup(Xor(sa, sb), ZERO, ZERO);
    XorCancel(Xor(sa, Select(d, dA)), Xor(sb, Select(d, dB)));
  }

  /** Three shared bits x, y, z with z the product of x and y. */
  predicate Product(xa: Bundle, ya: Bundle, za: Bundle, xb: Bundle, yb: Bundle, zb: Bundle, dA: Block, dB: Block) {
    && Related(xa, xb, dA, dB) && Related(ya, yb, dA, dB) && Related(za, zb, dA, dB)
    && Opened(za, zb) == (Opened(xa, xb) && Opened(ya, yb))
  }

  /** The z-share after one bucketing layer: `d` opens the difference of the two y's. */
  function BucketZ(z: Bundle, layerX: Bundle, layerZ: Bundle, d: bool): Bundle {
    Add(Add(z, layerZ), Scale(d, layerX))
  }

  /** One bucketing layer keeps the triple a product: x absorbs the layer's x, y stays. */
  lemma BucketKeepsProduct(xa: Bundle, ya: Bundle, za: Bundle, xb: Bundle, yb: Bundle, zb: Bundle,
               ua: Bundle, va: Bundle, wa: Bundle, ub: Bundle, vb: Bundle, wb: Bundle,
               d: bool, dA: Block, dB: Block)
    requires Product(xa, ya, za, xb, yb, zb, dA, dB)
    requires Product(ua, va, wa, ub, vb, wb, dA, dB)
    requires d == (Opened(ya, yb) != Opened(va, vb))
    ensures Product(Add(xa, ua), ya, BucketZ(za, ua, wa, d), Add(xb, ub), yb, BucketZ(zb, ub, wb, d), dA, dB)
  {
    RelatedAdd(xa, xb, ua, ub, dA, dB);
    RelatedAdd(za, zb, wa, wb, dA, dB);
    RelatedScale(d, ua, ub, dA, dB);
    RelatedAdd(Add(za, wa), Add(zb, wb), Scale(d, ua), Scale(d, ub), dA, dB);
  }

  /** The sigma share of `finish`: z, corrected by the opened differences of the operands. */
  function OpenSigma(party: Role, x: Bundle, y: Bundle, z: Bundle, dx: bool, dy: bool, delta: Block): Bundle {
    AddPublic(party, dx && dy, Add(Add(z, Scale(dx, y)), Scale(dy, x)), delta)
  }

  /** Beaver-style opening: the triple turns into shares of a·b. */
  lemma OpeningMultiplies(xa: Bundle, ya: Bundle, za: Bundle, xb: Bundle, yb: Bundle, zb: Bundle,
                a: bool, b: bool, dx: bool, dy: bool, dA: Block, dB: Block)
    requires Product(xa, ya, za, xb, yb, zb, dA, dB)
    requires dx == (a != Opened(xa, xb)) && dy == (b != Opened(ya, yb))
    ensures var sa, sb := OpenSigma(Alice, xa, ya, za, dx, dy, dA), OpenSigma(Bob, xb, yb, zb, dx, dy, dB);
            Related(sa, sb, dA, dB) && Opened(sa, sb) == (a && b)
  {
    RelatedScale(dx, ya, yb, dA, dB);
    RelatedScale(dy, xa, xb, dA, dB);
    RelatedAdd(za, zb, Scale(dx, ya), Scale(dx, yb), dA, dB);
    RelatedAdd(Add(za, Scale(dx, ya)), Add(zb, Scale(dx, yb)), Scale(dy, xa), Scale(dy, xb), dA, dB);
    RelatedAddPublic(dx && dy, Add(Add(za, Scale(dx, ya)), Scale(dy, xa)),
                     Add(Add(zb, Scale(dx, yb)), Scale(dy, xb)), dA, dB);
  }

  // ---- one item on both sides ----

  /** One party's shares of an item. */
  datatype Triple = Triple(x: Bundle, y: Bundle, z: Bundle)

  /** Both parties' shares of an item. */
  datatype Item = Item(a: Triple, b: Triple) {
    function X(): bool { Opened(a.x, b.x) }
    function Y(): bool { Opened(a.y, b.y) }
    function Z(): bool { Opened(a.z, b.z) }
  }

  /** Does the opened bit of the leaky AND tell the parties to flip z? */
  function Flips(i: Item): bool {
    (i.X() && i.Y()) != i.Z()
  }

  /** The item after leaky_and_halfgate: z corrected to the product, nothing else touched. */
  function Settled(i: Item, dA: Block, dB: Block): Item {
    Item(i.a.(z := AddPublic(Alice, Flips(i), i.a.z, dA)), i.b.(z := AddPublic(Bob, Flips(i), i.b.z, dB)))
  }

  /** Alice's leaky-AND block of an item. */
  function LeakyBlock(cipher: (nat, Block) -> Block, bucket: nat, i: Item, dA: Block, dB: Block): Block {
    SBlock(cipher, bucket, i.a.x, i.a.y, i.a.z, dA, GBlock(cipher, bucket, i.b.x, i.b.y, dB))
  }

  /** The block Alice feeds to the equality transcript for an item; Bob's is the same. */
  function FeqBlock(cipher: (nat, Block) -> Block, bucket: nat, i: Item, dA: Block, dB: Block): Block {
    Xor(LeakyBlock(cipher, bucket, i, dA, dB), Select(Flips(i), dA))
  }

  /** An accumulator item after a layer's item went in. */
  function Bucketed(acc: Item, layer: Item): Item {
    var d := acc.Y() != layer.Y();
    Item(Triple(Add(acc.a.x, layer.a.x), acc.a.y, BucketZ(acc.a.z, layer.a.x, layer.a.z, d)),
         Triple(Add(acc.b.x, layer.b.x), acc.b.y, BucketZ(acc.b.z, layer.b.x, layer.b.z, d)))
  }

  /** The sigma shares that finish makes of an item for operands that open to `p` and `q`. */
  function Sigma(i: Item, p: bool, q: bool, dA: Block, dB: Block): (Bundle, Bundle) {
    var dx, dy := p != i.X(), q != i.Y();
    (OpenSigma(Alice, i.a.x, i.a.y, i.a.z, dx, dy, dA), OpenSigma(Bob, i.b.x, i.b.y, i.b.z, dx, dy, dB))
  }
}

/** Authenticated shares.

A bit `r` is split into two bits, each carried in the low bit of a MAC that the other party can check
with its key and its Δ. */
module Auth {
  import opened Blocks

  /** AShareBundle */
  datatype Bundle = Bundle(mac: Block, key: Block) {
    /** The share this party holds. */
    predicate Bit() { Lsb(mac) }
  }

  const PUBLIC: Bundle := Bundle(ZERO, ZERO)

  function Add(x: Bundle, y: Bundle): Bundle {
    Bundle(Xor(x.mac, y.mac), Xor(x.key, y.key))
  }

  function Scale(bit: bool, x: Bundle): Bundle {
    Bundle(Select(bit, x.mac), Select(bit, x.key))
  }

  /** The relation `verify_share_relation` checks on one pair of shares. */
  predicate Related(a: Bundle, b: Bundle, dA: Block, dB: Block) {
    && a.mac == Xor(b.key, Select(a.Bit(), dB))
    && b.mac == Xor(a.key, Select(b.Bit(), dA))
  }

  predicate AllRelated(a: seq<Bundle>, b: seq<Bundle>, dA: Block, dB: Block) {
    |a| == |b| && forall i :: 0 <= i < |a| ==> Related(a[i], b[i], dA, dB)
  }

  /** The bit the two shares stand for. */
  predicate Opened(a: Bundle, b: Bundle) {
    a.Bit() != b.Bit()
  }

  /** normalize_ag2pc_delta: what it makes of the two Δs. */
  predicate NormalDeltas(dA: Block, dB: Block) {
    Lsb(dA) && Lsb(dB) && Lsb1(dA) && !Lsb1(dB)
  }

  /** normalize_ag2pc_delta */
  function NormalizeDelta(party: Role, delta: Block): Block {
    delta[0 := true][1 := party == Alice]
  }

  lemma NormalizedDeltas(x: Block, y: Block)
    ensures NormalDeltas(NormalizeDelta(Alice, x), NormalizeDelta(Bob, y))
  {
  }

  /** What a party adds to a product it masks: `key ^ r·Δ`. */
  function Dual(x: Bundle, delta: Block): Block {
    Xor(x.key, Select(x.Bit(), delta))
  }

  lemma AddBits(x: Bundle, y: Bundle)
    ensures Add(x, y).Bit() == (x.Bit() != y.Bit())
  {
  }

  lemma ScaleBit(bit: bool, x: Bundle)
    ensures Scale(bit, x).Bit() == (bit && x.Bit())
  {
  }

  lemma DualAdd(x: Bundle, y: Bundle, delta: Block)
    ensures Dual(Add(x, y), delta) == Xor(Dual(x, delta), Dual(y, delta))
  {
    SelectLinear(x.Bit(), y.Bit(), delta, delta);
    XorSwap(x.key, Select(x.Bit(), delta), y.key, Select(y.Bit(), delta));
  }

  lemma DualScale(bit: bool, x: Bundle, delta: Block)
    ensures Dual(Scale(bit, x), delta) == Select(bit, Dual(x, delta))
  {
    XorGroup(ZERO, ZERO, ZERO);
  }

  /** The relation is linear: it survives adding two shared bits. */
  lemma RelatedAdd(a: Bundle, b: Bundle, a': Bundle, b': Bundle, dA: Block, dB: Block)
    requires Related(a, b, dA, dB) && Related(a', b', dA, dB)
    ensures Related(Add(a, a'), Add(b, b'), dA, dB)
    ensures Opened(Add(a, a'), Add(b, b')) == (Opened(a, b) != Opened(a', b'))
  {
    AddBits(a, a');
    AddBits(b, b');
    SelectLinear(a.Bit(), a'.Bit(), dB, dB);
    SelectLinear(b.Bit(), b'.Bit(), dA, dA);
    XorSwap(b.key, Select(a.Bit(), dB), b'.key, Select(a'.Bit(), dB));
    XorSwap(a.key, Select(b.Bit(), dA), a'.key, Select(b'.Bit(), dA));
  }

  /** ... and multiplying by a public bit. */
  lemma RelatedScale(bit: bool, a: Bundle, b: Bundle, dA: Block, dB: Block)
    requires Related(a, b, dA, dB)
    ensures Related(Scale(bit, a), Scale(bit, b), dA, dB)
    ensures Opened(Scale(bit, a), Scale(bit, b)) == (bit && Opened(a, b))
  {
    XorGroup(ZERO, ZERO, ZERO);
  }

  /** Adding a public bit: Alice flips her MAC's low bit, Bob moves his key by Δ ^ 1.
  Keys keep a clear low bit because Bob's Δ has its low bit set. */
  function AddPublic(party: Role, bit: bool, x: Bundle, delta: Block): Bundle {
    if party == Alice
    then Bundle(Xor(x.mac, Select(bit, BIT0)), x.key)
    else Bundle(x.mac, Xor(x.key, Select(bit, Xor(delta, BIT0))))
  }

  lemma RelatedAddPublic(bit: bool, a: Bundle, b: Bundle, dA: Block, dB: Block)
    requires Related(a, b, dA, dB)
    ensures var a', b' := AddPublic(Alice, bit, a, dA), AddPublic(Bob, bit, b, dB);
            Related(a', b', dA, dB) && Opened(a', b') == (bit != Opened(a, b))
  {
    var a', b' := AddPublic(Alice, bit, a, dA), AddPublic(Bob, bit, b, dB);
    if bit {
      assert a'.Bit() == !a.Bit();
      var r := Xor(b'.key, Select(a'.Bit(), dB));
      assert forall i | 0 <= i < BLOCK_BITS :: a'.mac[i] == r[i];
    } else {
      XorGroup(a.mac, b.key, b.key);
      XorGroup(b.key, b.key, b.key);
    }
  }

  /** The MAC one party holds is the other party's dual, off by the shared bit times Δ. */
  lemma MacIsDual(a: Bundle, b: Bundle, dA: Block, dB: Block)
    requires Related(a, b, dA, dB)
    ensures b.mac == Xor(Dual(a, dA), Select(Opened(a, b), dA))
    ensures a.mac == Xor(Dual(b, dB), Select(Opened(a, b), dB))
  {
    SelectLinear(a.Bit(), Opened(a, b), dA, dA);
    SelectLinear(b.Bit(), Opened(a, b), dB, dB);
    XorGroup(a.key, Select(a.Bit(), dA), Select(Opened(a, b), dA));
    XorGroup(b.key, Select(b.Bit(), dB), Select(Opened(a, b), dB));
  }

}

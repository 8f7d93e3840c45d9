/** The carry-less-multiply form of the field arithmetic: four 64-bit products, then the high half folded down twice. */
module ClmulGf {
  import opened Blocks
  import opened GF128
  import opened SoftGf

  function Low(a: Block): Word {
    seq(WORD, i requires 0 <= i < WORD => a[i])
  }

  function High(a: Block): Word {
    seq(WORD, i requires 0 <= i < WORD => a[WORD + i])
  }

  /** _mm_clmulepi64_si128 on the selected words. */
  function Clmul(x: Word, y: Word): Block {
    PolyMul(x, y)
  }

  /** The whole register shifted up by `k` bits (`_mm_slli_si128` for k = 8·bytes). */
  function Up(a: Block, k: nat): Block {
    seq(BLOCK_BITS, i requires 0 <= i < BLOCK_BITS => i >= k && a[i - k])
  }

  /** ... and down. */
  function Down(a: Block, k: nat): Block {
    seq(BLOCK_BITS, i requires 0 <= i < BLOCK_BITS => i + k < BLOCK_BITS && a[i + k])
  }

  /** _mm_slli_epi64: each 64-bit lane shifted up. */
  function UpLanes(a: Block, k: nat): Block {
    seq(BLOCK_BITS, i requires 0 <= i < BLOCK_BITS => i % WORD >= k && a[i - k])
  }

  /** _mm_srli_epi64 */
  function DownLanes(a: Block, k: nat): Block {
    seq(BLOCK_BITS, i requires 0 <= i < BLOCK_BITS => i % WORD + k < WORD && a[i + k])
  }

  // ---- shifts and carries ----

  /** What a shift pushes out of the register comes back multiplied by x^128. */
  lemma Carry(a: Block, k: nat)
    requires k <= BLOCK_BITS
    ensures TimesXk(a, k) == Xor(Up(a, k), TimesXk(Down(a, BLOCK_BITS - k), BLOCK_BITS))
  {
    hide TimesX, TimesXk, Xor, Times;
    var p := ShiftedUp(a, k);
    var low, high: Poly := p[..BLOCK_BITS], p[BLOCK_BITS..];
    ResidueOfShifted(a, k);
    assert p == low + high;
    TimesAppend(ONE, low, high);
    assert low == Up(a, k);
    ResidueOfBlock(Up(a, k));
    ResidueOfShort(high);
    assert high + NoBits(BLOCK_BITS - k) == Down(a, BLOCK_BITS - k);
  }

  lemma {:induction false} TimesOfXk(a: Block, k: nat, p: Poly)
    ensures Times(TimesXk(a, k), p) == TimesXk(Times(a, p), k)
  {
    hide TimesX, Times;
    if k > 0 {
      TimesOfXk(a, k - 1, p);
      TimesOfX(TimesXk(a, k - 1), p);
    }
  }

  /** A block is its low word plus x^64 times its high word. */
  lemma Halves(a: Block)
    ensures a == Xor(Residue(Low(a)), TimesXk(Residue(High(a)), WORD))
  {
    hide TimesX, TimesXk, Xor, Times;
    assert Low(a) + High(a) == a;
    TimesAppend(ONE, Low(a), High(a));
    ResidueOfBlock(a);
  }

  /** A block times a polynomial, half by half. */
  lemma HalvesTimes(a: Block, p: Poly)
    ensures Times(a, p) == Xor(Residue(PolyMul(Low(a), p)), TimesXk(Residue(PolyMul(High(a), p)), WORD))
  {
    hide TimesX, TimesXk, Xor, Times, PolyMul, Low, High;
    Halves(a);
    TimesLinear(Residue(Low(a)), TimesXk(Residue(High(a)), WORD), p);
    TimesOfXk(Residue(High(a)), WORD, p);
    ProductResidue(Low(a), p);
    ProductResidue(High(a), p);
  }

  lemma ResidueOfClmul(x: Word, y: Word)
    ensures Residue(PolyMul(x, y)) == Clmul(x, y)
  {
    ResidueOfBlock(Clmul(x, y));
  }

  // ---- the reduction ----

  /** The constant register holding 0x87. */
  function TailWord(): Word {
    Low(TAIL)
  }

  /** A high half folded down twice onto a low one. */
  function Fold(lo: Block, hi: Block): Block {
    var c0 := Clmul(Low(hi), TailWord());
    var c1 := Clmul(High(hi), TailWord());
    var qLo := Xor(c0, Up(c1, WORD));
    var qHi := Down(c1, WORD);
    var e := Clmul(Low(qHi), TailWord());
    Xor(Xor(lo, qLo), e)
  }

  /** x^128·a, by two words against the tail. */
  lemma TopTimes(a: Block)
    ensures TimesXk(a, BLOCK_BITS) == Xor(Clmul(Low(a), TailWord()), TimesXk(Clmul(High(a), TailWord()), WORD))
  {
    hide TimesX, TimesXk, Xor, Times, PolyMul, Clmul;
    ResidueOfBlock(a);
    TimesOfXk(ONE, BLOCK_BITS, a);
    TopPower();
    Commutative(TAIL, a);
    assert TailWord() + NoBits(WORD) == TAIL;
    TimesAppend(a, TailWord(), NoBits(WORD));
    TimesOfNone(a, WORD);
    TimesXkZero(WORD);
    XorGroup(Times(a, TailWord()), ZERO, ZERO);
    HalvesTimes(a, TailWord());
    ResidueOfClmul(Low(a), TailWord());
    ResidueOfClmul(High(a), TailWord());
  }

  lemma EmptyHigh(c: Block)
    ensures Clmul(High(Down(c, WORD)), TailWord()) == ZERO
  {
    hide PolyMul;
    assert High(Down(c, WORD)) == NoBits(WORD);
    ProductResidue(NoBits(WORD), TailWord());
    TimesOfNone(ONE, WORD);
    TimesOfZero(TailWord());
    ResidueOfClmul(High(Down(c, WORD)), TailWord());
  }

  /** The fold is exact: nothing is left above bit 127 after the second round. */
  lemma FoldExact(lo: Block, hi: Block)
    ensures Fold(lo, hi) == Xor(lo, TimesXk(hi, BLOCK_BITS))
  {
    hide TimesX, TimesXk, Xor, Clmul, TailWord, Low, High, Up, Down;
    var c0, c1 := Clmul(Low(hi), TailWord()), Clmul(High(hi), TailWord());
    var qHi := Down(c1, WORD);
    var e := Clmul(Low(qHi), TailWord());
    TopTimes(hi);
    Carry(c1, WORD);
    TopTimes(qHi);
    EmptyHigh(c1);
    TimesXkZero(WORD);
    XorGroup(e, ZERO, ZERO);
    XorGroup(c0, Up(c1, WORD), e);
    XorGroup(lo, Xor(c0, Up(c1, WORD)), e);
  }

  /** gf_mul_clmul */
  function GfMulClmul(a: Block, b: Block): Block {
    var t0 := Clmul(Low(a), Low(b));
    var t3 := Clmul(High(a), High(b));
    var t1 := Clmul(High(a), Low(b));
    var t2 := Clmul(Low(a), High(b));
    var mid := Xor(t1, t2);
    Fold(Xor(t0, Up(mid, WORD)), Xor(t3, Down(mid, WORD)))
  }

  lemma FourProducts(a: Block, b: Block)
    ensures GfMul(a, b) == Xor(Xor(Clmul(Low(a), Low(b)), TimesXk(Xor(Clmul(High(a), Low(b)), Clmul(Low(a), High(b))), WORD)),
                               TimesXk(Clmul(High(a), High(b)), BLOCK_BITS))
  {
    hide TimesX, TimesXk, Xor, Times, PolyMul, Clmul;
    var t0, t1, t2, t3 := Clmul(Low(a), Low(b)), Clmul(High(a), Low(b)), Clmul(Low(a), High(b)), Clmul(High(a), High(b));
    assert Low(b) + High(b) == b;
    TimesAppend(a, Low(b), High(b));
    HalvesTimes(a, Low(b));
    HalvesTimes(a, High(b));
    ResidueOfClmul(Low(a), Low(b));
    ResidueOfClmul(High(a), Low(b));
    ResidueOfClmul(Low(a), High(b));
    ResidueOfClmul(High(a), High(b));
    TimesXkLinear(t2, TimesXk(t3, WORD), WORD);
    TimesXkAdd(t3, WORD, WORD);
    TimesXkLinear(t1, t2, WORD);
    XorGroup(t0, TimesXk(t1, WORD), Xor(TimesXk(t2, WORD), TimesXk(t3, BLOCK_BITS)));
    XorGroup(TimesXk(t1, WORD), TimesXk(t2, WORD), TimesXk(t3, BLOCK_BITS));
    XorGroup(t0, Xor(TimesXk(t1, WORD), TimesXk(t2, WORD)), TimesXk(t3, BLOCK_BITS));
  }

  /** The carry-less form is multiplication in the field, on all inputs. */
  lemma ClmulIsGfMul(a: Block, b: Block)
    ensures GfMulClmul(a, b) == GfMul(a, b)
  {
    hide TimesX, TimesXk, Xor, Times, Clmul, Fold, Up, Down, Low, High;
    var t0, t3 := Clmul(Low(a), Low(b)), Clmul(High(a), High(b));
    var mid := Xor(Clmul(High(a), Low(b)), Clmul(Low(a), High(b)));
    FourProducts(a, b);
    Carry(mid, WORD);
    FoldExact(Xor(t0, Up(mid, WORD)), Xor(t3, Down(mid, WORD)));
    TimesXkLinear(t3, Down(mid, WORD), BLOCK_BITS);
    var u, d, top := Up(mid, WORD), TimesXk(Down(mid, WORD), BLOCK_BITS), TimesXk(t3, BLOCK_BITS);
    XorGroup(t0, u, d);
    XorGroup(Xor(t0, u), d, top);
    XorGroup(top, d, d);
  }

  // ---- packing ----

  /** The first `n` shifted blocks of one byte's worth, as a low register and what was carried out of it. */
  function PackBits(data: seq<Block>, n: nat): (Block, Block)
    requires 1 <= n <= |data| && n <= 8
  {
    if n == 1 then (data[0], ZERO)
    else
      var (lo, hi) := PackBits(data, n - 1);
      var s, c := UpLanes(data[n - 1], n - 1), DownLanes(data[n - 1], WORD - (n - 1));
      (Xor(lo, Xor(s, Up(c, WORD))), Xor(hi, Down(c, WORD)))
  }

  /** One byte's registers, moved to bit `k` and added in. */
  function AddByte(lo: Block, hi: Block, clo: Block, chi: Block, k: nat): (Block, Block)
    requires k <= 120
  {
    if k == 0 then (Xor(lo, clo), Xor(hi, chi))
    else (Xor(lo, Up(clo, k)), Xor(hi, Xor(Down(clo, BLOCK_BITS - k), Up(chi, k))))
  }

  /** The registers after the first `n` groups of eight blocks. */
  function PackBytes(data: seq<Block>, n: nat): (Block, Block)
    requires 8 * n <= |data| && n <= 16
  {
    if n == 0 then (ZERO, ZERO)
    else
      var (lo, hi) := PackBytes(data, n - 1);
      var (clo, chi) := PackBits(data[8 * (n - 1)..8 * n], 8);
      AddByte(lo, hi, clo, chi, 8 * (n - 1))
  }

  /** gf_pack_128_clmul */
  function GfPackClmul(data: seq<Block>): Block
    requires |data| == BLOCK_BITS
  {
    var (lo, hi) := PackBytes(data, 16);
    Fold(lo, hi)
  }

  /** No bit at or above `k`. */
  predicate Small(a: Block, k: nat) {
    forall i :: k <= i < BLOCK_BITS ==> !a[i]
  }

  /** Lane shifts with the carry between the lanes are whole-register shifts. */
  lemma LaneCarry(a: Block, k: nat)
    requires 1 <= k <= 7
    ensures Xor(UpLanes(a, k), Up(DownLanes(a, WORD - k), WORD)) == Up(a, k)
    ensures Down(DownLanes(a, WORD - k), WORD) == Down(a, BLOCK_BITS - k)
    ensures Small(Down(a, BLOCK_BITS - k), 7)
  {
    assert forall i | 0 <= i < BLOCK_BITS :: Xor(UpLanes(a, k), Up(DownLanes(a, WORD - k), WORD))[i] == Up(a, k)[i];
  }

  /** low + x^128·high */
  function Wide(lo: Block, hi: Block): Block {
    Xor(lo, TimesXk(hi, BLOCK_BITS))
  }

  lemma WideAdd(a: Block, b: Block, c: Block, d: Block)
    ensures Wide(Xor(a, b), Xor(c, d)) == Xor(Wide(a, c), Wide(b, d))
  {
    hide TimesXk, Xor;
    TimesXkLinear(c, d, BLOCK_BITS);
    XorSwap(a, b, TimesXk(c, BLOCK_BITS), TimesXk(d, BLOCK_BITS));
  }

  lemma WideCarry(a: Block, k: nat)
    requires k <= BLOCK_BITS
    ensures Wide(Up(a, k), Down(a, BLOCK_BITS - k)) == TimesXk(a, k)
  {
    Carry(a, k);
  }

  lemma {:induction false} PackBitsExact(data: seq<Block>, n: nat)
    requires 1 <= n <= |data| && n <= 8
    ensures var (lo, hi) := PackBits(data, n); Wide(lo, hi) == Packed(data[..n]) && Small(hi, 7)
  {
    if n == 1 {
      assert data[..1][..0] == [];
      TimesXkZero(BLOCK_BITS);
      XorGroup(data[0], ZERO, ZERO);
    } else {
      hide TimesXk, Up, Down, UpLanes, DownLanes, Wide;
      var (lo, hi) := PackBits(data, n - 1);
      var d, k := data[n - 1], n - 1;
      PackBitsExact(data, n - 1);
      LaneCarry(d, k);
      WideAdd(lo, Up(d, k), hi, Down(d, BLOCK_BITS - k));
      WideCarry(d, k);
      assert data[..n][..n - 1] == data[..n - 1];
    }
  }

  /** Moving a byte's registers to their place. */
  lemma ByteShift(clo: Block, chi: Block, k: nat)
    requires Small(chi, 7) && 8 <= k <= 120
    ensures Wide(Up(clo, k), Xor(Down(clo, BLOCK_BITS - k), Up(chi, k))) == TimesXk(Wide(clo, chi), k)
  {
    hide TimesXk, Xor, Up;
    Carry(clo, k);
    Carry(chi, k);
    assert Down(chi, BLOCK_BITS - k) == ZERO;
    TimesXkZero(BLOCK_BITS);
    XorGroup(Up(chi, k), ZERO, ZERO);
    TimesXkLinear(clo, TimesXk(chi, BLOCK_BITS), k);
    TimesXkAdd(chi, BLOCK_BITS, k);
    TimesXkAdd(chi, k, BLOCK_BITS);
    TimesXkLinear(Down(clo, BLOCK_BITS - k), Up(chi, k), BLOCK_BITS);
    XorGroup(Up(clo, k), TimesXk(Down(clo, BLOCK_BITS - k), BLOCK_BITS), TimesXk(Up(chi, k), BLOCK_BITS));
  }

  lemma {:induction false} PackedAppend(a: seq<Block>, b: seq<Block>)
    ensures Packed(a + b) == Xor(Packed(a), TimesXk(Packed(b), |a|))
  {
    hide TimesXk, Xor;
    if b == [] {
      assert a + b == a;
      TimesXkZero(|a|);
      XorGroup(Packed(a), ZERO, ZERO);
    } else {
      var m := |b| - 1;
      assert (a + b)[..|a + b| - 1] == a + b[..m];
      PackedAppend(a, b[..m]);
      TimesXkLinear(Packed(b[..m]), TimesXk(b[m], m), |a|);
      TimesXkAdd(b[m], m, |a|);
      XorGroup(Packed(a), TimesXk(Packed(b[..m]), |a|), TimesXk(b[m], |a| + m));
    }
  }

  lemma AddByteExact(lo: Block, hi: Block, clo: Block, chi: Block, k: nat)
    requires Small(chi, 7) && (k == 0 || 8 <= k <= 120)
    ensures var (lo', hi') := AddByte(lo, hi, clo, chi, k); Wide(lo', hi') == Xor(Wide(lo, hi), TimesXk(Wide(clo, chi), k))
  {
    hide Xor, Up, Down, Wide;
    if k == 0 {
      WideAdd(lo, clo, hi, chi);
    } else {
      ByteShift(clo, chi, k);
      WideAdd(lo, Up(clo, k), hi, Xor(Down(clo, BLOCK_BITS - k), Up(chi, k)));
    }
  }

  lemma NothingPacked()
    ensures Wide(ZERO, ZERO) == Packed([])
  {
    TimesXkZero(BLOCK_BITS);
    XorGroup(ZERO, ZERO, ZERO);
  }

  lemma {:induction false} PackBytesExact(data: seq<Block>, n: nat)
    requires 8 * n <= |data| && n <= 16
    ensures var (lo, hi) := PackBytes(data, n); Wide(lo, hi) == Packed(data[..8 * n])
  {
    hide TimesXk, Xor, Wide, PackBits, Packed, AddByte, Small;
    if n == 0 {
      NothingPacked();
      assert data[..0] == [];
    } else {
      var (lo, hi) := PackBytes(data, n - 1);
      var k, group := 8 * (n - 1), data[8 * (n - 1)..8 * n];
      var (clo, chi) := PackBits(group, 8);
      PackBytesExact(data, n - 1);
      PackBitsExact(group, 8);
      assert group[..8] == group && data[..8 * n] == data[..k] + group;
      PackedAppend(data[..k], group);
      AddByteExact(lo, hi, clo, chi, k);
    }
  }

  /** The carry-less form of the packing is the sum of data[i]·x^i. */
  lemma ClmulIsPacked(data: seq<Block>)
    requires |data| == BLOCK_BITS
    ensures GfPackClmul(data) == Packed(data)
  {
    hide PackBytes, Fold, Packed;
    PackBytesExact(data, 16);
    var (lo, hi) := PackBytes(data, 16);
    FoldExact(lo, hi);
    assert data[..128] == data;
  }
}

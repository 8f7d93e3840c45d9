/** The portable field arithmetic: shifted XORs into four 64-bit words, then a bit-by-bit reduction. */
module SoftGf {
  import opened Blocks
  import opened GF128

  const WORD: nat := 64

  type Word = s: seq<bool> | |s| == WORD witness NoBits(WORD)

  function ZeroWord(): Word {
    NoBits(WORD)
  }

  /** The block whose low and high words are given. */
  function Join(lo: Word, hi: Word): Block {
    seq(BLOCK_BITS, i requires 0 <= i < BLOCK_BITS => if i < WORD then lo[i] else hi[i - WORD])
  }

  function XorWord(a: Word, b: Word): Word {
    seq(WORD, i requires 0 <= i < WORD => a[i] != b[i])
  }

  function Shl(a: Word, n: nat): Word {
    seq(WORD, i requires 0 <= i < WORD => i >= n && a[i - n])
  }

  function ShiftRight(a: Word, n: nat): Word {
    seq(WORD, i requires 0 <= i < WORD => i + n < WORD && a[i + n])
  }

  /** The polynomial a little-endian word array stands for. */
  function Flat(words: seq<Word>): (p: Poly)
    ensures |p| == WORD * |words|
  {
    if words == [] then [] else Flat(words[..|words| - 1]) + words[|words| - 1]
  }

  lemma {:induction false} FlatBit(words: seq<Word>, j: nat, t: nat)
    requires j < |words| && t < WORD
    ensures WORD * j + t < WORD * |words| && Flat(words)[WORD * j + t] == words[j][t]
  {
    if j < |words| - 1 {
      FlatBit(words[..|words| - 1], j, t);
    }
  }

  /** `value` moved up by `shift` places. */
  function ShiftedUp(value: Block, shift: nat): (p: Poly)
    ensures |p| == shift + BLOCK_BITS
  {
    NoBits(shift) + value
  }

  /** One word after the shifted XOR. */
  predicate WordShifted(before: Word, after: Word, value: Block, shift: nat, j: nat) {
    forall t :: 0 <= t < WORD ==> after[t] == (before[t] != Coeff(ShiftedUp(value, shift), WORD * j + t))
  }

  lemma WordsShifted(before: seq<Word>, after: seq<Word>, value: Block, shift: nat)
    requires |before| == |after| == 4 && shift < BLOCK_BITS
    requires forall j :: 0 <= j < 4 ==> WordShifted(before[j], after[j], value, shift, j)
    ensures Flat(after) == PolyAdd(Flat(before), ShiftedUp(value, shift))
  {
    forall i | 0 <= i < 4 * WORD
      ensures Flat(after)[i] == PolyAdd(Flat(before), ShiftedUp(value, shift))[i]
    {
      var j, t := i / WORD, i % WORD;
      assert WORD * j + t == i && WordShifted(before[j], after[j], value, shift, j);
      FlatBit(before, j, t);
      FlatBit(after, j, t);
      CoeffAdd(Flat(before), ShiftedUp(value, shift), i);
    }
  }

  /** xor_shifted_u128 */
  method XorShifted(dst: array<Word>, value: Block, shift: nat)
    requires dst.Length == 4 && shift < BLOCK_BITS
    modifies dst
    ensures Flat(dst[..]) == PolyAdd(old(Flat(dst[..])), ShiftedUp(value, shift))
  {
    var lo: Word, hi: Word := value[..WORD], value[WORD..];
    var word, bits := shift / WORD, shift % WORD;
    ghost var before := dst[..];
    if bits == 0 {
      dst[word] := XorWord(dst[word], lo);
      dst[word + 1] := XorWord(dst[word + 1], hi);
    } else {
      dst[word] := XorWord(dst[word], Shl(lo, bits));
      dst[word + 1] := XorWord(dst[word + 1], XorWord(ShiftRight(lo, WORD - bits), Shl(hi, bits)));
      if word + 2 < dst.Length {
        dst[word + 2] := XorWord(dst[word + 2], ShiftRight(hi, WORD - bits));
      }
    }
    forall j | 0 <= j < 4
      ensures WordShifted(before[j], dst[..][j], value, shift, j)
    {
    }
    WordsShifted(before, dst[..], value, shift);
  }

  /** gf_flip of bit `bit` of the flattened words. */
  method Flip(words: array<Word>, bit: nat)
    requires bit < WORD * words.Length
    modifies words
    ensures Flat(words[..]) == old(Flat(words[..]))[bit := !old(Flat(words[..]))[bit]]
  {
    ghost var before := words[..];
    var j, t := bit / WORD, bit % WORD;
    words[j] := words[j][t := !words[j][t]];
    FlatFlip(before, j, t);
    assert words[..] == before[j := before[j][t := !before[j][t]]];
  }

  lemma FlatFlip(words: seq<Word>, j: nat, t: nat)
    requires j < |words| && t < WORD
    ensures WORD * j + t < WORD * |words|
    ensures var after: seq<Word> := words[j := words[j][t := !words[j][t]]];
      Flat(after) == Flat(words)[WORD * j + t := !words[j][t]] && Flat(words)[WORD * j + t] == words[j][t]
  {
    var after: seq<Word> := words[j := words[j][t := !words[j][t]]];
    FlatBit(words, j, t);
    var want := Flat(words)[WORD * j + t := !words[j][t]];
    forall i | 0 <= i < WORD * |words|
      ensures Flat(after)[i] == want[i]
    {
      assert WORD * (i / WORD) + i % WORD == i;
      FlatBit(words, i / WORD, i % WORD);
      FlatBit(after, i / WORD, i % WORD);
    }
  }

  // ---- residues of the words ----

  lemma ResidueOfShifted(value: Block, shift: nat)
    ensures Residue(ShiftedUp(value, shift)) == TimesXk(value, shift)
  {
    hide TimesX, Xor, TimesXk, Times;
    TimesAppend(ONE, NoBits(shift), value);
    TimesOfNone(ONE, shift);
    ResidueOfBlock(value);
    XorGroup(TimesXk(value, shift), ZERO, ZERO);
  }

  /** Flipping a coefficient moves the residue by a power of x. */
  lemma ResidueFlip(p: Poly, k: nat)
    requires k < |p|
    ensures Residue(p[k := !p[k]]) == Xor(Residue(p), TimesXk(ONE, k))
  {
    hide TimesX, Xor, TimesXk, Times;
    var one: Poly := NoBits(k) + [true];
    assert p[k := !p[k]] == PolyAdd(p, one);
    TimesOfSum(ONE, p, one);
    TimesAppend(ONE, NoBits(k), [true]);
    TimesOfNone(ONE, k);
    ResidueOfShort([true]);
    assert [true] + NoBits(BLOCK_BITS - 1) == ONE;
    XorGroup(TimesXk(ONE, k), ZERO, ZERO);
  }

  /** x^(128+k) + x^k + x^(k+1) + x^(k+2) + x^(k+7) vanishes. */
  lemma FlipsVanish(k: nat)
    ensures Xor(Xor(Xor(Xor(TimesXk(ONE, k + BLOCK_BITS), TimesXk(ONE, k)), TimesXk(ONE, k + 1)), TimesXk(ONE, k + 2)), TimesXk(ONE, k + 7)) == ZERO
  {
    hide TimesX, Xor, TimesXk;
    var one, two, seven := TimesXk(ONE, 1), TimesXk(ONE, 2), TimesXk(ONE, 7);
    TopPower();
    TailPowers();
    TimesXkAdd(ONE, BLOCK_BITS, k);
    TimesXkAdd(ONE, 0, k);
    TimesXkAdd(ONE, 1, k);
    TimesXkAdd(ONE, 2, k);
    TimesXkAdd(ONE, 7, k);
    NoShift(ONE);
    TimesXkLinear(TAIL, ONE, k);
    TimesXkLinear(Xor(TAIL, ONE), one, k);
    TimesXkLinear(Xor(Xor(TAIL, ONE), one), two, k);
    TimesXkLinear(Xor(Xor(Xor(TAIL, ONE), one), two), seven, k);
    TimesXkZero(k);
  }

  lemma NoShift(a: Block)
    ensures TimesXk(a, 0) == a
  {
  }

  lemma NoTerms(a: Block, p: Poly)
    requires p == []
    ensures Times(a, p) == ZERO
  {
  }

  lemma TailPowers()
    ensures Xor(Xor(Xor(Xor(TAIL, ONE), TimesXk(ONE, 1)), TimesXk(ONE, 2)), TimesXk(ONE, 7)) == ZERO
  {
    PowerBlock(1);
    PowerBlock(2);
    PowerBlock(7);
  }

  lemma {:induction false} TimesXkZero(k: nat)
    ensures TimesXk(ZERO, k) == ZERO
  {
    if k > 0 {
      TimesXkZero(k - 1);
      TimesXZero();
    }
  }

  /** Five flips that keep the residue. */
  lemma ReduceKeeps(r: Block, k: nat)
    ensures Xor(Xor(Xor(Xor(Xor(r, TimesXk(ONE, k + BLOCK_BITS)), TimesXk(ONE, k)), TimesXk(ONE, k + 1)), TimesXk(ONE, k + 2)), TimesXk(ONE, k + 7)) == r
  {
    hide TimesX, Xor, TimesXk;
    var a, b, c, d, e := TimesXk(ONE, k + BLOCK_BITS), TimesXk(ONE, k), TimesXk(ONE, k + 1), TimesXk(ONE, k + 2), TimesXk(ONE, k + 7);
    FlipsVanish(k);
    XorGroup(r, a, b);
    XorGroup(r, Xor(a, b), c);
    XorGroup(r, Xor(Xor(a, b), c), d);
    XorGroup(r, Xor(Xor(Xor(a, b), c), d), e);
    XorGroup(r, ZERO, ZERO);
  }

  /** No coefficient at or above `k`. */
  predicate Below(p: Poly, k: nat) {
    forall i :: k <= i < |p| ==> !p[i]
  }

  /** One step of the reduction: the top bit is folded down. */
  method FoldBit(product: array<Word>, bit: nat)
    requires product.Length == 4 && BLOCK_BITS <= bit < 2 * BLOCK_BITS && Below(Flat(product[..]), bit + 1)
    modifies product
    ensures Below(Flat(product[..]), bit) && Residue(Flat(product[..])) == old(Residue(Flat(product[..])))
  {
    ghost var p := Flat(product[..]);
    FlatBit(product[..], bit / WORD, bit % WORD);
    if product[bit / WORD][bit % WORD] {
      hide Residue, Flat, TimesXk, Xor;
      var k := bit - BLOCK_BITS;
      Flip(product, bit);
      ResidueFlip(p, bit);
      ghost var p1 := Flat(product[..]);
      Flip(product, k);
      ResidueFlip(p1, k);
      ghost var p2 := Flat(product[..]);
      Flip(product, k + 1);
      ResidueFlip(p2, k + 1);
      ghost var p3 := Flat(product[..]);
      Flip(product, k + 2);
      ResidueFlip(p3, k + 2);
      ghost var p4 := Flat(product[..]);
      Flip(product, k + 7);
      ResidueFlip(p4, k + 7);
      ReduceKeeps(Residue(p), k);
    }
  }

  /** gf_reduce: the residue of the words. */
  method Reduce(product: array<Word>) returns (r: Block)
    requires product.Length == 4
    modifies product
    ensures r == old(Residue(Flat(product[..])))
  {
    hide Residue;
    ghost var start := Residue(Flat(product[..]));
    for bit := 2 * BLOCK_BITS downto BLOCK_BITS
      invariant Below(Flat(product[..]), bit) && Residue(Flat(product[..])) == start
    {
      FoldBit(product, bit);
    }
    r := Join(product[0], product[1]);
    ReducedWords(product[..], r);
  }

  lemma ReducedWords(words: seq<Word>, r: Block)
    requires |words| == 4 && Below(Flat(words), BLOCK_BITS) && r == Join(words[0], words[1])
    ensures Residue(Flat(words)) == r
  {
    hide Times, TimesX, TimesXk, Xor;
    var p := Flat(words);
    assert p == r + NoBits(BLOCK_BITS) by {
      forall i | 0 <= i < 2 * BLOCK_BITS
        ensures p[i] == (r + NoBits(BLOCK_BITS))[i]
      {
        FlatBit(words, i / WORD, i % WORD);
      }
    }
    TimesAppend(ONE, r, NoBits(BLOCK_BITS));
    TimesOfNone(ONE, BLOCK_BITS);
    TimesXkZero(BLOCK_BITS);
    ResidueOfBlock(r);
    XorGroup(r, ZERO, ZERO);
  }

  lemma NoWords(words: seq<Word>)
    requires |words| == 4 && forall j :: 0 <= j < 4 ==> words[j] == ZeroWord()
    ensures Residue(Flat(words)) == ZERO
  {
    forall i | 0 <= i < 4 * WORD
      ensures !Flat(words)[i]
    {
      FlatBit(words, i / WORD, i % WORD);
    }
    assert Flat(words) == NoBits(4 * WORD);
    TimesOfNone(ONE, 4 * WORD);
  }

  lemma OneMoreTerm(a: Block, b: Poly, i: nat)
    requires i < |b|
    ensures Times(a, b[..i + 1]) == Xor(Times(a, b[..i]), Select(b[i], TimesXk(a, i)))
  {
    hide TimesX, Xor, TimesXk;
    assert b[..i + 1] == b[..i] + [b[i]];
    TimesAppend(a, b[..i], [b[i]]);
    assert Times(a, [b[i]]) == Select(b[i], a) by {
      assert [b[i]][1..] == [];
      TimesXZero();
      XorGroup(Select(b[i], a), ZERO, ZERO);
    }
    TimesXkZero(i);
  }

  /** gf_mul_soft is multiplication in the field. */
  method GfMulSoft(a: Block, b: Block) returns (r: Block)
    ensures r == GfMul(a, b)
  {
    hide Residue, Times, Flat, Xor, TimesXk, PolyAdd;
    var product := new Word[4](_ => ZeroWord());
    NoWords(product[..]);
    NoTerms(a, b[..0]);
    for i := 0 to BLOCK_BITS
      invariant Residue(Flat(product[..])) == Times(a, b[..i])
    {
      OneMoreTerm(a, b, i);
      XorGroup(Times(a, b[..i]), ZERO, ZERO);
      if b[i] {
        ghost var before := Flat(product[..]);
        XorShifted(product, a, i);
        ResidueSum(before, ShiftedUp(a, i));
        ResidueOfShifted(a, i);
      }
    }
    assert b[..BLOCK_BITS] == b;
    r := Reduce(product);
  }

  lemma ResidueSum(p: Poly, q: Poly)
    ensures Residue(PolyAdd(p, q)) == Xor(Residue(p), Residue(q))
  {
    TimesOfSum(ONE, p, q);
  }

  /** gf_inner_product */
  function InnerProduct(a: seq<Block>, b: seq<Block>): Block
    requires |a| == |b|
  {
    if a == [] then ZERO else Xor(InnerProduct(a[..|a| - 1], b[..|a| - 1]), GfMul(a[|a| - 1], b[|a| - 1]))
  }

  /** The sum of data[i]·x^i. */
  function Packed(data: seq<Block>): Block {
    if data == [] then ZERO else Xor(Packed(data[..|data| - 1]), TimesXk(data[|data| - 1], |data| - 1))
  }

  /** gf_pack_128_soft */
  method GfPackSoft(data: seq<Block>) returns (r: Block)
    requires |data| == BLOCK_BITS
    ensures r == Packed(data)
  {
    hide Residue, Flat, Xor, TimesXk, PolyAdd;
    var product := new Word[4](_ => ZeroWord());
    NoWords(product[..]);
    for i := 0 to BLOCK_BITS
      invariant Residue(Flat(product[..])) == Packed(data[..i])
    {
      ghost var before := Flat(product[..]);
      XorShifted(product, data[i], i);
      ResidueSum(before, ShiftedUp(data[i], i));
      ResidueOfShifted(data[i], i);
      assert data[..i + 1][..i] == data[..i];
    }
    assert data[..BLOCK_BITS] == data;
    r := Reduce(product);
  }
}

/** GF(2^128): coefficient sequences, lowest degree first, modulo x^128 + x^7 + x^2 + x + 1. */
module GF128 {
  import opened Blocks

  type Poly = seq<bool>

  const ONE: Block := BIT0

  /** x^7 + x^2 + x + 1, what x^128 is modulo the polynomial (0x87). */
  const TAIL: Block := NoBits(BLOCK_BITS)[0 := true][1 := true][2 := true][7 := true]

  /** Multiplication by x in the field. */
  function TimesX(a: Block): Block {
    seq(BLOCK_BITS, i requires 0 <= i < BLOCK_BITS => (i > 0 && a[i - 1]) != (a[BLOCK_BITS - 1] && TAIL[i]))
  }

  /** Multiplication by x^k. */
  function TimesXk(a: Block, k: nat): Block {
    if k == 0 then a else TimesX(TimesXk(a, k - 1))
  }

  /** The sum of a·x^i over the set coefficients of `p`. */
  function Times(a: Block, p: Poly): Block {
    if p == [] then ZERO else Xor(Select(p[0], a), TimesX(Times(a, p[1..])))
  }

  /** Multiplication in the field. */
  function GfMul(a: Block, b: Block): Block {
    Times(a, b)
  }

  /** The residue of a polynomial. */
  function Residue(p: Poly): Block {
    Times(ONE, p)
  }

  // ---- multiplication by x is linear ----

  lemma TimesXLinear(a: Block, b: Block)
    ensures TimesX(Xor(a, b)) == Xor(TimesX(a), TimesX(b))
  {
    assert forall i | 0 <= i < BLOCK_BITS :: TimesX(Xor(a, b))[i] == Xor(TimesX(a), TimesX(b))[i];
  }

  lemma TimesXZero()
    ensures TimesX(ZERO) == ZERO
  {
  }

  lemma TimesXSelect(bit: bool, a: Block)
    ensures TimesX(Select(bit, a)) == Select(bit, TimesX(a))
  {
    TimesXZero();
  }

  lemma {:induction false} TimesXkLinear(a: Block, b: Block, k: nat)
    ensures TimesXk(Xor(a, b), k) == Xor(TimesXk(a, k), TimesXk(b, k))
  {
    hide TimesX;
    if k > 0 {
      TimesXkLinear(a, b, k - 1);
      TimesXLinear(TimesXk(a, k - 1), TimesXk(b, k - 1));
    }
  }

  lemma {:induction false} TimesXkAdd(a: Block, j: nat, k: nat)
    ensures TimesXk(TimesXk(a, j), k) == TimesXk(a, j + k)
  {
    hide TimesX;
    if k > 0 {
      TimesXkAdd(a, j, k - 1);
    }
  }

  // ---- the product is linear in both arguments and commutes with x ----

  lemma {:induction false} TimesLinear(a: Block, b: Block, p: Poly)
    ensures Times(Xor(a, b), p) == Xor(Times(a, p), Times(b, p))
  {
    hide TimesX, Xor;
    if p == [] {
      XorGroup(ZERO, ZERO, ZERO);
    } else {
      TimesLinear(a, b, p[1..]);
      TimesXLinear(Times(a, p[1..]), Times(b, p[1..]));
      SelectLinear(p[0], p[0], a, b);
      XorSwap(Select(p[0], a), Select(p[0], b), TimesX(Times(a, p[1..])), TimesX(Times(b, p[1..])));
    }
  }

  lemma {:induction false} TimesOfX(a: Block, p: Poly)
    ensures Times(TimesX(a), p) == TimesX(Times(a, p))
  {
    hide TimesX, Xor;
    if p == [] {
      TimesXZero();
    } else {
      TimesOfX(a, p[1..]);
      TimesXLinear(Select(p[0], a), TimesX(Times(a, p[1..])));
      TimesXSelect(p[0], a);
    }
  }

  lemma {:induction false} TimesOfZero(p: Poly)
    ensures Times(ZERO, p) == ZERO
  {
    hide TimesX, Xor;
    if p != [] {
      TimesOfZero(p[1..]);
      TimesXZero();
      XorGroup(ZERO, ZERO, ZERO);
    }
  }

  lemma TimesOfSelect(bit: bool, a: Block, p: Poly)
    ensures Times(Select(bit, a), p) == Select(bit, Times(a, p))
  {
    TimesOfZero(p);
  }

  /** Two multiplications can be done in either order. */
  lemma {:induction false} TimesCommute(a: Block, p: Poly, q: Poly)
    ensures Times(Times(a, p), q) == Times(Times(a, q), p)
  {
    hide TimesX, Xor, Select;
    if p == [] {
      TimesOfZero(q);
    } else {
      TimesCommute(a, p[1..], q);
      TimesLinear(Select(p[0], a), TimesX(Times(a, p[1..])), q);
      TimesOfSelect(p[0], a, q);
      TimesOfX(Times(a, p[1..]), q);
    }
  }

  // ---- residues ----

  /** A polynomial of degree below 128 is its own residue. */
  lemma {:induction false} ResidueOfShort(p: Poly)
    requires |p| <= BLOCK_BITS
    ensures Residue(p) == p + NoBits(BLOCK_BITS - |p|)
  {
    var r := p + NoBits(BLOCK_BITS - |p|);
    if p == [] {
      assert r == ZERO;
    } else {
      ResidueOfShort(p[1..]);
      var rest := p[1..] + NoBits(BLOCK_BITS - |p| + 1);
      assert !rest[BLOCK_BITS - 1];
      assert forall i | 0 <= i < BLOCK_BITS :: Xor(Select(p[0], ONE), TimesX(rest))[i] == r[i];
    }
  }

  lemma ResidueOfBlock(a: Block)
    ensures Residue(a) == a
  {
    ResidueOfShort(a);
    assert a + NoBits(0) == a;
  }

  // ---- the laws ----

  lemma Commutative(a: Block, b: Block)
    ensures GfMul(a, b) == GfMul(b, a)
  {
    hide Times;
    ResidueOfBlock(a);
    ResidueOfBlock(b);
    TimesCommute(ONE, a, b);
  }

  lemma Associative(a: Block, b: Block, c: Block)
    ensures GfMul(GfMul(a, b), c) == GfMul(a, GfMul(b, c))
  {
    hide Times;
    Commutative(a, GfMul(b, c));
    TimesCommute(b, c, a);
    Commutative(b, a);
  }

  lemma Distributive(a: Block, b: Block, c: Block)
    ensures GfMul(Xor(a, b), c) == Xor(GfMul(a, c), GfMul(b, c))
    ensures GfMul(c, Xor(a, b)) == Xor(GfMul(c, a), GfMul(c, b))
  {
    hide Times, Xor;
    TimesLinear(a, b, c);
    Commutative(c, Xor(a, b));
    Commutative(c, a);
    Commutative(c, b);
  }

  // ---- plain polynomial arithmetic ----

  function Coeff(p: Poly, i: nat): bool {
    i < |p| && p[i]
  }

  function PolyAdd(p: Poly, q: Poly): (r: Poly)
    ensures |r| == if |p| > |q| then |p| else |q|
    ensures forall i :: 0 <= i < |r| ==> r[i] == (Coeff(p, i) != Coeff(q, i))
  {
    var n := if |p| > |q| then |p| else |q|;
    seq(n, i requires 0 <= i < n => Coeff(p, i) != Coeff(q, i))
  }

  /** Carry-less multiplication, without any reduction. */
  function PolyMul(p: Poly, q: Poly): (r: Poly)
    ensures |r| == |p| + |q|
  {
    if q == [] then NoBits(|p|)
    else PolyAdd(if q[0] then p else [], [false] + PolyMul(p, q[1..]))
  }

  lemma {:induction false} TimesOfSum(a: Block, p: Poly, q: Poly)
    ensures Times(a, PolyAdd(p, q)) == Xor(Times(a, p), Times(a, q))
  {
    hide TimesX, Xor;
    XorGroup(Times(a, p), ZERO, ZERO);
    XorGroup(Times(a, q), ZERO, ZERO);
    if p == [] {
      assert PolyAdd(p, q) == q;
    } else if q == [] {
      assert PolyAdd(p, q) == p;
    } else {
      var s := PolyAdd(p, q);
      assert s[1..] == PolyAdd(p[1..], q[1..]);
      TimesOfSum(a, p[1..], q[1..]);
      TimesXLinear(Times(a, p[1..]), Times(a, q[1..]));
      SelectLinear(p[0], q[0], a, a);
      XorSwap(Select(p[0], a), Select(q[0], a), TimesX(Times(a, p[1..])), TimesX(Times(a, q[1..])));
    }
  }

  lemma TimesShift(a: Block, p: Poly)
    ensures Times(a, [false] + p) == TimesX(Times(a, p))
  {
    assert ([false] + p)[1..] == p;
    XorGroup(TimesX(Times(a, p)), ZERO, ZERO);
  }

  lemma {:induction false} TimesOfNone(a: Block, n: nat)
    ensures Times(a, NoBits(n)) == ZERO
  {
    if n > 0 {
      hide TimesX, Xor;
      assert NoBits(n)[1..] == NoBits(n - 1);
      TimesOfNone(a, n - 1);
      TimesXZero();
      XorGroup(ZERO, ZERO, ZERO);
    }
  }

  /** Multiplying in the field is multiplying polynomials and taking the residue. */
  lemma {:induction false} ProductResidue(p: Poly, q: Poly)
    ensures Residue(PolyMul(p, q)) == Times(Residue(p), q)
  {
    hide TimesX, Xor;
    if q == [] {
      TimesOfNone(ONE, |p|);
    } else {
      var high, low: Poly := [false] + PolyMul(p, q[1..]), if q[0] then p else [];
      TimesOfSum(ONE, low, high);
      TimesShift(ONE, PolyMul(p, q[1..]));
      ProductResidue(p, q[1..]);
    }
  }

  lemma MulIsPolynomialProduct(a: Block, b: Block)
    ensures GfMul(a, b) == Residue(PolyMul(a, b))
  {
    hide Times, PolyMul;
    ProductResidue(a, b);
    ResidueOfBlock(a);
  }

  /** The modulus. */
  function Modulus(): Poly {
    TAIL + [true]
  }

  lemma {:induction false} TimesAppend(a: Block, p: Poly, q: Poly)
    ensures Times(a, p + q) == Xor(Times(a, p), TimesXk(Times(a, q), |p|))
  {
    hide TimesX, Xor;
    if p == [] {
      assert p + q == q;
      XorGroup(Times(a, q), ZERO, ZERO);
    } else {
      assert (p + q)[1..] == p[1..] + q;
      TimesAppend(a, p[1..], q);
      TimesXLinear(Times(a, p[1..]), TimesXk(Times(a, q), |p| - 1));
      XorGroup(Select(p[0], a), TimesX(Times(a, p[1..])), TimesXk(Times(a, q), |p|));
    }
  }

  lemma {:induction false} PowerBlock(k: nat)
    requires k < BLOCK_BITS
    ensures TimesXk(ONE, k) == NoBits(BLOCK_BITS)[k := true]
  {
    if k > 0 {
      PowerBlock(k - 1);
      var r := NoBits(BLOCK_BITS)[k := true];
      assert forall i | 0 <= i < BLOCK_BITS :: TimesX(TimesXk(ONE, k - 1))[i] == r[i];
    }
  }

  /** x^128 is the tail of the modulus. */
  lemma TopPower()
    ensures TimesXk(ONE, BLOCK_BITS) == TAIL
  {
    PowerBlock(BLOCK_BITS - 1);
    assert forall i | 0 <= i < BLOCK_BITS :: TimesX(TimesXk(ONE, BLOCK_BITS - 1))[i] == TAIL[i];
  }

  lemma ModulusVanishes()
    ensures Residue(Modulus()) == ZERO
  {
    hide TimesX, TimesXk, Times;
    TimesAppend(ONE, TAIL, [true]);
    ResidueOfBlock(TAIL);
    TopPower();
    assert Times(ONE, [true]) == ONE by {
      ResidueOfShort([true]);
      assert [true] + NoBits(BLOCK_BITS - 1) == ONE;
    }
    XorGroup(TAIL, ZERO, ZERO);
  }

  /** The residue is the remainder: adding any multiple of the modulus to a polynomial of degree below
  128 leaves that polynomial. */
  lemma RemainderUnique(q: Poly, r: Block)
    ensures Residue(PolyAdd(PolyMul(Modulus(), q), r)) == r
  {
    hide TimesX, Xor, Times, PolyMul, Modulus;
    TimesOfSum(ONE, PolyMul(Modulus(), q), r);
    ProductResidue(Modulus(), q);
    ModulusVanishes();
    TimesOfZero(q);
    ResidueOfBlock(r);
    XorGroup(r, ZERO, ZERO);
  }

  /** Equal up to leading zeros. */
  ghost predicate SamePoly(p: Poly, q: Poly) {
    forall i: nat :: Coeff(p, i) == Coeff(q, i)
  }

  /** ... and every polynomial is a multiple of the modulus plus its residue. */
  lemma {:induction false} RemainderExists(p: Poly) returns (q: Poly)
    ensures SamePoly(p, PolyAdd(PolyMul(Modulus(), q), Residue(p)))
  {
    if p == [] {
      q := [];
    } else {
      var q' := RemainderExists(p[1..]);
      var r := Residue(p[1..]);
      var top := r[BLOCK_BITS - 1];
      q := [top] + q';
      assert q[1..] == q';
      RemainderStep(p, q', q, r);
    }
  }

  lemma ResidueUnfolds(p: Poly)
    requires p != []
    ensures Residue(p) == Xor(Select(p[0], ONE), TimesX(Residue(p[1..])))
  {
  }

  lemma RemainderStep(p: Poly, q': Poly, q: Poly, r: Block)
    requires p != [] && r == Residue(p[1..]) && q == [r[BLOCK_BITS - 1]] + q'
    requires SamePoly(p[1..], PolyAdd(PolyMul(Modulus(), q'), r))
    ensures SamePoly(p, PolyAdd(PolyMul(Modulus(), q), Residue(p)))
  {
    hide Residue, PolyMul, Modulus, TimesX, Xor;
    var top := r[BLOCK_BITS - 1];
    assert q[1..] == q';
    ResidueUnfolds(p);
    MulUnfolds(q);
    var high: Poly := [false] + PolyMul(Modulus(), q');
    forall i: nat
      ensures Coeff(p, i) == Coeff(PolyAdd(PolyMul(Modulus(), q), Residue(p)), i)
    {
      CoeffAdd(PolyMul(Modulus(), q), Residue(p), i);
      CoeffAdd(if top then Modulus() else [], high, i);
      CoeffAdd(PolyMul(Modulus(), q'), r, if i > 0 then i - 1 else 0);
      FoldCoeff(p[0], r, i);
      assert i > 0 ==> Coeff(p[1..], i - 1) == Coeff(p, i) && Coeff(high, i) == Coeff(PolyMul(Modulus(), q'), i - 1);
    }
  }

  lemma MulUnfolds(q: Poly)
    requires q != []
    ensures PolyMul(Modulus(), q) == PolyAdd(if q[0] then Modulus() else [], [false] + PolyMul(Modulus(), q[1..]))
  {
  }

  /** Multiplying by x inside the field is shifting and taking the modulus off if the top coefficient was set. */
  lemma FoldCoeff(low: bool, r: Block, i: nat)
    ensures Coeff(Xor(Select(low, ONE), TimesX(r)), i) ==
      ((Coeff(if r[BLOCK_BITS - 1] then Modulus() else [], i) != (i > 0 && Coeff(r, i - 1))) != (i == 0 && low))
  {
    ModulusCoeff(i);
  }

  lemma CoeffAdd(p: Poly, q: Poly, i: nat)
    ensures Coeff(PolyAdd(p, q), i) == (Coeff(p, i) != Coeff(q, i))
  {
  }

  lemma ModulusCoeff(i: nat)
    ensures Coeff(Modulus(), i) == (i == 0 || i == 1 || i == 2 || i == 7 || i == BLOCK_BITS)
  {
  }
}

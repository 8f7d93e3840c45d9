/** When one index's secret can be derived from another's: the first is a prefix of the second. */
module Prefixes {
  import opened Masks
  import opened Shachain

  /** The value of the lowest set bit. */
  function LowBit(n: nat): (r: nat)
    requires n > 0
    ensures 1 <= r <= n
  {
    if n % 2 == 1 then 1 else 2 * LowBit(n / 2)
  }

  /** a & !b */
  function AndNot(a: nat, b: nat): nat {
    if a == 0 then 0 else 2 * AndNot(a / 2, b / 2) + if a % 2 == 1 && b % 2 == 0 then 1 else 0
  }

  /** n >> k */
  function Shr(n: nat, k: nat): nat {
    if k == 0 then n else Shr(n / 2, k - 1)
  }

  /** can_derive_mask, and the two checks of derive_from_known. */
  predicate CanDerive(a: nat, b: nat) {
    AndNot(a, b) == 0 && (a != 0 ==> Shr(AndNot(b, a), Tz(a)) == 0)
  }

  /** `a` with some of the bits below its lowest one set. */
  predicate Prefix(a: nat, b: nat) {
    a == 0 || a <= b < a + LowBit(a)
  }

  lemma {:induction false} AndNotNone(a: nat, b: nat)
    ensures AndNot(a, b) == 0 && AndNot(b, a) == 0 <==> a == b
    decreases a + b
  {
    if a > 0 || b > 0 {
      AndNotNone(a / 2, b / 2);
    }
  }

  /** The bit tests hold exactly for prefixes. */
  lemma {:induction false} DerivableExactly(a: nat, b: nat)
    ensures CanDerive(a, b) <==> Prefix(a, b)
  {
    if a > 0 {
      if a % 2 == 1 {
        AndNotNone(a, b);
      } else {
        DerivableExactly(a / 2, b / 2);
      }
    }
  }

  /** What is missing from a prefix is the difference. */
  lemma {:induction false} MissingIsDifference(a: nat, b: nat)
    requires Prefix(a, b)
    ensures a <= b && AndNot(b, a) == b - a
    decreases b
  {
    if b == 0 {
    } else if a == 0 {
      MissingIsDifference(0, b / 2);
    } else if a % 2 == 0 {
      MissingIsDifference(a / 2, b / 2);
    } else {
      AndNotNone(a, b);
    }
  }

  lemma {:induction false} LowBitPower(n: nat) returns (hi: nat)
    requires n > 0
    ensures LowBit(n) == Pow2(Tz(n)) && n == hi * Pow2(Tz(n))
  {
    if n % 2 == 1 {
      hi := n;
    } else {
      hi := LowBitPower(n / 2);
      var p := Pow2(Tz(n / 2));
      assert 2 * (hi * p) == hi * (2 * p);
    }
  }

  /** A prefix's bits come first. */
  lemma PrefixBits(a: nat, b: nat)
    requires Prefix(a, b)
    ensures a <= b && SetBits(b) == SetBits(a) + SetBits(b - a)
  {
    if a > 0 {
      var hi := LowBitPower(a);
      SetBitsSplit(hi, b - a, Tz(a));
      SetBitsSplit(hi, 0, Tz(a));
      assert SetBits(0) == [];
      assert SetBits(a) == Shift(SetBits(hi), Tz(a));
    } else {
      assert [] + SetBits(b) == SetBits(b);
    }
  }

  /** ... so a secret follows from the secret of any prefix. */
  lemma SecretFromPrefix(hash: Value -> Value, seed: Value, a: nat, b: nat)
    requires Prefix(a, b) && b <= MAX_INDEX
    ensures a <= b && Indices(SetBits(b - a))
    ensures Secret(hash, seed, b) == Chain(hash, Secret(hash, seed, a), SetBits(b - a))
  {
    hide SetBits, Chain, Prefix;
    PrefixBits(a, b);
    IndexBits(b);
    IndexBits(a);
    IndexBits(b - a);
    ChainAppend(hash, seed, SetBits(a), SetBits(b - a));
  }

  // ---- the order of prefixes ----

  lemma {:induction false} ClearLowIs(n: nat)
    requires n > 0
    ensures ClearLow(n) == n - LowBit(n)
  {
    if n % 2 == 0 {
      ClearLowIs(n / 2);
    }
  }

  /** The parent's lowest bit is above the child's. */
  lemma {:induction false} ParentBit(n: nat)
    requires n > 0 && ClearLow(n) > 0
    ensures LowBit(ClearLow(n)) >= 2 * LowBit(n) && Tz(ClearLow(n)) > Tz(n)
  {
    if n % 2 == 0 {
      ParentBit(n / 2);
      assert ClearLow(n) / 2 == ClearLow(n / 2);
    }
  }

  lemma ParentIsPrefix(n: nat)
    requires n > 0
    ensures Prefix(ClearLow(n), n)
  {
    ClearLowIs(n);
    if ClearLow(n) > 0 {
      ParentBit(n);
    }
  }

  /** A proper prefix is a prefix of the parent. */
  lemma {:induction false} ProperPrefix(a: nat, n: nat)
    requires n > 0 && a != n && Prefix(a, n)
    ensures Prefix(a, ClearLow(n))
  {
    if a > 0 {
      if n % 2 == 1 {
        assert LowBit(a) > 1;
      } else {
        EvenPrefix(a, n);
        ProperPrefix(a / 2, n / 2);
      }
    }
  }

  lemma EvenPrefix(a: nat, n: nat)
    requires n > 0 && n % 2 == 0 && a > 0 && a != n && Prefix(a, n)
    ensures a % 2 == 0 && a / 2 != n / 2 && Prefix(a / 2, n / 2) && LowBit(a) == 2 * LowBit(a / 2)
  {
  }

  lemma {:induction false} PrefixPop(a: nat, n: nat)
    requires Prefix(a, n) && a != n
    ensures PopCount(a) < PopCount(n) && (a > 0 ==> Tz(a) > Tz(n))
    decreases n
  {
    ClearLowPop(n);
    ProperPrefix(a, n);
    if a != ClearLow(n) {
      PrefixPop(a, ClearLow(n));
    }
    if a > 0 {
      ParentBit(n);
    }
  }

  /** Prefixes with the same number of bits are the same. */
  lemma {:induction false} PrefixByPop(a: nat, b: nat, n: nat)
    requires Prefix(a, n) && Prefix(b, n) && PopCount(a) == PopCount(b)
    ensures a == b
    decreases n
  {
    if a != n && b != n {
      ProperPrefix(a, n);
      ProperPrefix(b, n);
      PrefixByPop(a, b, ClearLow(n));
    } else if a != n {
      PrefixPop(a, n);
    } else if b != n {
      PrefixPop(b, n);
    }
  }

  /** Being a prefix is transitive and antisymmetric. */
  lemma {:induction false} PrefixTransitive(a: nat, b: nat, n: nat)
    requires Prefix(a, b) && Prefix(b, n)
    ensures Prefix(a, n)
  {
    if 0 < a < b {
      PrefixEnd(a, b);
    }
  }

  /** All that a prefix's extension covers, the prefix covers. */
  lemma {:induction false} PrefixEnd(a: nat, b: nat)
    requires 0 < a <= b && Prefix(a, b)
    ensures b + LowBit(b) <= a + LowBit(a)
  {
    if b % 2 == 0 {
      PrefixEnd(a / 2, b / 2);
    }
  }

  /** The part of a range below an index: its aligned subtree stays inside the index space. */
  lemma SubtreeFits(n: nat)
    requires 0 < n <= MAX_INDEX
    ensures n + LowBit(n) <= MAX_INDEX + 1
  {
    IndexWidth();
    SubtreeBelow(n, INDEX_BITS);
  }

  lemma {:induction false} SubtreeBelow(n: nat, k: nat)
    requires 0 < n < Pow2(k)
    ensures n + LowBit(n) <= Pow2(k)
  {
    if n % 2 == 0 {
      SubtreeBelow(n / 2, k - 1);
    }
  }

  // ---- sums of bits ----

  function SumBits(bits: seq<nat>): nat {
    if bits == [] then 0 else SumBits(bits[..|bits| - 1]) + Pow2(bits[|bits| - 1])
  }

  lemma SumBitsNone(bits: seq<nat>)
    requires bits == []
    ensures SumBits(bits) == 0
  {
  }

  lemma {:induction false} AllBitsSum(n: nat)
    ensures SumBits(SetBits(n)) == n
  {
    if n > 0 {
      AllBitsSum(ClearLow(n));
      var hi := LowBitPower(n);
      ClearLowIs(n);
      var bits := SetBits(n);
      assert bits[..|bits| - 1] == SetBits(ClearLow(n));
    }
  }

  /** The sum of the first bits of a number has exactly those bits. */
  lemma {:induction false} FirstBits(n: nat, i: nat)
    requires i <= |SetBits(n)|
    ensures SetBits(SumBits(SetBits(n)[..i])) == SetBits(n)[..i] && SumBits(SetBits(n)[..i]) <= n
    ensures Prefix(SumBits(SetBits(n)[..i]), n)
    decreases n
  {
    var bits := SetBits(n);
    if i == |bits| {
      assert bits[..i] == bits;
      AllBitsSum(n);
    } else {
      assert bits[..|bits| - 1] == SetBits(ClearLow(n));
      assert bits[..i] == SetBits(ClearLow(n))[..i];
      FirstBits(ClearLow(n), i);
      ParentIsPrefix(n);
      PrefixTransitive(SumBits(bits[..i]), ClearLow(n), n);
    }
  }
}

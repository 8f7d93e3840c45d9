/** Indices as bit masks.

Their set bits, their lowest set bit, and clearing it. */
module Masks {
  function Pow2(k: nat): (r: nat)
    ensures r >= 1
  {
    if k == 0 then 1 else 2 * Pow2(k - 1)
  }

  /** Bit `k` of `n`. */
  predicate Bit(n: nat, k: nat) {
    if k == 0 then n % 2 == 1 else Bit(n / 2, k - 1)
  }

  /** trailing_zeros of a nonzero mask. */
  function Tz(n: nat): nat
    requires n > 0
  {
    if n % 2 == 1 then 0 else 1 + Tz(n / 2)
  }

  /** n & (n - 1) */
  function ClearLow(n: nat): (r: nat)
    requires n > 0
    ensures r < n
  {
    if n % 2 == 1 then n - 1 else 2 * ClearLow(n / 2)
  }

  /** count_ones */
  function PopCount(n: nat): nat {
    if n == 0 then 0 else n % 2 + PopCount(n / 2)
  }

  /** The set bits of `n`, highest first. */
  function SetBits(n: nat): (s: seq<nat>) {
    if n == 0 then [] else SetBits(ClearLow(n)) + [Tz(n)]
  }

  /** The set bits below `k`, highest first, as a countdown over bit positions finds them. */
  function BitsBelow(n: nat, k: nat): (s: seq<nat>) {
    if k == 0 then [] else (if Bit(n, k - 1) then [k - 1] else []) + BitsBelow(n, k - 1)
  }

  function Shift(s: seq<nat>, off: nat): (r: seq<nat>)
    ensures |r| == |s| && forall i :: 0 <= i < |s| ==> r[i] == s[i] + off
  {
    seq(|s|, i requires 0 <= i < |s| => s[i] + off)
  }

  lemma ShiftAppend(s: seq<nat>, t: seq<nat>, off: nat)
    ensures Shift(s + t, off) == Shift(s, off) + Shift(t, off)
  {
  }

  function TopBit(n: nat, k: nat): seq<nat> {
    if Bit(n, k) then [k] else []
  }

  lemma BitsBelowUnfold(n: nat, k: nat)
    ensures BitsBelow(n, 0) == []
    ensures BitsBelow(n, k + 1) == TopBit(n, k) + BitsBelow(n, k)
  {
  }

  lemma BitHalf(n: nat, k: nat)
    ensures Bit(n, k + 1) == Bit(n / 2, k)
  {
  }

  lemma LowestBit(n: nat)
    ensures TopBit(n, 0) + [] == Shift([], 1) + OddBit(n)
    ensures BitsBelow(n / 2, 0) == []
  {
  }

  lemma {:induction false} BitsBelowHalf(n: nat, k: nat)
    ensures BitsBelow(n, k + 1) == Shift(BitsBelow(n / 2, k), 1) + OddBit(n)
  {
    hide BitsBelow, Bit, OddBit;
    BitsBelowUnfold(n, k);
    if k == 0 {
      LowestBit(n);
    } else {
      BitsBelowHalf(n, k - 1);
      BitsBelowUnfold(n / 2, k - 1);
      BitHalf(n, k - 1);
      var top, rest, low := TopBit(n / 2, k - 1), BitsBelow(n / 2, k - 1), OddBit(n);
      assert TopBit(n, k) == Shift(top, 1);
      ShiftAppend(top, rest, 1);
      assert Shift(top, 1) + (Shift(rest, 1) + low) == (Shift(top, 1) + Shift(rest, 1)) + low;
    }
  }

  lemma {:induction false} SetBitsHalf(n: nat)
    ensures SetBits(2 * n) == Shift(SetBits(n), 1)
  {
    if n > 0 {
      SetBitsHalf(ClearLow(n));
      ShiftAppend(SetBits(ClearLow(n)), [Tz(n)], 1);
      assert ClearLow(2 * n) == 2 * ClearLow(n) && Tz(2 * n) == 1 + Tz(n);
    }
  }

  function OddBit(n: nat): seq<nat> {
    if n % 2 == 1 then [0] else []
  }

  lemma SetBitsStep(n: nat)
    ensures SetBits(n) == Shift(SetBits(n / 2), 1) + OddBit(n)
  {
    hide SetBits, ClearLow, Tz;
    SetBitsHalf(n / 2);
    if n % 2 == 1 {
      OddSetBits(n);
    } else {
      assert n == 2 * (n / 2);
    }
  }

  lemma OddSetBits(n: nat)
    requires n % 2 == 1
    ensures SetBits(n) == SetBits(2 * (n / 2)) + [0]
  {
    assert ClearLow(n) == 2 * (n / 2) && Tz(n) == 0;
  }

  /** Counting down over positions finds the same bits as clearing the lowest one repeatedly. */
  lemma {:induction false} CountdownFindsBits(n: nat, k: nat)
    requires n < Pow2(k)
    ensures BitsBelow(n, k) == SetBits(n)
  {
    if k > 0 {
      CountdownFindsBits(n / 2, k - 1);
      BitsBelowHalf(n, k - 1);
      SetBitsStep(n);
    }
  }

  lemma {:induction false} BitsBelowBound(n: nat, k: nat)
    ensures forall i :: 0 <= i < |BitsBelow(n, k)| ==> BitsBelow(n, k)[i] < k
  {
    if k > 0 {
      BitsBelowBound(n, k - 1);
    }
  }

  lemma {:induction false} SetBitsCount(n: nat)
    ensures |SetBits(n)| == PopCount(n)
  {
    if n > 0 {
      ClearLowPop(n);
      SetBitsCount(ClearLow(n));
    }
  }

  lemma {:induction false} ClearLowPop(n: nat)
    requires n > 0
    ensures PopCount(ClearLow(n)) == PopCount(n) - 1
  {
    if n % 2 == 0 {
      ClearLowPop(n / 2);
    } else {
      assert (n - 1) / 2 == n / 2 && (n - 1) % 2 == 0;
    }
  }

  lemma {:induction false} TzBound(n: nat, k: nat)
    requires 0 < n < Pow2(k)
    ensures Tz(n) < k
  {
    if n % 2 == 0 {
      TzBound(n / 2, k - 1);
    }
  }

  lemma NoSetBits()
    ensures SetBits(0) == []
  {
  }

  lemma HighLowHalf(hi: nat, lo: nat, k: nat)
    requires k > 0
    ensures (hi * Pow2(k) + lo) / 2 == hi * Pow2(k - 1) + lo / 2
    ensures (hi * Pow2(k) + lo) % 2 == lo % 2
  {
    var m := hi * Pow2(k - 1);
    assert hi * Pow2(k) == 2 * m;
  }

  /** The bits of a high part and a low part that do not overlap. */
  lemma {:induction false} SetBitsSplit(hi: nat, lo: nat, k: nat)
    requires lo < Pow2(k)
    ensures SetBits(hi * Pow2(k) + lo) == Shift(SetBits(hi), k) + SetBits(lo)
    decreases k
  {
    hide SetBits;
    if k == 0 {
      assert Shift(SetBits(hi), 0) == SetBits(hi);
      NoSetBits();
    } else {
      SetBitsSplit(hi, lo / 2, k - 1);
      var n := hi * Pow2(k) + lo;
      HighLowHalf(hi, lo, k);
      SetBitsStep(n);
      SetBitsStep(lo);
      ShiftAppend(Shift(SetBits(hi), k - 1), SetBits(lo / 2), 1);
      assert Shift(Shift(SetBits(hi), k - 1), 1) == Shift(SetBits(hi), k);
    }
  }
}

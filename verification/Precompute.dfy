/** What a precompute session does with its cache: masks kept by trailing zeros, planned and pruned per target. */
module Precompute {
  import opened Masks
  import opened Shachain
  import opened Prefixes

  /** max_derivable_mask */
  function MaxDerivable(mask: nat): nat {
    if mask == 0 then MAX_INDEX else mask + LowBit(mask) - 1
  }

  /** retain_cache_mask_for_future */
  predicate Retained(mask: nat, target: nat) {
    mask == target || MaxDerivable(mask) > target
  }

  /** The highest index a mask derives really is that, and within the index space. */
  lemma MaxDerivableExactly(mask: nat, b: nat)
    requires mask <= MAX_INDEX && b <= MAX_INDEX && Prefix(mask, b)
    ensures b <= MaxDerivable(mask) <= MAX_INDEX && Prefix(mask, MaxDerivable(mask))
  {
    if mask > 0 {
      SubtreeFits(mask);
    }
  }

  /** So a mask is kept exactly if it is the target or derives some later one. */
  lemma RetainedExactly(mask: nat, target: nat)
    requires mask <= MAX_INDEX && target <= MAX_INDEX
    ensures Retained(mask, target) <==> mask == target || exists i :: target < i <= MAX_INDEX && CanDerive(mask, i)
  {
    hide CanDerive, Prefix;
    if Retained(mask, target) && mask != target {
      var top := MaxDerivable(mask);
      TopDerivable(mask);
      DerivableExactly(mask, top);
      assert target < top <= MAX_INDEX && CanDerive(mask, top);
    }
    forall i | target < i <= MAX_INDEX && CanDerive(mask, i)
      ensures Retained(mask, target)
    {
      DerivableExactly(mask, i);
      MaxDerivableExactly(mask, i);
    }
  }

  lemma TopDerivable(mask: nat)
    requires mask <= MAX_INDEX
    ensures MaxDerivable(mask) <= MAX_INDEX && Prefix(mask, MaxDerivable(mask))
  {
    MaxDerivableExactly(mask, mask);
  }

  /** The cached masks by key, `trailing_zeros(mask)`: all that planning looks at. */
  type Plan = map<nat, nat>

  /** A chunk program that was run: its bits, and whether the seed shares were its input. */
  datatype Run = Run(bits: seq<nat>, first: bool)

  /** The best parent among keys below `k`: the derivable mask with the most bits, the last one on ties. */
  function BestBelow(plan: Plan, target: nat, k: nat): (best: nat)
    ensures best == 0 || (CanDerive(best, target) && exists j :: j in plan && plan[j] == best)
  {
    if k == 0 then 0
    else
      var best := BestBelow(plan, target, k - 1);
      if k - 1 in plan && plan[k - 1] > 0 && CanDerive(plan[k - 1], target) && PopCount(plan[k - 1]) >= PopCount(best) then plan[k - 1] else best
  }

  function Best(plan: Plan, target: nat): nat {
    BestBelow(plan, target, INDEX_BITS)
  }

  /** missing_bits, as a mask. */
  function Missing(plan: Plan, target: nat): nat {
    AndNot(target, Best(plan, target))
  }

  /** The cached masks after the steps for `bits` from `mask` on. */
  function Walked(plan: Plan, target: nat, mask: nat, bits: seq<nat>): (Plan, nat)
  {
    if bits == [] then (plan, mask)
    else
      var m := |bits| - 1;
      var (before, at) := Walked(plan, target, mask, bits[..m]);
      var next := at + Pow2(bits[m]);
      (if Retained(next, target) then before[Tz(next) := next] else before, next)
  }

  lemma NotWalked(plan: Plan, target: nat, mask: nat, bits: seq<nat>)
    requires bits == []
    ensures Walked(plan, target, mask, bits) == (plan, mask)
  {
  }

  lemma WalkedOn(plan: Plan, target: nat, mask: nat, bits: seq<nat>, i: nat)
    requires i < |bits|
    ensures var (before, at) := Walked(plan, target, mask, bits[..i]);
      var next := at + Pow2(bits[i]);
      Walked(plan, target, mask, bits[..i + 1]) == (if Retained(next, target) then before[Tz(next) := next] else before, next)
  {
    assert bits[..i + 1][..i] == bits[..i];
  }

  function Pruned(plan: Plan, target: nat): Plan {
    map k | k in plan && Retained(plan[k], target) :: plan[k]
  }

  /** The cached masks after a target. */
  function NextPlan(plan: Plan, target: nat): Plan {
    if target == 0 || Best(plan, target) == target then plan
    else Pruned(Walked(plan, target, Best(plan, target), SetBits(Missing(plan, target))).0, target)
  }

  /** Every cached mask is a nonzero index under its own key. */
  predicate Keyed(plan: Plan) {
    forall k :: k in plan ==> 0 < plan[k] <= MAX_INDEX && k == Tz(plan[k])
  }

  lemma KeysBelow(plan: Plan, k: nat)
    requires Keyed(plan) && k in plan
    ensures k < INDEX_BITS
  {
    IndexWidth();
    TzBound(plan[k], INDEX_BITS);
  }

  lemma {:induction false} BestIsBest(plan: Plan, target: nat, k: nat, j: nat)
    requires Keyed(plan) && j < k && j in plan && CanDerive(plan[j], target)
    ensures BestBelow(plan, target, k) > 0 && PopCount(plan[j]) <= PopCount(BestBelow(plan, target, k))
  {
    if j < k - 1 {
      BestIsBest(plan, target, k - 1, j);
    } else {
      SomePop(plan[j]);
    }
  }

  lemma {:induction false} SomePop(n: nat)
    requires n > 0
    ensures PopCount(n) > 0
  {
    if n % 2 == 0 {
      SomePop(n / 2);
    }
  }

  lemma BestIsPrefix(plan: Plan, target: nat)
    ensures Prefix(Best(plan, target), target)
    ensures Best(plan, target) <= target && Missing(plan, target) == target - Best(plan, target)
  {
    DerivableExactly(Best(plan, target), target);
    MissingIsDifference(Best(plan, target), target);
  }

  /** How far the best parent falls short of the target. */
  function Gap(plan: Plan, target: nat): (gap: nat)
    ensures Best(plan, target) + gap == target
  {
    BestIsPrefix(plan, target);
    target - Best(plan, target)
  }

  lemma RootSecret(hash: Value -> Value, seed: Value)
    ensures Secret(hash, seed, 0) == seed
  {
    IndexBits(0);
  }

  lemma StepSecret(hash: Value -> Value, seed: Value, mask: nat, bit: nat)
    requires bit < INDEX_BITS && mask + Pow2(bit) <= MAX_INDEX && SetBits(mask + Pow2(bit)) == SetBits(mask) + [bit]
    ensures Secret(hash, seed, mask + Pow2(bit)) == hash(Flip(Secret(hash, seed, mask), bit))
    ensures mask + Pow2(bit) > 0 && Tz(mask + Pow2(bit)) == bit
  {
    hide SetBits, Chain, Flip, Pow2, Secret, Tz;
    SecretIs(hash, seed, mask);
    SecretIs(hash, seed, mask + Pow2(bit));
    ChainStep(hash, seed, SetBits(mask), bit);
    LastBit(mask + Pow2(bit), SetBits(mask), bit);
  }

  lemma SecretIs(hash: Value -> Value, seed: Value, index: nat)
    requires index <= MAX_INDEX
    ensures Indices(SetBits(index)) && Secret(hash, seed, index) == Chain(hash, seed, SetBits(index))
  {
    IndexBits(index);
  }

  lemma LastBit(n: nat, bits: seq<nat>, bit: nat)
    requires SetBits(n) == bits + [bit]
    ensures n > 0 && Tz(n) == bit
  {
    assert SetBits(n)[|bits|] == bit;
  }

  /** After `i` steps from a prefix the carried mask is a prefix with the next bit right below it. */
  lemma PartialSum(mask: nat, missing: nat, i: nat)
    requires Prefix(mask, mask + missing) && mask + missing <= MAX_INDEX && i < |SetBits(missing)|
    ensures var bits := SetBits(missing);
      && bits[i] < INDEX_BITS && SumBits(bits[..i + 1]) == SumBits(bits[..i]) + Pow2(bits[i])
      && mask + SumBits(bits[..i + 1]) <= MAX_INDEX
      && SetBits(mask + SumBits(bits[..i + 1])) == SetBits(mask + SumBits(bits[..i])) + [bits[i]]
  {
    hide *;
    var bits := SetBits(missing);
    IndexBit(missing, i);
    SumBitsNext(bits, i);
    PartialBits(mask, missing, i);
    PartialBits(mask, missing, i + 1);
    assert SetBits(mask) + bits[..i + 1] == (SetBits(mask) + bits[..i]) + [bits[i]];
  }

  lemma IndexBit(index: nat, i: nat)
    requires index <= MAX_INDEX && i < |SetBits(index)|
    ensures SetBits(index)[i] < INDEX_BITS
  {
    IndexBits(index);
  }

  lemma PartialBits(mask: nat, missing: nat, i: nat)
    requires Prefix(mask, mask + missing) && i <= |SetBits(missing)|
    ensures var sum := SumBits(SetBits(missing)[..i]); sum <= missing && SetBits(mask + sum) == SetBits(mask) + SetBits(missing)[..i]
  {
    hide SetBits, Prefix, SumBits;
    var sum := SumBits(SetBits(missing)[..i]);
    FirstBits(missing, i);
    PrefixPart(mask, missing, sum);
    PrefixBits(mask, mask + sum);
  }

  lemma SumBitsNext(bits: seq<nat>, i: nat)
    requires i < |bits|
    ensures SumBits(bits[..i + 1]) == SumBits(bits[..i]) + Pow2(bits[i])
  {
    assert bits[..i + 1][..i] == bits[..i];
  }

  lemma PrefixPart(mask: nat, missing: nat, part: nat)
    requires Prefix(mask, mask + missing) && part <= missing
    ensures Prefix(mask, mask + part)
  {
  }

  /** The programs run for `bits`, one step each: only the very first may take the seed shares. */
  function StepRuns(bits: seq<nat>, seeded: bool): (s: seq<Run>)
    ensures |s| == |bits|
  {
    seq(|bits|, i requires 0 <= i < |bits| => Run([bits[i]], i == 0 && seeded))
  }

  /** The programs a target costs: target 0 runs the shares' XOR alone. */
  function TargetRuns(plan: Plan, target: nat): (s: seq<Run>)
    ensures target > 0 ==> |s| == |SetBits(Gap(plan, target))|
  {
    if target == 0 then [Run([], true)] else StepRuns(SetBits(Gap(plan, target)), Best(plan, target) == 0)
  }

  // ---- what a target leaves in the cache ----

  /** A step above `best` towards `at` that is cached under the key of `m`. */
  ghost predicate Overwritten(best: nat, at: nat, target: nat, m: nat)
    requires m > 0
  {
    exists w :: best < w && Prefix(w, at) && Retained(w, target) && Tz(w) == Tz(m)
  }

  /** Cached after the steps from `best` to `at`: the steps that are kept, and old masks whose key none of them took. */
  ghost predicate CachedAt(plan: Plan, best: nat, at: nat, target: nat, m: nat)
    requires m > 0
  {
    (best < m && Prefix(m, at) && Retained(m, target)) || (InPlan(plan, m) && !Overwritten(best, at, target, m))
  }

  lemma NothingWalked(plan: Plan, best: nat, target: nat, m: nat)
    requires m > 0
    ensures CachedAt(plan, best, best, target, m) <==> InPlan(plan, m)
  {
    forall w | best < w && Prefix(w, best)
      ensures false
    {
    }
  }

  /** One step down: the prefixes of the new mask are those of the old one and itself, under another key. */
  lemma NewPrefixes(at: nat, next: nat, bit: nat, w: nat)
    requires next == at + Pow2(bit) && Tz(next) == bit && w > 0
    ensures Prefix(w, next) <==> w == next || Prefix(w, at)
    ensures Prefix(w, at) ==> Tz(w) > bit
  {
    hide Prefix;
    ClearLowIs(next);
    var hi := LowBitPower(next);
    ParentIsPrefix(next);
    if Prefix(w, at) {
      PrefixTransitive(w, at, next);
      AtMost(w, at);
      PrefixPop(w, next);
    }
    if Prefix(w, next) && w != next {
      ProperPrefix(w, next);
    }
    ItsOwnPrefix(next);
  }

  lemma AtMost(a: nat, b: nat)
    requires a > 0 && Prefix(a, b)
    ensures a <= b
  {
  }

  lemma ItsOwnPrefix(n: nat)
    ensures Prefix(n, n)
  {
  }

  lemma CachedStep(plan: Plan, q: Plan, best: nat, at: nat, next: nat, bit: nat, target: nat, m: nat)
    requires next == at + Pow2(bit) && Tz(next) == bit && best < next && m > 0
    requires InPlan(q, m) <==> CachedAt(plan, best, at, target, m)
    ensures InPlan(if Retained(next, target) then q[bit := next] else q, m) <==> CachedAt(plan, best, next, target, m)
  {
    hide Prefix, Tz, Retained;
    NewPrefixes(at, next, bit, m);
    assert Overwritten(best, next, target, m) <==> Overwritten(best, at, target, m) || (Retained(next, target) && Tz(m) == bit) by {
      NewPrefixes(at, next, bit, next);
      forall w | best < w
        ensures Prefix(w, next) <==> w == next || Prefix(w, at)
      {
        NewPrefixes(at, next, bit, w);
      }
    }
    if Overwritten(best, at, target, m) && Tz(m) == bit {
      var w :| best < w && Prefix(w, at) && Retained(w, target) && Tz(w) == Tz(m);
      NewPrefixes(at, next, bit, w);
    }
  }

  lemma {:induction false} WalkedExactly(plan: Plan, target: nat, best: nat, missing: nat, i: nat, m: nat)
    requires Prefix(best, best + missing) && best + missing <= MAX_INDEX && i <= |SetBits(missing)| && m > 0
    ensures var (q, at) := Walked(plan, target, best, SetBits(missing)[..i]);
      at == best + SumBits(SetBits(missing)[..i]) && (InPlan(q, m) <==> CachedAt(plan, best, at, target, m))
  {
    hide SetBits, Prefix, SumBits, Walked, CachedAt, InPlan, Retained, Tz, Pow2;
    var bits := SetBits(missing);
    if i == 0 {
      NotWalked(plan, target, best, bits[..0]);
      SumBitsNone(bits[..0]);
      NothingWalked(plan, best, target, m);
    } else {
      WalkedExactly(plan, target, best, missing, i - 1, m);
      WalkedOn(plan, target, best, bits, i - 1);
      PartialSum(best, missing, i - 1);
      var (q, at) := Walked(plan, target, best, bits[..i - 1]);
      LastBit(at + Pow2(bits[i - 1]), SetBits(at), bits[i - 1]);
      SomePower(bits[i - 1]);
      CachedStep(plan, q, best, at, at + Pow2(bits[i - 1]), bits[i - 1], target, m);
    }
  }

  lemma {:induction false} SomePower(k: nat)
    ensures Pow2(k) > 0
  {
    if k > 0 {
      SomePower(k - 1);
    }
  }

  /** What is cached after a target: of the prefixes walked and of the masks from before, those that are the target or
  derive a later index, a walked one replacing the mask under its key. */
  lemma NextPlanExactly(plan: Plan, target: nat, m: nat)
    requires 0 < target <= MAX_INDEX && Best(plan, target) != target && 0 < m
    ensures InPlan(NextPlan(plan, target), m) <==> Retained(m, target) && CachedAt(plan, Best(plan, target), target, target, m)
  {
    hide SetBits, Prefix, SumBits, Walked, CachedAt, Retained, Tz, Best;
    var best := Best(plan, target);
    BestIsPrefix(plan, target);
    var missing := target - best;
    var bits := SetBits(missing);
    WalkedExactly(plan, target, best, missing, |bits|, m);
    assert bits[..|bits|] == bits;
    AllBitsSum(missing);
  }

  // ---- runs of targets, and the sweep ----

  /** Cached masks and programs after a run of targets. */
  function PlanAfter(plan: Plan, targets: seq<nat>): Plan {
    if targets == [] then plan else NextPlan(PlanAfter(plan, targets[..|targets| - 1]), targets[|targets| - 1])
  }

  function RunAfter(plan: Plan, targets: seq<nat>): seq<Run> {
    if targets == [] then []
    else
      var m := |targets| - 1;
      var before := PlanAfter(plan, targets[..m]);
      RunAfter(plan, targets[..m]) + TargetRuns(before, targets[m])
  }

  lemma NoTargets(plan: Plan, targets: seq<nat>)
    requires targets == []
    ensures PlanAfter(plan, targets) == plan && RunAfter(plan, targets) == []
  {
  }

  lemma OneMoreTarget(plan: Plan, targets: seq<nat>)
    requires targets != []
    ensures var m := |targets| - 1; var before := PlanAfter(plan, targets[..m]);
      && PlanAfter(plan, targets) == NextPlan(before, targets[m])
      && RunAfter(plan, targets) == RunAfter(plan, targets[..m]) + TargetRuns(before, targets[m])
  {
  }

  /** After target `t`: nothing above it is cached, and every prefix of it that a later target can still use is. */
  ghost predicate Ready(plan: Plan, t: nat) {
    && Keyed(plan)
    && (forall k :: k in plan ==> plan[k] <= t)
    && forall m :: 0 < m <= t && Prefix(m, t) && Retained(m, t) ==> InPlan(plan, m)
  }

  predicate InPlan(plan: Plan, m: nat)
    requires m > 0
  {
    Tz(m) in plan && plan[Tz(m)] == m
  }

  /** The parent of the next target is cached. */
  lemma ParentCached(plan: Plan, t: nat)
    requires Ready(plan, t) && ClearLow(t + 1) > 0
    ensures InPlan(plan, ClearLow(t + 1))
  {
    var p := ClearLow(t + 1);
    ClearLowIs(t + 1);
    ParentBit(t + 1);
    assert Prefix(p, t) && Retained(p, t);
  }

  /** ... and is the best one. */
  lemma BestIsParent(plan: Plan, t: nat)
    requires Ready(plan, t) && t + 1 <= MAX_INDEX
    ensures Best(plan, t + 1) == ClearLow(t + 1)
  {
    hide CanDerive, PopCount, Prefix, LowBit, Retained;
    var n, best, p := t + 1, Best(plan, t + 1), ClearLow(t + 1);
    BestIsPrefix(plan, n);
    ParentIsPrefix(n);
    BestBelowTarget(plan, t);
    ProperPrefix(best, n);
    if best != p {
      PrefixPop(best, p);
      if p > 0 {
        ParentCached(plan, t);
        KeysBelow(plan, Tz(p));
        DerivableExactly(p, n);
        BestIsBest(plan, n, INDEX_BITS, Tz(p));
      }
    }
  }

  lemma BestBelowTarget(plan: Plan, t: nat)
    requires Ready(plan, t)
    ensures Best(plan, t + 1) != t + 1
  {
    hide CanDerive;
    if Best(plan, t + 1) > 0 {
      var j :| j in plan && plan[j] == Best(plan, t + 1);
    }
  }

  lemma LowBitIs(n: nat)
    requires n > 0
    ensures LowBit(n) == Pow2(Tz(n))
  {
    var hi := LowBitPower(n);
  }

  /** What a target adds to the plan when its parent is the best one. */
  lemma ParentPlan(plan: Plan, n: nat)
    requires n > 0 && Best(plan, n) == ClearLow(n)
    ensures NextPlan(plan, n) == Pruned(plan[Tz(n) := n], n) && SetBits(Gap(plan, n)) == [Tz(n)]
  {
    hide Best, SetBits, Walked, Pruned, Prefix, LowBit, Pow2, Tz, ClearLow;
    BestIsPrefix(plan, n);
    ClearLowIs(n);
    LowBitIs(n);
    OneBit(Tz(n));
    OneStep(plan, n, ClearLow(n), Tz(n));
  }

  /** One step of the sweep keeps what the next one needs. */
  lemma SweepStep(plan: Plan, t: nat)
    requires Ready(plan, t) && t + 1 <= MAX_INDEX
    ensures Ready(NextPlan(plan, t + 1), t + 1) && Best(plan, t + 1) == ClearLow(t + 1)
    ensures |SetBits(Gap(plan, t + 1))| == 1
  {
    BestIsParent(plan, t);
    ParentPlan(plan, t + 1);
    ReadyNext(plan, t);
  }

  lemma ReadyNext(plan: Plan, t: nat)
    requires Ready(plan, t) && t + 1 <= MAX_INDEX
    ensures Ready(Pruned(plan[Tz(t + 1) := t + 1], t + 1), t + 1)
  {
    hide Prefix, Tz, Retained;
    var n := t + 1;
    var next := Pruned(plan[Tz(n) := n], n);
    forall m | 0 < m <= n && Prefix(m, n) && Retained(m, n)
      ensures InPlan(next, m)
    {
      if m != n {
        StillCached(plan, t, m);
      }
    }
  }

  lemma StillCached(plan: Plan, t: nat, m: nat)
    requires Ready(plan, t) && 0 < m <= t && Prefix(m, t + 1) && Retained(m, t + 1)
    ensures InPlan(plan, m) && Tz(m) != Tz(t + 1)
  {
    ProperPrefix(m, t + 1);
    PrefixPop(m, t + 1);
    assert Prefix(m, t) && Retained(m, t);
  }

  lemma OneBit(k: nat)
    ensures SetBits(Pow2(k)) == [k]
  {
    SetBitsSplit(1, 0, k);
    assert SetBits(1) == SetBits(0) + [0] && SetBits(0) == [];
    assert Shift([0], k) + [] == [k];
  }

  lemma OneStep(plan: Plan, n: nat, p: nat, k: nat)
    requires 0 < n && p == ClearLow(n) && p + Pow2(k) == n && k == Tz(n) && SetBits(Pow2(k)) == [k]
    ensures Walked(plan, n, p, [k]) == (plan[k := n], n)
  {
    assert [k][..0] == [];
    assert Walked(plan, n, p, []) == (plan, p);
  }

  /** The targets 1, 2, ..., n. */
  function Sweep(n: nat): (s: seq<nat>)
    ensures |s| == n && forall i :: 0 <= i < n ==> s[i] == i + 1
  {
    seq(n, i requires 0 <= i < n => i + 1)
  }

  lemma NothingCached()
    ensures Ready(map[], 0)
  {
  }

  /** Sweeping 1..n from an empty cache runs exactly one hash program per target, on its parent. */
  lemma {:induction false} SweepCostsOneEach(n: nat)
    requires n <= MAX_INDEX
    ensures Ready(PlanAfter(map[], Sweep(n)), n)
    ensures |RunAfter(map[], Sweep(n))| == n
    ensures forall t :: 0 <= t < n ==> Best(PlanAfter(map[], Sweep(t)), t + 1) == ClearLow(t + 1)
  {
    hide Ready, NextPlan, Best, SetBits, ClearLow, Gap, TargetRuns, PlanAfter, RunAfter;
    NoTargets(map[], Sweep(0));
    if n == 0 {
      NothingCached();
    } else {
      assert Sweep(n)[..n - 1] == Sweep(n - 1);
      SweepCostsOneEach(n - 1);
      OneMoreTarget(map[], Sweep(n));
      SweepStep(PlanAfter(map[], Sweep(n - 1)), n - 1);
    }
  }
}

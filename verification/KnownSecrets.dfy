/** The daemon's store of revealed secrets: it keeps a secret only as long as no other stored one derives it. */
module KnownSecrets {
  import opened Options
  import opened Masks
  import opened Shachain
  import opened Prefixes

  /** What derive_from_known returns. */
  function Derived(hash: Value -> Value, a: nat, secret: Value, b: nat): Option<Value>
    requires b <= MAX_INDEX
  {
    if CanDerive(a, b) then
      DerivableExactly(a, b);
      MissingIsDifference(a, b);
      IndexBits(b - a);
      Some(Chain(hash, secret, SetBits(b - a)))
    else None
  }

  /** derive_from_known: the bit tests, then a hash per missing bit from the highest down. */
  method DeriveFromKnown(hash: Value -> Value, a: nat, secret: Value, b: nat) returns (r: Option<Value>)
    requires b <= MAX_INDEX
    ensures r == Derived(hash, a, secret, b)
  {
    if AndNot(a, b) != 0 {
      return None;
    }
    var missing := AndNot(b, a);
    if a != 0 && Shr(missing, Tz(a)) != 0 {
      return None;
    }
    hide SetBits, Chain, Flip, AndNot, Shr, Tz, Bit, BitsBelow;
    DerivableExactly(a, b);
    MissingIsDifference(a, b);
    var p := GenerateFrom(hash, secret, missing);
    r := Some(p);
  }

  /** The loop over set_bits_desc(missing). */
  method GenerateFrom(hash: Value -> Value, secret: Value, missing: nat) returns (p: Value)
    requires missing <= MAX_INDEX
    ensures Indices(SetBits(missing)) && p == Chain(hash, secret, SetBits(missing))
  {
    p := GenerateFromSeed(hash, secret, missing);
    IndexBits(missing);
  }

  /** From a correct secret the derivation succeeds exactly for the indices below it, and correctly. */
  lemma DerivedSecret(hash: Value -> Value, seed: Value, a: nat, b: nat)
    requires a <= MAX_INDEX && b <= MAX_INDEX
    ensures var r := Derived(hash, a, Secret(hash, seed, a), b);
      r == if Prefix(a, b) then Some(Secret(hash, seed, b)) else None
  {
    hide SetBits, Chain, CanDerive, Secret;
    DerivableExactly(a, b);
    if Prefix(a, b) {
      SecretFromPrefix(hash, seed, a, b);
    }
  }

  type Store = map<nat, Value>

  predicate InRange(known: Store) {
    forall i :: i in known ==> i <= MAX_INDEX
  }

  predicate Redundant(hash: Value -> Value, known: Store, index: nat, secret: Value)
    requires index <= MAX_INDEX
  {
    exists i :: i in known && Derived(hash, i, known[i], index) == Some(secret)
  }

  /** The stored indices the new secret derives. */
  predicate Superseded(hash: Value -> Value, known: Store, index: nat, secret: Value, i: nat)
    requires InRange(known) && i in known
  {
    Derived(hash, index, secret, i) == Some(known[i])
  }

  function Stored(hash: Value -> Value, known: Store, index: nat, secret: Value): Store
    requires InRange(known) && index <= MAX_INDEX
  {
    if Redundant(hash, known, index, secret) then known
    else (map i | i in known && !Superseded(hash, known, index, secret, i) :: known[i])[index := secret]
  }

  /** store_known_secret: one pass over the store, whatever its order. */
  method StoreKnownSecret(hash: Value -> Value, known: Store, index: nat, secret: Value) returns (after: Store)
    requires InRange(known) && index <= MAX_INDEX
    ensures after == Stored(hash, known, index, secret)
  {
    hide Derived;
    var left := known.Keys;
    var drop: set<nat> := {};
    while left != {}
      invariant left <= known.Keys
      invariant forall i :: i in known && i !in left ==> Derived(hash, i, known[i], index) != Some(secret)
      invariant forall i :: i in drop <==> i in known && i !in left && Superseded(hash, known, index, secret, i)
      decreases left
    {
      var i :| i in left;
      var up := DeriveFromKnown(hash, i, known[i], index);
      if up == Some(secret) {
        return known;
      }
      var down := DeriveFromKnown(hash, index, secret, i);
      if down == Some(known[i]) {
        drop := drop + {i};
      }
      left := left - {i};
    }
    after := (known - drop)[index := secret];
    assert known - drop == map i | i in known && !Superseded(hash, known, index, secret, i) :: known[i];
  }

  /** derive_known: any stored secret that derives the request will do. */
  method DeriveKnown(hash: Value -> Value, known: Store, requested: nat) returns (r: Option<Value>)
    requires requested <= MAX_INDEX
    ensures r.None? <==> forall i :: i in known ==> !CanDerive(i, requested)
    ensures r.Some? ==> exists i :: i in known && Derived(hash, i, known[i], requested) == r
  {
    hide CanDerive, Chain;
    var left := known.Keys;
    while left != {}
      invariant left <= known.Keys
      invariant forall i :: i in known && i !in left ==> !CanDerive(i, requested)
      decreases left
    {
      var i :| i in left;
      r := DeriveFromKnown(hash, i, known[i], requested);
      if r.Some? {
        return;
      }
      left := left - {i};
    }
    r := None;
  }

  // ---- stores filled with correct secrets ----

  ghost predicate Correct(hash: Value -> Value, seed: Value, known: Store) {
    forall i :: i in known ==> i <= MAX_INDEX && known[i] == Secret(hash, seed, i)
  }

  /** No stored index derives another. */
  ghost predicate Antichain(known: Store) {
    forall i, j :: i in known && j in known && Prefix(i, j) ==> i == j
  }

  /** Can `b` be derived from the store? */
  ghost predicate Covered(known: Store, b: nat) {
    exists i :: i in known && Prefix(i, b)
  }

  lemma StoredKeys(hash: Value -> Value, seed: Value, known: Store, index: nat)
    requires Correct(hash, seed, known) && index <= MAX_INDEX
    ensures InRange(known) && Redundant(hash, known, index, Secret(hash, seed, index)) == Covered(known, index)
    ensures var after := Stored(hash, known, index, Secret(hash, seed, index));
      forall i :: i in after <==> if Covered(known, index) then i in known else i == index || (i in known && !Prefix(index, i))
  {
    hide Derived, Secret, Prefix;
    forall i | i in known
      ensures Derived(hash, i, known[i], index) == (if Prefix(i, index) then Some(Secret(hash, seed, index)) else None)
      ensures Derived(hash, index, Secret(hash, seed, index), i) == (if Prefix(index, i) then Some(known[i]) else None)
    {
      DerivedSecret(hash, seed, i, index);
      DerivedSecret(hash, seed, index, i);
    }
  }

  /** A correct store stays correct and an antichain, and what can be derived grows by exactly what the new secret derives. */
  lemma StoreKeeps(hash: Value -> Value, seed: Value, known: Store, index: nat)
    requires Correct(hash, seed, known) && Antichain(known) && index <= MAX_INDEX
    ensures InRange(known)
    ensures var after := Stored(hash, known, index, Secret(hash, seed, index));
      && Correct(hash, seed, after) && Antichain(after)
      && forall b :: Covered(after, b) <==> Covered(known, b) || Prefix(index, b)
  {
    StoredKeys(hash, seed, known, index);
    hide Secret, Prefix, Redundant, Superseded;
    var after := Stored(hash, known, index, Secret(hash, seed, index));
    forall b
      ensures Covered(after, b) <==> Covered(known, b) || Prefix(index, b)
    {
      StoreCovers(known, index, after, b);
    }
    forall i, j | i in after && j in after && Prefix(i, j)
      ensures i == j
    {
      if j == index && i != index {
        assert Covered(known, index);
      }
    }
  }

  lemma StoreCovers(known: Store, index: nat, after: Store, b: nat)
    requires forall i :: i in after <==> if Covered(known, index) then i in known else i == index || (i in known && !Prefix(index, i))
    ensures Covered(after, b) <==> Covered(known, b) || Prefix(index, b)
  {
    hide Prefix;
    if Covered(known, index) {
      if Prefix(index, b) {
        var i :| i in known && Prefix(i, index);
        PrefixTransitive(i, index, b);
        assert i in after;
      }
      if Covered(after, b) {
        var i :| i in after && Prefix(i, b);
        assert i in known;
      }
      if Covered(known, b) {
        var i :| i in known && Prefix(i, b);
        assert i in after;
      }
    } else {
      assert index in after;
      if Covered(known, b) && !Prefix(index, b) {
        var i :| i in known && Prefix(i, b);
        if Prefix(index, i) {
          PrefixTransitive(index, i, b);
        }
        assert i in after;
      }
      if Covered(after, b) && !Prefix(index, b) {
        var i :| i in after && Prefix(i, b);
        assert i in known;
      }
    }
  }

  /** The store after a sequence of correct secrets. */
  ghost function AfterAll(hash: Value -> Value, seed: Value, indices: seq<nat>): Store
    requires forall k :: 0 <= k < |indices| ==> indices[k] <= MAX_INDEX
    ensures InRange(AfterAll(hash, seed, indices))
  {
    if indices == [] then map[]
    else
      var m := |indices| - 1;
      var known := AfterAll(hash, seed, indices[..m]);
      Stored(hash, known, indices[m], Secret(hash, seed, indices[m]))
  }

  /** Does one of the stored secrets derive `b`? */
  ghost predicate OneDerives(indices: seq<nat>, b: nat) {
    exists k :: 0 <= k < |indices| && Prefix(indices[k], b)
  }

  lemma OneDerivesStep(indices: seq<nat>, b: nat)
    requires indices != []
    ensures OneDerives(indices, b) <==> OneDerives(indices[..|indices| - 1], b) || Prefix(indices[|indices| - 1], b)
  {
    hide Prefix;
    var m := |indices| - 1;
    if OneDerives(indices[..m], b) {
      var k :| 0 <= k < m && Prefix(indices[..m][k], b);
      assert Prefix(indices[k], b);
    }
    if OneDerives(indices, b) {
      var k :| 0 <= k < |indices| && Prefix(indices[k], b);
      assert k < m ==> Prefix(indices[..m][k], b);
    }
  }

  /** After any sequence of correct stores: correct, an antichain, and able to derive exactly what one of them derives. */
  lemma {:induction false} StoreSound(hash: Value -> Value, seed: Value, indices: seq<nat>)
    requires forall k :: 0 <= k < |indices| ==> indices[k] <= MAX_INDEX
    ensures var known := AfterAll(hash, seed, indices); Correct(hash, seed, known) && Antichain(known)
    ensures forall b :: Covered(AfterAll(hash, seed, indices), b) <==> OneDerives(indices, b)
  {
    hide Secret, Prefix, Stored, Correct, Antichain, Covered, OneDerives;
    if indices == [] {
      NothingStored(hash, seed, indices);
    } else {
      var m := |indices| - 1;
      StoreSound(hash, seed, indices[..m]);
      StoreKeeps(hash, seed, AfterAll(hash, seed, indices[..m]), indices[m]);
      forall b
        ensures Covered(AfterAll(hash, seed, indices), b) <==> OneDerives(indices, b)
      {
        OneDerivesStep(indices, b);
      }
    }
  }

  lemma NothingStored(hash: Value -> Value, seed: Value, indices: seq<nat>)
    requires indices == []
    ensures Correct(hash, seed, map[]) && Antichain(map[])
    ensures forall b :: !Covered(map[], b) && !OneDerives(indices, b)
  {
  }

  /** So derive_known answers exactly the indices some stored secret derives, with the right secret. */
  method Answer(hash: Value -> Value, ghost seed: Value, known: Store, requested: nat) returns (r: Option<Value>)
    requires Correct(hash, seed, known) && requested <= MAX_INDEX
    ensures r == if Covered(known, requested) then Some(Secret(hash, seed, requested)) else None
  {
    hide Secret;
    r := DeriveKnown(hash, known, requested);
    forall i | i in known
      ensures CanDerive(i, requested) == Prefix(i, requested)
      ensures Derived(hash, i, known[i], requested) == if Prefix(i, requested) then Some(Secret(hash, seed, requested)) else None
    {
      DerivableExactly(i, requested);
      DerivedSecret(hash, seed, i, requested);
    }
  }

  // ---- the countdown of a channel ----

  /** Is `m` kept when all secrets from the top down to `index` have been stored? Its parent must be below. */
  predicate Kept(index: nat, m: nat) {
    index <= m <= MAX_INDEX && (m == 0 || ClearLow(m) < index)
  }

  /** The indices `index` + 2^j for j below `k`. */
  ghost function Children(index: nat, k: nat): (s: set<nat>)
    ensures |s| == k && forall m :: m in s ==> index < m < index + Pow2(k)
  {
    if k == 0 then {} else Children(index, k - 1) + {index + Pow2(k - 1)}
  }

  lemma {:induction false} IsChild(index: nat, k: nat, j: nat)
    requires j < k
    ensures index + Pow2(j) in Children(index, k)
  {
    if j < k - 1 {
      IsChild(index, k - 1, j);
    }
  }

  lemma {:induction false} WhichChild(index: nat, k: nat, m: nat) returns (j: nat)
    requires m in Children(index, k)
    ensures j < k && m == index + Pow2(j)
  {
    if m == index + Pow2(k - 1) {
      j := k - 1;
    } else {
      j := WhichChild(index, k - 1, m);
    }
  }

  lemma {:induction false} PowersApart(k: nat)
    ensures forall j :: 0 <= j < k ==> Pow2(j) < Pow2(k)
  {
    if k > 0 {
      PowersApart(k - 1);
    }
  }

  lemma {:induction false} ClearLowPower(k: nat)
    ensures ClearLow(Pow2(k)) == 0 && Tz(Pow2(k)) == k
  {
    if k > 0 {
      ClearLowPower(k - 1);
    }
  }

  lemma {:induction false} NoParentIsPower(n: nat)
    requires n > 0 && ClearLow(n) == 0
    ensures n == Pow2(Tz(n))
  {
    if n % 2 == 0 {
      NoParentIsPower(n / 2);
    }
  }

  /** Below an aligned index, clearing the lowest bit works on the low part. */
  lemma {:induction false} ClearLowSplit(index: nat, lo: nat)
    requires index > 0 && 0 < lo < LowBit(index)
    ensures ClearLow(index + lo) == index + ClearLow(lo)
  {
    if lo % 2 == 0 {
      assert (index + lo) / 2 == index / 2 + lo / 2 && (index + lo) % 2 == 0;
      ClearLowSplit(index / 2, lo / 2);
    }
  }

  /** The indices whose parent is `index`. */
  lemma ChildrenExactly(index: nat, m: nat)
    requires 0 < index < m
    ensures ClearLow(m) == index <==> m in Children(index, Tz(index))
    ensures Prefix(index, m) && ClearLow(m) <= index <==> ClearLow(m) == index
  {
    hide ClearLow, Tz, Pow2, LowBit, Children;
    var hi := LowBitPower(index);
    if ClearLow(m) == index {
      ParentIsPrefix(m);
      ClearLowSplit(index, m - index);
      NoParentIsPower(m - index);
      PowerBelow(Tz(m - index), Tz(index));
      IsChild(index, Tz(index), Tz(m - index));
    }
    if m in Children(index, Tz(index)) {
      var j := WhichChild(index, Tz(index), m);
      PowersApart(Tz(index));
      ClearLowSplit(index, Pow2(j));
      ClearLowPower(j);
    }
    if Prefix(index, m) && ClearLow(m) <= index {
      ClearLowSplit(index, m - index);
    }
  }

  lemma PowerBelow(j: nat, k: nat)
    requires Pow2(j) < Pow2(k)
    ensures j < k
  {
    if j > k {
      PowersApart(j);
    }
  }

  ghost predicate Exactly(known: Store, index: nat) {
    forall m :: m in known <==> Kept(index, m)
  }

  /** No kept index derives the next one down. */
  lemma NextIsNew(known: Store, index: nat)
    requires index < MAX_INDEX && Exactly(known, index + 1)
    ensures !Covered(known, index)
  {
  }

  lemma {:induction false} PopStep(n: nat)
    requires n > 0
    ensures PopCount(n) + Tz(n) == PopCount(n - 1) + 1
  {
    if n % 2 == 0 {
      PopStep(n / 2);
      assert (n - 1) / 2 == n / 2 - 1 && (n - 1) % 2 == 1;
    } else {
      assert (n - 1) / 2 == n / 2;
    }
  }

  lemma {:induction false} TzOfComplement(n: nat, k: nat)
    requires 0 < n < Pow2(k)
    ensures Tz(Pow2(k) - n) == Tz(n)
  {
    if n % 2 == 0 {
      assert (Pow2(k) - n) / 2 == Pow2(k - 1) - n / 2;
      TzOfComplement(n / 2, k - 1);
    }
  }

  /** At index 0 everything is derived from the one new secret. */
  lemma RootStep(known: Store, after: Store)
    requires forall m :: m in after <==> m == 0 || (m in known && !Prefix(0, m))
    ensures Exactly(after, 0) && |after| == 1 == PopCount(MAX_INDEX + 1)
  {
    forall m
      ensures m in after <==> m == 0
    {
      assert Prefix(0, m);
    }
    assert after.Keys == {0};
    assert |after| == |after.Keys|;
    IndexWidth();
    PowerPop(INDEX_BITS);
  }

  lemma NotKeptBelow(index: nat)
    ensures !Kept(index + 1, index)
  {
  }

  /** Above it, the new secret replaces its children. */
  lemma ChildrenStep(known: Store, after: Store, index: nat)
    requires 0 < index < MAX_INDEX && Exactly(known, index + 1)
    requires forall m :: m in after <==> m == index || (m in known && !Prefix(index, m))
    ensures Exactly(after, index) && |after| + Tz(index) == |known| + 1
  {
    hide Prefix, Kept, Children, Tz;
    var gone := Children(index, Tz(index));
    forall m
      ensures m in after <==> m == index || (m in known && m !in gone)
      ensures m in gone ==> m in known
      ensures m in after <==> Kept(index, m)
    {
      KeptStep(known, after, index, m);
    }
    NotKeptBelow(index);
    KeysReplaced(known, after, gone, index);
  }

  lemma KeysReplaced(known: Store, after: Store, gone: set<nat>, index: nat)
    requires index !in known && forall m :: m in gone ==> m in known
    requires forall m :: m in after <==> m == index || (m in known && m !in gone)
    ensures |after| == |known| - |gone| + 1
  {
    assert after.Keys == (known.Keys - gone) + {index};
    assert gone <= known.Keys;
    assert |known.Keys - gone| == |known.Keys| - |gone|;
    assert |after| == |after.Keys| && |known| == |known.Keys|;
  }

  /** One more secret from the top: the store holds exactly the kept indices, as many as the count of
  stored secrets has bits. */
  lemma CountdownStep(hash: Value -> Value, seed: Value, known: Store, index: nat)
    requires index < MAX_INDEX && Correct(hash, seed, known) && Exactly(known, index + 1)
    requires |known| == PopCount(MAX_INDEX + 1 - (index + 1))
    ensures InRange(known)
    ensures var after := Stored(hash, known, index, Secret(hash, seed, index)); Exactly(after, index) && |after| == PopCount(MAX_INDEX + 1 - index)
  {
    hide Secret, Prefix, Stored, PopCount, Redundant, Exactly, Covered, Tz;
    StoredKeys(hash, seed, known, index);
    NextIsNew(known, index);
    var after := Stored(hash, known, index, Secret(hash, seed, index));
    if index == 0 {
      RootStep(known, after);
    } else {
      ChildrenStep(known, after, index);
      IndexWidth();
      PopStep(MAX_INDEX + 1 - index);
      TzOfComplement(index, INDEX_BITS);
    }
  }

  lemma {:induction false} PowerPop(k: nat)
    ensures PopCount(Pow2(k)) == 1
  {
    if k > 0 {
      PowerPop(k - 1);
      var half := Pow2(k - 1);
      assert Pow2(k) == 2 * half && 2 * half / 2 == half && 2 * half % 2 == 0;
    } else {
      assert PopCount(0) == 0;
    }
  }

  lemma KeptStep(known: Store, after: Store, index: nat, m: nat)
    requires 0 < index < MAX_INDEX && Exactly(known, index + 1)
    requires m in after <==> m == index || (m in known && !Prefix(index, m))
    ensures m in after <==> m == index || (m in known && m !in Children(index, Tz(index)))
    ensures m in Children(index, Tz(index)) ==> m in known
    ensures m in after <==> Kept(index, m)
  {
    hide Prefix;
    if index < m <= MAX_INDEX {
      ChildrenExactly(index, m);
    } else if m in Children(index, Tz(index)) {
      ChildInRange(index, m);
    }
  }

  lemma ChildInRange(index: nat, m: nat)
    requires 0 < index <= MAX_INDEX && m in Children(index, Tz(index))
    ensures m <= MAX_INDEX
  {
    var hi := LowBitPower(index);
    SubtreeFits(index);
  }

  /** Storing every secret from the highest index down to `index` leaves popcount(2^48 - index) of them:
  at most 48, however many were revealed. */
  lemma {:induction false} CountdownStores(hash: Value -> Value, seed: Value, index: nat) returns (known: Store)
    requires index <= MAX_INDEX
    ensures Correct(hash, seed, known) && Exactly(known, index) && |known| == PopCount(MAX_INDEX + 1 - index)
    ensures known == CountedDown(hash, seed, index)
    decreases MAX_INDEX - index
  {
    if index == MAX_INDEX {
      known := TopStore(hash, seed);
    } else {
      var above := CountdownStores(hash, seed, index + 1);
      CountdownStep(hash, seed, above, index);
      KeptAntichain(above, index + 1);
      StoreKeeps(hash, seed, above, index);
      known := Stored(hash, above, index, Secret(hash, seed, index));
    }
  }

  /** The store after the secrets from the top down to `index`. */
  ghost function CountedDown(hash: Value -> Value, seed: Value, index: nat): (known: Store)
    requires index <= MAX_INDEX
    ensures InRange(known)
    decreases MAX_INDEX - index
  {
    if index == MAX_INDEX then StoredSafe(hash, map[], index, Secret(hash, seed, index))
    else StoredSafe(hash, CountedDown(hash, seed, index + 1), index, Secret(hash, seed, index))
  }

  /** The store after one secret, which stays within the index range. */
  ghost function StoredSafe(hash: Value -> Value, known: Store, index: nat, secret: Value): (after: Store)
    requires InRange(known) && index <= MAX_INDEX
    ensures after == Stored(hash, known, index, secret) && InRange(after)
  {
    Stored(hash, known, index, secret)
  }

  lemma KeptAntichain(known: Store, index: nat)
    requires 0 < index <= MAX_INDEX && Exactly(known, index)
    ensures Antichain(known)
  {
    forall i, j | i in known && j in known && Prefix(i, j)
      ensures i == j
    {
      if i != j {
        ProperPrefix(i, j);
      }
    }
  }

  lemma TopStore(hash: Value -> Value, seed: Value) returns (known: Store)
    ensures Correct(hash, seed, known) && Exactly(known, MAX_INDEX) && |known| == PopCount(1)
    ensures known == CountedDown(hash, seed, MAX_INDEX)
  {
    hide Secret;
    known := map[MAX_INDEX := Secret(hash, seed, MAX_INDEX)];
    StoredKeys(hash, seed, map[], MAX_INDEX);
    var after := CountedDown(hash, seed, MAX_INDEX);
    assert after.Keys == {MAX_INDEX};
    assert after == known;
    assert PopCount(1) == 1 + PopCount(0);
    assert known.Keys == {MAX_INDEX};
    assert |known| == |known.Keys|;
  }
}

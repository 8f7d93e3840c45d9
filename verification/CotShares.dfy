/** From two sessions of correlated OTs, one in each direction, to the authenticated shares of two pools. */
module CotShares {
  import opened Blocks
  import opened Auth
  import opened Butterfly
  import opened SoftChunk
  import opened SoftSession
  import opened TriplePool

  function Zipped(mac: seq<Block>, key: seq<Block>): (s: seq<Bundle>)
    requires |mac| == |key|
    ensures |s| == |mac| && forall i :: 0 <= i < |s| ==> s[i] == Bundle(mac[i], key[i])
  {
    seq(|mac|, i requires 0 <= i < |mac| => Bundle(mac[i], key[i]))
  }

  /** What a party receives in one direction is its MAC, what it sends in the other is its key. */
  lemma PairRelated(sendA: Block, recvB: Block, sendB: Block, recvA: Block, dA: Block, dB: Block)
    requires Correlated(sendA, recvB, dA) && Correlated(sendB, recvA, dB)
    ensures Related(Bundle(recvA, sendA), Bundle(recvB, sendB), dA, dB)
  {
  }

  lemma CorrelatedShares(sendA: seq<Block>, recvB: seq<Block>, sendB: seq<Block>, recvA: seq<Block>, dA: Block, dB: Block)
    requires |sendA| == |sendB| && AllCorrelated(sendA, recvB, dA) && AllCorrelated(sendB, recvA, dB)
    ensures AllRelated(Zipped(recvA, sendA), Zipped(recvB, sendB), dA, dB)
  {
    hide Correlated, Related;
    forall i | 0 <= i < |sendA|
      ensures Related(Zipped(recvA, sendA)[i], Zipped(recvB, sendB)[i], dA, dB)
    {
      PairRelated(sendA[i], recvB[i], sendB[i], recvA[i], dA, dB);
    }
  }

  // ---- the shares of a session as a function of the trees ----

  /** One direction of transfers: both roles' trees, Δ, and the number of the first session. */
  datatype Direction = Direction(expand: Expander, theirs: Forest, ours: Forest, delta: Block, first: nat)

  predicate Grown(d: Direction) {
    Whole(d.theirs) && Whole(d.ours)
  }

  function Sent(d: Direction, session: nat, i: nat): Block
    requires Grown(d)
  {
    SessionSend(d.expand, d.theirs, d.ours, d.delta, d.first + session, i)
  }

  function Received(d: Direction, session: nat, i: nat): Block
    requires Grown(d)
  {
    SessionRecv(d.expand, d.ours, d.first + session, i)
  }

  /** Alice's share `i` of a session, `d1` being the direction she sends in and `d2` the one she receives in. */
  function AliceShare(d1: Direction, d2: Direction, session: nat, i: nat): Bundle {
    if Grown(d1) && Grown(d2) then Bundle(Received(d2, session, i), Sent(d1, session, i)) else PUBLIC
  }

  function BobShare(d1: Direction, d2: Direction, session: nat, i: nat): Bundle {
    if Grown(d1) && Grown(d2) then Bundle(Received(d1, session, i), Sent(d2, session, i)) else PUBLIC
  }

  function AliceStream(d1: Direction, d2: Direction): (nat, nat) -> Bundle {
    (session: nat, i: nat) => AliceShare(d1, d2, session, i)
  }

  function BobStream(d1: Direction, d2: Direction): (nat, nat) -> Bundle {
    (session: nat, i: nat) => BobShare(d1, d2, session, i)
  }

  lemma OtCorrelated(d: Direction, session: nat, i: nat)
    requires Agree(d.theirs, d.ours, d.delta) && d.delta[0]
    ensures Grown(d) && Correlated(Sent(d, session, i), Received(d, session, i), d.delta)
  {
    hide Correlated, SendItem, RecvItem, Agree;
    AgreeWhole(d.theirs, d.ours, d.delta);
    ItemsCorrelated(d.expand, d.theirs, d.ours, d.delta, d.first + session, i / BLOCK_BITS, i % BLOCK_BITS);
  }

  /** Trees that agree in both directions make related shares, in every session and at every position. */
  lemma StreamsAreRelated(d1: Direction, d2: Direction)
    requires Agree(d1.theirs, d1.ours, d1.delta) && d1.delta[0] && Agree(d2.theirs, d2.ours, d2.delta) && d2.delta[0]
    ensures StreamsRelated(AliceStream(d1, d2), BobStream(d1, d2), d1.delta, d2.delta)
  {
    hide Correlated, Related, Sent, Received, Agree, Grown;
    forall session: nat, i: nat
      ensures Related(AliceStream(d1, d2)(session, i), BobStream(d1, d2)(session, i), d1.delta, d2.delta)
    {
      OtCorrelated(d1, session, i);
      OtCorrelated(d2, session, i);
      PairRelated(Sent(d1, session, i), Received(d1, session, i), Sent(d2, session, i), Received(d2, session, i), d1.delta, d2.delta);
    }
  }

  // ---- what the pools hand out is what the sessions mint ----

  ghost predicate Apart(a1: Cot, b1: Cot, b2: Cot, a2: Cot) {
    a1 != b1 && a1 != b2 && a1 != a2 && b1 != b2 && b1 != a2 && b2 != a2
  }

  /** The pair of OT instances stands at position `pos` of session `session` of its direction. */
  ghost predicate At<D>(a: Cot, b: Cot, w: World<D>, d: Direction, session: nat, pos: nat)
    reads a, b
  {
    && InSession(a, b) && Streaming(a, b, w)
    && a.curSession == d.first + session && a.given == a.begun + pos
    && d.expand == w.expand && d.theirs == a.leaves && d.ours == b.leaves && d.delta == a.delta
  }

  /** next_n hands out the next OTs of its direction. */
  method NextOts<D>(a: Cot, b: Cot, w: World<D>, ghost d: Direction, ghost session: nat, ghost pos: nat, count: nat)
    returns (send: seq<Block>, recv: seq<Block>)
    requires At(a, b, w, d, session, pos)
    modifies a`checkQ, a`curB0, a`cuts, a`used, a`produced, a`given, a`leftover, a`leftoverPos, a`leftoverCount
    modifies b`checkT, b`checkX, b`curB0, b`cuts, b`used, b`produced, b`given, b`leftover, b`leftoverPos, b`leftoverCount
    ensures At(a, b, w, d, session, pos + count) && |send| == |recv| == count && AllCorrelated(send, recv, a.delta)
    ensures Grown(d) && forall i :: 0 <= i < count ==> send[i] == Sent(d, session, pos + i) && recv[i] == Received(d, session, pos + i)
  {
    hide InSession, AllCorrelated, SessionSend, SessionRecv;
    send, recv := NextN(a, b, w, count);
    forall i | 0 <= i < count
      ensures send[i] == Sent(d, session, pos + i) && recv[i] == Received(d, session, pos + i)
    {
      var at := a.begun + pos + i;
      assert send[i] == a.produced[at] && recv[i] == b.produced[at];
      assert a.begun <= at < |a.produced|;
    }
  }

  /** gen_cot_shares on both sides, `a1`/`b1` being the instance Alice sends in and `b2`/`a2` the one Bob sends in: the
  shares minted are related, and they are those the two pools hand out for the same request. */
  method GenCotShares<D>(a1: Cot, b1: Cot, b2: Cot, a2: Cot, w1: World<D>, w2: World<D>, ghost d1: Direction, ghost d2: Direction,
                         alice: Pool, bob: Pool, count: nat)
    returns (mintedA: seq<Bundle>, mintedB: seq<Bundle>, sa: seq<Bundle>, sb: seq<Bundle>)
    requires Apart(a1, b1, b2, a2) && PoolsPaired(alice, bob)
    requires At(a1, b1, w1, d1, alice.session, alice.pos) && At(b2, a2, w2, d2, alice.session, alice.pos)
    requires alice.stream == AliceStream(d1, d2) && bob.stream == BobStream(d1, d2)
    modifies a1`checkQ, a1`curB0, a1`cuts, a1`used, a1`produced, a1`given, a1`leftover, a1`leftoverPos, a1`leftoverCount
    modifies b1`checkT, b1`checkX, b1`curB0, b1`cuts, b1`used, b1`produced, b1`given, b1`leftover, b1`leftoverPos, b1`leftoverCount
    modifies b2`checkQ, b2`curB0, b2`cuts, b2`used, b2`produced, b2`given, b2`leftover, b2`leftoverPos, b2`leftoverCount
    modifies a2`checkT, a2`checkX, a2`curB0, a2`cuts, a2`used, a2`produced, a2`given, a2`leftover, a2`leftoverPos, a2`leftoverCount
    modifies alice`pos, bob`pos
    ensures PoolsPaired(alice, bob) && alice.pos == old(alice.pos) + count
    ensures At(a1, b1, w1, d1, alice.session, alice.pos) && At(b2, a2, w2, d2, alice.session, alice.pos)
    ensures |mintedA| == count && AllRelated(mintedA, mintedB, a1.delta, b2.delta)
    ensures mintedA == sa && mintedB == sb
  {
    hide AllCorrelated, AllRelated, At, Sent, Received, StreamsRelated, Grown;
    ghost var session, pos := alice.session, alice.pos;
    var sendA, recvB := NextOts(a1, b1, w1, d1, session, pos, count);
    var sendB, recvA := NextOts(b2, a2, w2, d2, session, pos, count);
    CorrelatedShares(sendA, recvB, sendB, recvA, a1.delta, b2.delta);
    mintedA, mintedB := Zipped(recvA, sendA), Zipped(recvB, sendB);
    sa := alice.Draw(count);
    sb := bob.Draw(count);
    forall i | 0 <= i < count
      ensures mintedA[i] == sa[i] && mintedB[i] == sb[i]
    {
      var k := pos + i;
      ShareParts(d1, d2, session, k);
      assert sa[i] == alice.stream(session, k) && sb[i] == bob.stream(session, k);
    }
    assert mintedA == sa && mintedB == sb;
  }

  lemma ShareParts(d1: Direction, d2: Direction, session: nat, i: nat)
    requires Grown(d1) && Grown(d2)
    ensures AliceStream(d1, d2)(session, i) == Bundle(Received(d2, session, i), Sent(d1, session, i))
    ensures BobStream(d1, d2)(session, i) == Bundle(Received(d1, session, i), Sent(d2, session, i))
  {
  }

  /** flush_cot_check on both sides: if shares were drawn, both sessions are ended, with checks that accept, and new ones
  begun, which the pools continue with. */
  method FlushCotCheck<D(==)>(a1: Cot, b1: Cot, b2: Cot, a2: Cot, w1: World<D>, w2: World<D>, ghost d1: Direction, ghost d2: Direction,
                              alice: Pool, bob: Pool, seeds: nat -> (Block, Block)) returns (ok: bool)
    requires Apart(a1, b1, b2, a2) && PoolsPaired(alice, bob)
    requires At(a1, b1, w1, d1, alice.session, alice.pos) && At(b2, a2, w2, d2, alice.session, alice.pos)
    modifies a1, b1, b2, a2, alice`session, alice`pos, bob`session, bob`pos
    ensures ok && PoolsPaired(alice, bob)
    ensures alice.pos == 0 && alice.session == old(alice.session) + if old(alice.pos) > 0 then 1 else 0
    ensures At(a1, b1, w1, d1, alice.session, alice.pos) && At(b2, a2, w2, d2, alice.session, alice.pos)
  {
    hide At, StreamsRelated;
    ok := true;
    if alice.pos > 0 {
      var ok1 := Renew(a1, b1, w1, d1, alice.session, alice.pos, seeds);
      var ok2 := Renew(b2, a2, w2, d2, alice.session, alice.pos, seeds);
      ok := ok1 && ok2;
    }
    alice.FlushCheck();
    bob.FlushCheck();
  }

  /** end and begin of one direction. */
  method Renew<D(==)>(a: Cot, b: Cot, w: World<D>, ghost d: Direction, ghost session: nat, ghost pos: nat, seeds: nat -> (Block, Block))
    returns (ok: bool)
    requires At(a, b, w, d, session, pos)
    modifies a, b
    ensures ok && At(a, b, w, d, session + 1, 0)
  {
    hide Agree, AllCorrelated, Balanced, Cot.Valid, SessionItems;
    ok := End(a, b, w, ZERO, ZERO);
    var begun := Begin(a, b, w, seeds);
    ok := ok && begun;
  }

  /** setup_with_delta on both sides, from two pairs of OT instances in step with normalised Δs: the pools are paired. */
  method OpenPools<D(==)>(a1: Cot, b1: Cot, b2: Cot, a2: Cot, w1: World<D>, w2: World<D>,
                          seeds1: nat -> (Block, Block), seeds2: nat -> (Block, Block))
    returns (alice: Pool, bob: Pool, ghost d1: Direction, ghost d2: Direction)
    requires Apart(a1, b1, b2, a2) && InStep(a1, b1) && InStep(b2, a2) && NormalDeltas(a1.delta, b2.delta)
    modifies a1, b1, b2, a2
    ensures fresh(alice) && fresh(bob) && PoolsPaired(alice, bob) && alice.session == alice.pos == 0
    ensures alice.delta == old(a1.delta) && bob.delta == old(b2.delta)
    ensures alice.stream == AliceStream(d1, d2) && bob.stream == BobStream(d1, d2)
    ensures At(a1, b1, w1, d1, 0, 0) && At(b2, a2, w2, d2, 0, 0)
    ensures d1.first == old(a1.session) && d2.first == old(b2.session)
    ensures !old(a1.setupDone) ==> d1.ours == SetupForest(w1, a1.malicious, seeds1) && d1.theirs == PuncturedForest(d1.ours, d1.delta)
    ensures !old(b2.setupDone) ==> d2.ours == SetupForest(w2, b2.malicious, seeds2) && d2.theirs == PuncturedForest(d2.ours, d2.delta)
    ensures old(a1.setupDone) ==> d1.ours == old(b1.leaves) && d1.theirs == old(a1.leaves)
    ensures old(b2.setupDone) ==> d2.ours == old(a2.leaves) && d2.theirs == old(b2.leaves)
  {
    hide AllCorrelated, Balanced, Cot.Valid, SessionItems, StreamsRelated, Agree, SetupForest, PuncturedForest, Accumulated;
    var ok1 := Begin(a1, b1, w1, seeds1);
    var ok2 := Begin(b2, a2, w2, seeds2);
    var e1 := Direction(w1.expand, a1.leaves, b1.leaves, a1.delta, a1.curSession);
    var e2 := Direction(w2.expand, b2.leaves, a2.leaves, b2.delta, b2.curSession);
    d1, d2 := e1, e2;
    StreamsAreRelated(e1, e2);
    alice := new Pool(Alice, a1.delta, AliceStream(e1, e2));
    bob := new Pool(Bob, b2.delta, BobStream(e1, e2));
  }
}

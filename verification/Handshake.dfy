/** The session handshake of two parties over sequenced channels. */
module Handshakes {
  import opened Blocks
  import opened ChannelFlows

  /** The transcript binding of an acknowledgement: a digest of job id, sender and parameters. */
  type AckDigest<!D(==)> = (seq<nat>, Role, SessionParams<D>) -> D

  function Ack<D(==)>(digest: AckDigest<D>, jobId: seq<nat>, sender: Role, params: SessionParams<D>): Payload<D> {
    AckPayload(digest(jobId, sender, params))
  }

  /** send_session_start */
  function SendStart<D(==)>(f: ChannelFlow, params: SessionParams<D>): Step<D> {
    if f.channel != Main then Err(f.Abort(), WrongChannel) else Outbound(f, SessionStart, StartPayload(params))
  }

  /** receive_session_start_and_ack */
  function ReceiveStart<D(==)>(digest: AckDigest<D>, f: ChannelFlow, expected: SessionParams<D>, frame: Frame<D>): Step<D> {
    if f.channel != Main then Err(f.Abort(), WrongChannel)
    else match AcceptInbound(f, frame)
      case Err(g, e) => Err(g, e)
      case Ok(g, fr) =>
        if fr.kind != SessionStart then Err(g.Abort(), UnexpectedKind)
        else if !fr.payload.StartPayload? then Err(g.Abort(), BadFrame)
        else if fr.payload.params != expected then Err(g.Abort(), ParameterMismatch)
        else Outbound(g, SessionStartAck, Ack(digest, g.jobId, g.localRole, expected))
  }

  /** receive_session_start_ack */
  function ReceiveAck<D(==)>(digest: AckDigest<D>, f: ChannelFlow, expected: SessionParams<D>, frame: Frame<D>): Step<D> {
    if f.channel != Main then Err(f.Abort(), WrongChannel)
    else match AcceptInbound(f, frame)
      case Err(g, e) => Err(g, e)
      case Ok(g, fr) =>
        if fr.kind != SessionStartAck then Err(g.Abort(), UnexpectedKind)
        else if !fr.payload.AckPayload? then Err(g.Abort(), BadFrame)
        else if fr.payload != Ack(digest, g.jobId, fr.sender, expected) then Err(g.Abort(), AckMismatch)
        else Ok(g, fr)
  }

  // ---- the two parties of run_session_handshake ----

  datatype Phase = Starting | AwaitingStart | AwaitingAck | AwaitingPeerStart | Done | Failed

  datatype Party<!D(==)> = Party(phase: Phase, flow: ChannelFlow, params: SessionParams<D>, sent: seq<Frame<D>>)

  function Alone<D(==)>(jobId: seq<nat>, role: Role, params: SessionParams<D>): Party<D> {
    Party(if role == Alice then Starting else AwaitingStart, NewFlow(jobId, role, Main), params, [])
  }

  /** Alice's first send. */
  function AliceStart<D(==)>(a: Party<D>): Party<D> {
    match SendStart(a.flow, a.params)
    case Ok(f, frame) => a.(phase := AwaitingAck, flow := f, sent := a.sent + [frame])
    case Err(f, e) => a.(phase := Failed, flow := f)
  }

  /** Alice takes a frame: Bob's acknowledgement, then his start. */
  function AliceTakes<D(==)>(digest: AckDigest<D>, a: Party<D>, frame: Frame<D>): Party<D> {
    if a.phase == AwaitingAck then
      match ReceiveAck(digest, a.flow, a.params, frame)
      case Ok(f, fr) => a.(phase := AwaitingPeerStart, flow := f)
      case Err(f, e) => a.(phase := Failed, flow := f)
    else if a.phase == AwaitingPeerStart then
      match ReceiveStart(digest, a.flow, a.params, frame)
      case Ok(f, ack) => a.(phase := Done, flow := f, sent := a.sent + [ack])
      case Err(f, e) => a.(phase := Failed, flow := f)
    else a
  }

  /** Bob takes a frame: Alice's start, answered by his acknowledgement and his own start, then her acknowledgement. */
  function BobTakes<D(==)>(digest: AckDigest<D>, b: Party<D>, frame: Frame<D>): Party<D> {
    if b.phase == AwaitingStart then
      match ReceiveStart(digest, b.flow, b.params, frame)
      case Err(f, e) => b.(phase := Failed, flow := f)
      case Ok(f, ack) =>
        match SendStart(f, b.params)
        case Ok(g, start) => b.(phase := AwaitingAck, flow := g, sent := b.sent + [ack, start])
        case Err(g, e) => b.(phase := Failed, flow := g, sent := b.sent + [ack])
    else if b.phase == AwaitingAck then
      match ReceiveAck(digest, b.flow, b.params, frame)
      case Ok(f, fr) => b.(phase := Done, flow := f)
      case Err(f, e) => b.(phase := Failed, flow := f)
    else b
  }

  datatype Pair<!D(==)> = Pair(alice: Party<D>, bob: Party<D>)

  /** Each party brings its own idea of the job and of the parameters. */
  function Fresh<D(==)>(jobA: seq<nat>, jobB: seq<nat>, pa: SessionParams<D>, pb: SessionParams<D>): Pair<D> {
    Pair(Alone(jobA, Alice, pa), Alone(jobB, Bob, pb))
  }

  /** One step of the pair. The network hands over any frame the peer has sent, as often and in whatever order it likes. */
  ghost predicate Moves<D>(digest: AckDigest<D>, p: Pair<D>, q: Pair<D>) {
    || (p.alice.phase == Starting && q == p.(alice := AliceStart(p.alice)))
    || (exists frame :: frame in p.bob.sent && q == p.(alice := AliceTakes(digest, p.alice, frame)))
    || (exists frame :: frame in p.alice.sent && q == p.(bob := BobTakes(digest, p.bob, frame)))
  }

  ghost predicate Run<D>(digest: AckDigest<D>, states: seq<Pair<D>>, jobA: seq<nat>, jobB: seq<nat>, pa: SessionParams<D>, pb: SessionParams<D>) {
    && states != [] && states[0] == Fresh(jobA, jobB, pa, pb)
    && forall i :: 0 <= i < |states| - 1 ==> Moves(digest, states[i], states[i + 1])
  }

  /** The frames a party can have sent. */
  function StartFrame<D(==)>(jobId: seq<nat>, role: Role, sequence: nat, params: SessionParams<D>): Frame<D> {
    Frame(jobId, role, Main, sequence, SessionStart, StartPayload(params))
  }

  function AckFrame<D(==)>(digest: AckDigest<D>, jobId: seq<nat>, role: Role, sequence: nat, params: SessionParams<D>): Frame<D> {
    Frame(jobId, role, Main, sequence, SessionStartAck, Ack(digest, jobId, role, params))
  }

  function Opposite(role: Role): Role {
    if role == Alice then Bob else Alice
  }

  /** Which acknowledgement a flow accepts: the very frame the peer would send next for this job and these parameters,
  its binding being the digest of job, peer role and parameters, and no other. */
  lemma AckAcceptedExactly<D>(digest: AckDigest<D>, f: ChannelFlow, expected: SessionParams<D>, frame: Frame<D>)
    ensures var step, wanted := ReceiveAck(digest, f, expected, frame), AckFrame(digest, f.jobId, Opposite(f.localRole), f.nextRecv, expected);
      && (step.Ok? <==> f.channel == Main && !f.aborted && frame == wanted)
      && (if step.Ok? then step.flow == f.(nextRecv := Next(f.nextRecv)) && step.frame == frame else step.flow.aborted)
  {
    var wanted := AckFrame(digest, f.jobId, Opposite(f.localRole), f.nextRecv, expected);
    if frame.payload.AckPayload? {
      assert frame == Frame(frame.jobId, frame.sender, frame.channel, frame.sequence, frame.kind, AckPayload(frame.payload.binding));
    }
  }

  /** ... and which start: the peer's next frame with equal parameters, answered by the frame the peer accepts. */
  lemma StartAcceptedExactly<D>(digest: AckDigest<D>, f: ChannelFlow, expected: SessionParams<D>, frame: Frame<D>)
    ensures var step := ReceiveStart(digest, f, expected, frame);
      && (step.Ok? <==> f.channel == Main && !f.aborted && ValidJobId(f.jobId) && frame == StartFrame(f.jobId, Opposite(f.localRole), f.nextRecv, expected))
      && (step.Ok? ==> step.frame == AckFrame(digest, f.jobId, f.localRole, f.nextSend, expected)
                       && step.flow == f.(nextRecv := Next(f.nextRecv), nextSend := Next(f.nextSend)))
  {
  }

  /** With a digest that never collides, an acknowledgement made for another job, role or parameters is refused. */
  lemma ForeignAckRefused<D>(digest: AckDigest<D>, f: ChannelFlow, expected: SessionParams<D>, frame: Frame<D>,
                             jobId: seq<nat>, sender: Role, params: SessionParams<D>)
    requires forall j, r, p, j', r', p' :: digest(j, r, p) == digest(j', r', p') ==> j == j' && r == r' && p == p'
    requires frame.payload == Ack(digest, jobId, sender, params) && ReceiveAck(digest, f, expected, frame).Ok?
    ensures jobId == f.jobId && sender == Opposite(f.localRole) && params == expected
  {
    AckAcceptedExactly(digest, f, expected, frame);
    assert digest(jobId, sender, params) == digest(f.jobId, Opposite(f.localRole), expected);
  }

  /** Everything a run can reach. */
  predicate Reached<D(==)>(digest: AckDigest<D>, p: Pair<D>, jobId: seq<nat>, pa: SessionParams<D>, pb: SessionParams<D>) {
    && p.alice.params == pa && p.bob.params == pb
    && AliceAt(digest, p.alice, jobId, pa) && BobAt(digest, p.bob, jobId, pb)
    && (p.alice.phase == Done ==> pa == pb && p.bob.phase != AwaitingStart)
    && (p.bob.phase == AwaitingAck || p.bob.phase == Done ==> pa == pb && p.alice.sent != [])
    && (p.bob.phase == Done ==> |p.alice.sent| == 2)
    && (p.alice.phase == AwaitingPeerStart ==> p.bob.sent != [])
  }

  predicate AliceAt<D(==)>(digest: AckDigest<D>, a: Party<D>, jobId: seq<nat>, pa: SessionParams<D>) {
    && a.flow.jobId == jobId && a.flow.localRole == Alice && a.flow.channel == Main
    && match a.phase
       case Starting => a.sent == [] && a.flow == NewFlow(jobId, Alice, Main)
       case AwaitingAck => a.sent == [StartFrame(jobId, Alice, 0, pa)] && a.flow == ChannelFlow(jobId, Alice, Main, 1, 0, false)
       case AwaitingPeerStart => a.sent == [StartFrame(jobId, Alice, 0, pa)] && a.flow == ChannelFlow(jobId, Alice, Main, 1, 1, false)
       case Done => a.sent == [StartFrame(jobId, Alice, 0, pa), AckFrame(digest, jobId, Alice, 1, pa)]
       case Failed => a.sent == [] || a.sent == [StartFrame(jobId, Alice, 0, pa)]
       case AwaitingStart => false
  }

  predicate BobAt<D(==)>(digest: AckDigest<D>, b: Party<D>, jobId: seq<nat>, pb: SessionParams<D>) {
    && b.flow.jobId == jobId && b.flow.localRole == Bob && b.flow.channel == Main
    && match b.phase
       case AwaitingStart => b.sent == [] && b.flow == NewFlow(jobId, Bob, Main)
       case AwaitingAck =>
         b.sent == [AckFrame(digest, jobId, Bob, 0, pb), StartFrame(jobId, Bob, 1, pb)] && b.flow == ChannelFlow(jobId, Bob, Main, 2, 1, false)
       case Done => b.sent == [AckFrame(digest, jobId, Bob, 0, pb), StartFrame(jobId, Bob, 1, pb)]
       case Failed => b.sent == [] || b.sent == [AckFrame(digest, jobId, Bob, 0, pb), StartFrame(jobId, Bob, 1, pb)]
       case Starting => false
       case AwaitingPeerStart => false
  }

  lemma AliceMoves<D>(digest: AckDigest<D>, p: Pair<D>, jobId: seq<nat>, pa: SessionParams<D>, pb: SessionParams<D>, frame: Frame<D>)
    requires Reached(digest, p, jobId, pa, pb) && frame in p.bob.sent
    ensures Reached(digest, p.(alice := AliceTakes(digest, p.alice, frame)), jobId, pa, pb)
  {
  }

  lemma BobMoves<D>(digest: AckDigest<D>, p: Pair<D>, jobId: seq<nat>, pa: SessionParams<D>, pb: SessionParams<D>, frame: Frame<D>)
    requires ValidJobId(jobId) && Reached(digest, p, jobId, pa, pb) && frame in p.alice.sent
    ensures Reached(digest, p.(bob := BobTakes(digest, p.bob, frame)), jobId, pa, pb)
  {
  }

  lemma {:induction false} RunReaches<D>(digest: AckDigest<D>, states: seq<Pair<D>>, jobId: seq<nat>, pa: SessionParams<D>, pb: SessionParams<D>, n: nat)
    requires ValidJobId(jobId) && Run(digest, states, jobId, jobId, pa, pb) && n < |states|
    ensures Reached(digest, states[n], jobId, pa, pb)
  {
    if n > 0 {
      RunReaches(digest, states, jobId, pa, pb, n - 1);
      var p, q := states[n - 1], states[n];
      assert Moves(digest, states[n - 1], states[n - 1 + 1]);
      if frame :| frame in p.bob.sent && q == p.(alice := AliceTakes(digest, p.alice, frame)) {
        AliceMoves(digest, p, jobId, pa, pb, frame);
      } else if frame :| frame in p.alice.sent && q == p.(bob := BobTakes(digest, p.bob, frame)) {
        BobMoves(digest, p, jobId, pa, pb, frame);
      }
    }
  }

  /** Parties that mean different jobs: Bob never answers, and no one gets past waiting. */
  predicate Strangers<D(==)>(p: Pair<D>, jobA: seq<nat>, jobB: seq<nat>) {
    && p.alice.flow.jobId == jobA && p.bob.flow.jobId == jobB
    && (p.alice.phase == Starting || p.alice.phase == AwaitingAck || p.alice.phase == Failed)
    && (p.bob.phase == AwaitingStart || p.bob.phase == Failed) && p.bob.sent == []
    && forall i :: 0 <= i < |p.alice.sent| ==> p.alice.sent[i].jobId == jobA
  }

  lemma {:induction false} StrangersStay<D>(digest: AckDigest<D>, states: seq<Pair<D>>, jobA: seq<nat>, jobB: seq<nat>,
                                            pa: SessionParams<D>, pb: SessionParams<D>, n: nat)
    requires jobA != jobB && Run(digest, states, jobA, jobB, pa, pb) && n < |states|
    ensures Strangers(states[n], jobA, jobB)
  {
    if n > 0 {
      StrangersStay(digest, states, jobA, jobB, pa, pb, n - 1);
      assert Moves(digest, states[n - 1], states[n - 1 + 1]);
    }
  }

  /** A party that finishes knows that the other started the same job with the same parameters: a single
  finished party is enough. */
  lemma FinishedMeansEqual<D>(digest: AckDigest<D>, states: seq<Pair<D>>, jobA: seq<nat>, jobB: seq<nat>,
                              pa: SessionParams<D>, pb: SessionParams<D>, n: nat)
    requires ValidJobId(jobA) && ValidJobId(jobB) && Run(digest, states, jobA, jobB, pa, pb) && n < |states|
    ensures states[n].alice.phase == Done || states[n].bob.phase == Done ==>
      jobA == jobB && pa.ssp == pb.ssp && pa.circuitDigest == pb.circuitDigest && pa.jobBinding == pb.jobBinding
  {
    if jobA == jobB {
      RunReaches(digest, states, jobA, pa, pb, n);
    } else {
      StrangersStay(digest, states, jobA, jobB, pa, pb, n);
    }
  }

  // ---- in-order delivery ----

  /** What a party can do when frames arrive in the order sent: its next frame is the first one it has not taken. */
  function AliceNext<D(==)>(digest: AckDigest<D>, p: Pair<D>): Party<D> {
    if p.alice.phase == Starting then AliceStart(p.alice)
    else if p.alice.flow.nextRecv < |p.bob.sent| then AliceTakes(digest, p.alice, p.bob.sent[p.alice.flow.nextRecv])
    else p.alice
  }

  function BobNext<D(==)>(digest: AckDigest<D>, p: Pair<D>): Party<D> {
    if p.bob.flow.nextRecv < |p.alice.sent| then BobTakes(digest, p.bob, p.alice.sent[p.bob.flow.nextRecv]) else p.bob
  }

  /** The steps still to be taken. */
  function Remaining<D(==)>(p: Pair<D>): nat {
    (match p.alice.phase case Starting => 3 case AwaitingAck => 2 case AwaitingPeerStart => 1 case _ => 0)
    + (match p.bob.phase case AwaitingStart => 2 case AwaitingAck => 1 case _ => 0)
  }

  /** States of an in-order run with equal parameters. */
  predicate OnTrack<D(==)>(digest: AckDigest<D>, p: Pair<D>, jobId: seq<nat>, params: SessionParams<D>) {
    && Reached(digest, p, jobId, params, params) && p.alice.phase != Failed && p.bob.phase != Failed
    && p.alice.flow.nextRecv == (match p.alice.phase case Done => 2 case AwaitingPeerStart => 1 case _ => 0)
    && p.bob.flow.nextRecv == (match p.bob.phase case Done => 2 case AwaitingAck => 1 case _ => 0)
  }

  /** With equal parameters and in-order delivery nothing fails, every move makes progress, and until both are
  done one of them can move. */
  lemma InOrderProgress<D>(digest: AckDigest<D>, p: Pair<D>, jobId: seq<nat>, params: SessionParams<D>)
    requires ValidJobId(jobId) && OnTrack(digest, p, jobId, params)
    ensures OnTrack(digest, p.(alice := AliceNext(digest, p)), jobId, params) && OnTrack(digest, p.(bob := BobNext(digest, p)), jobId, params)
    ensures AliceNext(digest, p) != p.alice ==> Remaining(p.(alice := AliceNext(digest, p))) == Remaining(p) - 1
    ensures BobNext(digest, p) != p.bob ==> Remaining(p.(bob := BobNext(digest, p))) == Remaining(p) - 1
    ensures Remaining(p) == 0 <==> p.alice.phase == Done && p.bob.phase == Done
    ensures Remaining(p) > 0 ==> AliceNext(digest, p) != p.alice || BobNext(digest, p) != p.bob
  {
  }

  function Try<D(==)>(digest: AckDigest<D>, p: Pair<D>, role: Role): Pair<D> {
    if role == Alice then p.(alice := AliceNext(digest, p)) else p.(bob := BobNext(digest, p))
  }

  /** A schedule says who tries to move next; a party that cannot move yet waits. */
  function Scheduled<D(==)>(digest: AckDigest<D>, p: Pair<D>, schedule: seq<Role>): Pair<D>
    decreases |schedule|
  {
    if schedule == [] then p else Scheduled(digest, Try(digest, p, schedule[0]), schedule[1..])
  }

  /** Under any schedule nothing fails, and a party that can move has made progress happen once it has tried. */
  lemma {:induction false} ScheduleProgress<D>(digest: AckDigest<D>, p: Pair<D>, jobId: seq<nat>, params: SessionParams<D>, schedule: seq<Role>, able: Role)
    requires ValidJobId(jobId) && OnTrack(digest, p, jobId, params)
    ensures var q := Scheduled(digest, p, schedule); OnTrack(digest, q, jobId, params) && Remaining(q) <= Remaining(p)
    ensures able in schedule && Try(digest, p, able) != p ==> Remaining(Scheduled(digest, p, schedule)) < Remaining(p)
    decreases |schedule|
  {
    if schedule != [] {
      hide OnTrack, Remaining, AliceNext, BobNext;
      InOrderProgress(digest, p, jobId, params);
      ScheduleProgress(digest, Try(digest, p, schedule[0]), jobId, params, schedule[1..], able);
    }
  }

  /** A run of rounds in each of which both parties try at least once, in any order and as often as they like. */
  function AllRounds(rounds: seq<seq<Role>>): seq<Role> {
    if rounds == [] then [] else rounds[0] + AllRounds(rounds[1..])
  }

  predicate Fair(rounds: seq<seq<Role>>) {
    forall i :: 0 <= i < |rounds| ==> Alice in rounds[i] && Bob in rounds[i]
  }

  lemma {:induction false} ScheduleAppend<D>(digest: AckDigest<D>, p: Pair<D>, a: seq<Role>, b: seq<Role>)
    ensures Scheduled(digest, p, a + b) == Scheduled(digest, Scheduled(digest, p, a), b)
    decreases |a|
  {
    hide Try;
    if a == [] {
      assert a + b == b;
    } else {
      assert (a + b)[1..] == a[1..] + b;
      ScheduleAppend(digest, Try(digest, p, a[0]), a[1..], b);
    }
  }

  /** Every fair round makes progress until both are done. */
  lemma {:induction false} RoundsProgress<D>(digest: AckDigest<D>, p: Pair<D>, jobId: seq<nat>, params: SessionParams<D>, rounds: seq<seq<Role>>)
    requires ValidJobId(jobId) && OnTrack(digest, p, jobId, params) && Fair(rounds)
    ensures var q := Scheduled(digest, p, AllRounds(rounds));
      OnTrack(digest, q, jobId, params) && (Remaining(q) == 0 || Remaining(q) + |rounds| <= Remaining(p))
    decreases |rounds|
  {
    if rounds != [] {
      hide OnTrack, Remaining, AliceNext, BobNext, Scheduled;
      ScheduleAppend(digest, p, rounds[0], AllRounds(rounds[1..]));
      InOrderProgress(digest, p, jobId, params);
      ScheduleProgress(digest, p, jobId, params, rounds[0], Alice);
      ScheduleProgress(digest, p, jobId, params, rounds[0], Bob);
      RoundsProgress(digest, Scheduled(digest, p, rounds[0]), jobId, params, rounds[1..]);
    }
  }

  /** With equal parameters and in-order delivery both parties finish, within five rounds of any fair schedule. */
  lemma HandshakeCompletes<D>(digest: AckDigest<D>, jobId: seq<nat>, params: SessionParams<D>, rounds: seq<seq<Role>>)
    requires ValidJobId(jobId) && Fair(rounds) && |rounds| >= 5
    ensures var q := Scheduled(digest, Fresh(jobId, jobId, params, params), AllRounds(rounds));
      q.alice.phase == Done && q.bob.phase == Done
  {
    hide Scheduled;
    var p := Fresh(jobId, jobId, params, params);
    assert Remaining(p) == 5;
    RoundsProgress(digest, p, jobId, params, rounds);
    InOrderProgress(digest, Scheduled(digest, p, AllRounds(rounds)), jobId, params);
  }
}

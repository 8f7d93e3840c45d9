/** Sequenced channels: frames numbered by the sender, accepted only in order, and an abort that is final. */
module ChannelFlows {
  import opened Blocks

  const SEQUENCE_MAX: nat := 0xffff_ffff_ffff_ffff
  const MAX_JOB_ID: nat := 64

  datatype LogicalChannel = Main | Sibling
  datatype MessageKind = SessionStart | SessionStartAck | OtherKind

  /** SessionParams, and a message's contents as the receiver decodes them. */
  datatype SessionParams<!D(==)> = SessionParams(ssp: nat, circuitDigest: D, jobBinding: D)
  datatype Payload<!D(==)> = StartPayload(params: SessionParams<D>) | AckPayload(binding: D) | OtherPayload

  datatype Frame<!D(==)> = Frame(jobId: seq<nat>, sender: Role, channel: LogicalChannel, sequence: nat, kind: MessageKind, payload: Payload<D>)

  datatype CoreError = Aborted | JobMismatch | WrongChannel | RoleMismatch | ChannelMismatch | SequenceMismatch
                     | UnexpectedKind | ParameterMismatch | AckMismatch | BadFrame

  datatype ChannelFlow = ChannelFlow(jobId: seq<nat>, localRole: Role, channel: LogicalChannel, nextSend: nat, nextRecv: nat, aborted: bool) {
    function Abort(): ChannelFlow {
      this.(aborted := true)
    }
  }

  /** StepResult: the error carries the state it leaves behind. */
  datatype Step<!D(==)> = Ok(flow: ChannelFlow, frame: Frame<D>) | Err(flow: ChannelFlow, error: CoreError)

  function NewFlow(jobId: seq<nat>, role: Role, channel: LogicalChannel): ChannelFlow {
    ChannelFlow(jobId, role, channel, 0, 0, false)
  }

  function Next(sequence: nat): nat {
    if sequence >= SEQUENCE_MAX then SEQUENCE_MAX else sequence + 1
  }

  function AcceptOutbound<D(==)>(f: ChannelFlow, frame: Frame<D>): Step<D> {
    if f.aborted then Err(f, Aborted)
    else if frame.jobId != f.jobId then Err(f.Abort(), JobMismatch)
    else if frame.sender != f.localRole then Err(f.Abort(), RoleMismatch)
    else if frame.channel != f.channel then Err(f.Abort(), ChannelMismatch)
    else if frame.sequence != f.nextSend then Err(f.Abort(), SequenceMismatch)
    else Ok(f.(nextSend := Next(f.nextSend)), frame)
  }

  /** outbound_frame; a frame with a bad job id is refused without aborting. */
  function Outbound<D(==)>(f: ChannelFlow, kind: MessageKind, payload: Payload<D>): Step<D> {
    if f.aborted then Err(f, Aborted)
    else if !ValidJobId(f.jobId) then Err(f, BadFrame)
    else AcceptOutbound(f, Frame(f.jobId, f.localRole, f.channel, f.nextSend, kind, payload))
  }

  predicate ValidJobId(jobId: seq<nat>) {
    0 < |jobId| <= MAX_JOB_ID
  }

  function AcceptInbound<D(==)>(f: ChannelFlow, frame: Frame<D>): Step<D> {
    if f.aborted then Err(f, Aborted)
    else if frame.jobId != f.jobId then Err(f.Abort(), JobMismatch)
    else if frame.sender == f.localRole then Err(f.Abort(), RoleMismatch)
    else if frame.channel != f.channel then Err(f.Abort(), ChannelMismatch)
    else if frame.sequence != f.nextRecv then Err(f.Abort(), SequenceMismatch)
    else Ok(f.(nextRecv := Next(f.nextRecv)), frame)
  }

  // ---- what one flow sends ----

  datatype Message<!D(==)> = Message(kind: MessageKind, payload: Payload<D>)

  /** The frames of a run of sends from a fresh flow. */
  function Sent<D(==)>(jobId: seq<nat>, role: Role, channel: LogicalChannel, messages: seq<Message<D>>): (r: (ChannelFlow, seq<Frame<D>>))
    requires ValidJobId(jobId)
  {
    if messages == [] then (NewFlow(jobId, role, channel), [])
    else
      var m := |messages| - 1;
      var (f, frames) := Sent(jobId, role, channel, messages[..m]);
      match Outbound(f, messages[m].kind, messages[m].payload)
      case Ok(g, frame) => (g, frames + [frame])
      case Err(g, e) => (g, frames)
  }

  lemma {:induction false} SentInOrder<D>(jobId: seq<nat>, role: Role, channel: LogicalChannel, messages: seq<Message<D>>)
    requires ValidJobId(jobId) && |messages| <= SEQUENCE_MAX
    ensures var (f, frames) := Sent(jobId, role, channel, messages);
      && f == ChannelFlow(jobId, role, channel, |messages|, 0, false) && |frames| == |messages|
      && forall i :: 0 <= i < |frames| ==> frames[i] == Frame(jobId, role, channel, i, messages[i].kind, messages[i].payload)
  {
    if messages != [] {
      var m := |messages| - 1;
      SentInOrder(jobId, role, channel, messages[..m]);
    }
  }

  // ---- what the other flow accepts ----

  /** A flow offered frames one after the other: its final state and the frames it accepted. */
  function Accepted<D(==)>(f: ChannelFlow, offers: seq<Frame<D>>): (r: (ChannelFlow, seq<Frame<D>>)) {
    if offers == [] then (f, [])
    else
      var m := |offers| - 1;
      var (g, taken) := Accepted(f, offers[..m]);
      match AcceptInbound(g, offers[m])
      case Ok(h, frame) => (h, taken + [frame])
      case Err(h, e) => (h, taken)
  }

  /** Every offer is one of the frames the peer sent: dropped, repeated and reordered at will. */
  ghost predicate Delivered<D>(offers: seq<Frame<D>>, sent: seq<Frame<D>>) {
    forall i :: 0 <= i < |offers| ==> offers[i] in sent
  }

  /** Frames as an honest peer numbers them. */
  predicate Numbered<D(==)>(sent: seq<Frame<D>>) {
    forall i :: 0 <= i < |sent| ==> sent[i].sequence == i
  }

  /** Whatever the network does to the peer's frames, a flow accepts a gap-free in-order prefix of them. */
  lemma {:induction false} AcceptsPrefix<D>(jobId: seq<nat>, role: Role, channel: LogicalChannel, offers: seq<Frame<D>>, sent: seq<Frame<D>>)
    requires Numbered(sent) && |sent| <= SEQUENCE_MAX && Delivered(offers, sent)
    ensures var (f, taken) := Accepted(NewFlow(jobId, role, channel), offers);
      && |taken| <= |sent| && taken == sent[..|taken|] && f.nextRecv == |taken| && f.nextSend == 0
  {
    if offers != [] {
      var m := |offers| - 1;
      AcceptsPrefix(jobId, role, channel, offers[..m], sent);
      var (g, taken) := Accepted(NewFlow(jobId, role, channel), offers[..m]);
      assert offers[m] in sent;
      if AcceptInbound(g, offers[m]).Ok? {
        var k := |taken|;
        var i :| 0 <= i < |sent| && sent[i] == offers[m];
        assert sent[..k + 1] == sent[..k] + [sent[k]];
      }
    }
  }

  /** ... and in fact every frame offered in order from the start is accepted. */
  lemma {:induction false} AcceptsInOrder<D>(jobId: seq<nat>, role: Role, channel: LogicalChannel, sent: seq<Frame<D>>, k: nat)
    requires Numbered(sent) && k <= |sent| <= SEQUENCE_MAX
    requires forall i :: 0 <= i < |sent| ==> sent[i].jobId == jobId && sent[i].sender != role && sent[i].channel == channel
    ensures Accepted(NewFlow(jobId, role, channel), sent[..k]) == (ChannelFlow(jobId, role, channel, 0, k, false), sent[..k])
  {
    if k > 0 {
      AcceptsInOrder(jobId, role, channel, sent, k - 1);
      assert sent[..k][..k - 1] == sent[..k - 1];
      assert sent[..k] == sent[..k - 1] + [sent[k - 1]];
    }
  }

  /** Once aborted, a flow stays aborted and accepts nothing. */
  lemma {:induction false} AbortIsFinal<D>(f: ChannelFlow, offers: seq<Frame<D>>)
    requires f.aborted
    ensures Accepted(f, offers) == (f, [])
  {
    if offers != [] {
      AbortIsFinal(f, offers[..|offers| - 1]);
    }
  }

  /** The number a flow expects after accepting `n` frames from `from` on. */
  function Expected(from: nat, n: nat): nat {
    if from + n > SEQUENCE_MAX then SEQUENCE_MAX else from + n
  }

  /** Would a flow that starts as `f` take `frame` as its `n`-th? */
  predicate Fits<D(==)>(f: ChannelFlow, frame: Frame<D>, n: nat) {
    frame.jobId == f.jobId && frame.sender != f.localRole && frame.channel == f.channel && frame.sequence == Expected(f.nextRecv, n)
  }

  /** From any offers at all a flow accepts exactly the longest prefix whose frames carry its job, channel and peer
  and the numbers it expects; it ends up aborted exactly when anything was refused. */
  lemma {:induction false} AcceptsLongestFit<D>(f: ChannelFlow, offers: seq<Frame<D>>)
    requires f.nextRecv <= SEQUENCE_MAX && !f.aborted
    ensures LongestFit(f, offers, Accepted(f, offers).0, Accepted(f, offers).1)
  {
    if offers == [] {
    } else {
      var m := |offers| - 1;
      AcceptsLongestFit(f, offers[..m]);
      LongestFitExtends(f, offers[..m], Accepted(f, offers[..m]).0, Accepted(f, offers[..m]).1, offers[m], m);
      assert offers[..m] + [offers[m]] == offers;
    }
  }

  /** `taken` is the longest prefix of the offers that fits, and `g` the flow after it. */
  predicate LongestFit<D(==)>(f: ChannelFlow, offers: seq<Frame<D>>, g: ChannelFlow, taken: seq<Frame<D>>) {
    var n := |taken|;
    && n <= |offers| && taken == offers[..n]
    && g == f.(nextRecv := Expected(f.nextRecv, n), aborted := n < |offers|)
    && (forall i :: 0 <= i < n ==> Fits(f, offers[i], i)) && (n < |offers| ==> !Fits(f, offers[n], n))
  }

  lemma LongestFitExtends<D>(f: ChannelFlow, before: seq<Frame<D>>, g: ChannelFlow, taken: seq<Frame<D>>, frame: Frame<D>, m: nat)
    requires f.nextRecv <= SEQUENCE_MAX && !f.aborted && LongestFit(f, before, g, taken) && |before| == m
    ensures var step := AcceptInbound(g, frame);
      LongestFit(f, before + [frame], step.flow, if step.Ok? then taken + [frame] else taken)
  {
    if |taken| == m {
      assert before[..m] == before;
      assert AcceptInbound(g, frame).Ok? <==> Fits(f, frame, m);
    } else {
      assert (before + [frame])[..|taken|] == before[..|taken|];
    }
  }

  /** Two accepted frames of a run bear the same number exactly when that is the highest one. */
  lemma RepeatsExactlyWhenSaturated<D>(f: ChannelFlow, offers: seq<Frame<D>>, i: nat, j: nat)
    requires f.nextRecv <= SEQUENCE_MAX && i < j < |Accepted(f, offers).1|
    ensures var taken := Accepted(f, offers).1; taken[i].sequence == taken[j].sequence <==> taken[i].sequence == SEQUENCE_MAX
  {
    if f.aborted {
      AbortIsFinal(f, offers);
    } else {
      AcceptsLongestFit(f, offers);
      var taken := Accepted(f, offers).1;
      assert taken[i] == offers[i] && taken[j] == offers[j] && Fits(f, offers[i], i) && Fits(f, offers[j], j);
    }
  }

  /** So some number is accepted twice exactly when more frames are accepted than there are numbers left. */
  lemma SomeRepeatExactly<D>(f: ChannelFlow, offers: seq<Frame<D>>)
    requires f.nextRecv <= SEQUENCE_MAX
    ensures var taken := Accepted(f, offers).1;
      (exists i, j :: 0 <= i < j < |taken| && taken[i].sequence == taken[j].sequence) <==> f.nextRecv + |taken| > SEQUENCE_MAX + 1
  {
    var taken := Accepted(f, offers).1;
    if f.aborted {
      AbortIsFinal(f, offers);
    } else {
      AcceptsLongestFit(f, offers);
      forall i | 0 <= i < |taken|
        ensures taken[i].sequence == Expected(f.nextRecv, i)
      {
        assert Fits(f, offers[i], i);
      }
      if f.nextRecv + |taken| > SEQUENCE_MAX + 1 {
        var i, j := |taken| - 2, |taken| - 1;
        assert taken[i].sequence == taken[j].sequence;
      }
    }
  }

  /** The bound is needed: at the highest sequence number the counter stays put and a repeated frame is accepted again. */
  lemma SaturatedCounterRepeats<D>(jobId: seq<nat>, payload: Payload<D>)
    ensures var f := ChannelFlow(jobId, Alice, Main, 0, SEQUENCE_MAX, false);
      var frame := Frame(jobId, Bob, Main, SEQUENCE_MAX, OtherKind, payload);
      Accepted(f, [frame, frame]).1 == [frame, frame]
  {
    var f := ChannelFlow(jobId, Alice, Main, 0, SEQUENCE_MAX, false);
    var frame := Frame(jobId, Bob, Main, SEQUENCE_MAX, OtherKind, payload);
    assert [frame, frame][..1] == [frame];
    var one := [frame];
    assert one[..0] == [];
    assert Accepted(f, one[..0]) == (f, []);
    assert AcceptInbound(f, frame) == Ok(f, frame);
    assert [] + [frame] == one;
    assert Accepted(f, one) == (f, one);
  }
}

/** The daemon's ledger of checked units: channels with a lifetime cap, and the precompute jobs running on them.

Each operation is one atomic step under the lock. */
module Ledger {
  const U64_MAX: nat := 0xffff_ffff_ffff_ffff
  const DEFAULT_CAP: nat := 0x1_0000_0000
  const DEFAULT_SSP: nat := 40

  /** saturating_add on 64 bits. */
  function SatAdd(a: nat, b: nat): nat {
    if a + b > U64_MAX then U64_MAX else a + b
  }

  /** The counters and the frontier of a ChannelRecord. */
  datatype Channel = Channel(enabled: bool, ssp: nat, cap: nat, estimated: nat, attempted: nat, failed: nat, frontier: set<nat>)

  /** Job ids: a counter for the jobs this daemon starts, the peer's session id and a target for the others.
  Both kinds name the channel. */
  datatype JobId = Outgoing(channel: nat, serial: nat) | Incoming(channel: nat, session: nat, target: nat)

  datatype Job = Job(channel: nat, planned: nat)

  datatype Start = Started(id: JobId) | AlreadyStored | Refused(why: Refusal)
  datatype Refusal = NotFound | Disabled | ChannelBusy | NoWorker | WorkersBusy | OverCap | ParametersDiffer

  type Jobs = map<JobId, Job>
  type Channels = map<nat, Channel>

  ghost predicate Busy(jobs: Jobs, c: nat) {
    exists id :: id in jobs && jobs[id].channel == c
  }

  /** Checked units reserved by the running job of a channel. */
  ghost function Reserved(jobs: Jobs, c: nat): nat {
    if Busy(jobs, c) then
      var id :| id in jobs && jobs[id].channel == c;
      jobs[id].planned
    else 0
  }

  /** No two running jobs on a channel, and job ids name their channel. */
  ghost predicate OneEach(jobs: Jobs) {
    && (forall id :: id in jobs ==> id.channel == jobs[id].channel)
    && forall i, j :: i in jobs && j in jobs && jobs[i].channel == jobs[j].channel ==> i == j
  }

  /** The units of a channel fit its cap, and attempts account for all of them although they saturate. */
  ghost predicate Balanced(ch: Channel, reserved: nat) {
    ch.estimated + reserved <= ch.cap <= U64_MAX && ch.estimated + reserved <= ch.attempted <= U64_MAX
  }

  ghost predicate Sound(channels: Channels, jobs: Jobs, workers: nat) {
    OneEach(jobs) && |jobs| <= workers && AllEnabled(channels, jobs) && AllBalanced(channels, jobs)
  }

  /** Jobs run on enabled channels only. */
  ghost predicate AllEnabled(channels: Channels, jobs: Jobs) {
    forall id :: id in jobs ==> jobs[id].channel in channels && channels[jobs[id].channel].enabled
  }

  ghost predicate AllBalanced(channels: Channels, jobs: Jobs) {
    forall c :: c in channels ==> Balanced(channels[c], Reserved(jobs, c))
  }

  lemma ReservedIs(jobs: Jobs, id: JobId)
    requires OneEach(jobs) && id in jobs
    ensures Busy(jobs, jobs[id].channel) && Reserved(jobs, jobs[id].channel) == jobs[id].planned
  {
  }

  /** A new job on an idle channel reserves its units and touches no other channel. */
  lemma JobAdded(jobs: Jobs, id: JobId, job: Job)
    requires OneEach(jobs) && !Busy(jobs, job.channel) && id.channel == job.channel
    ensures id !in jobs && OneEach(jobs[id := job]) && |jobs[id := job]| == |jobs| + 1
    ensures Reserved(jobs, job.channel) == 0
    ensures forall c :: Reserved(jobs[id := job], c) == if c == job.channel then job.planned else Reserved(jobs, c)
  {
    var after := jobs[id := job];
    assert |after| == |jobs| + 1 by {
      assert after.Keys == jobs.Keys + {id};
      assert |after| == |after.Keys| && |jobs| == |jobs.Keys|;
    }
    hide Reserved, Busy;
    forall c
      ensures Reserved(after, c) == if c == job.channel then job.planned else Reserved(jobs, c)
    {
      if c == job.channel {
        ReservedIs(after, id);
      } else if i :| i in jobs && jobs[i].channel == c {
        ReservedIs(jobs, i);
        ReservedIs(after, i);
      } else {
        assert !Busy(after, c);
      }
    }
  }

  /** Removing a job frees its units and touches no other channel. */
  lemma JobRemoved(jobs: Jobs, id: JobId)
    requires OneEach(jobs) && id in jobs
    ensures OneEach(jobs - {id}) && |jobs - {id}| == |jobs| - 1 && !Busy(jobs - {id}, jobs[id].channel)
    ensures forall c :: Reserved(jobs - {id}, c) == if c == jobs[id].channel then 0 else Reserved(jobs, c)
  {
    var after := jobs - {id};
    assert after.Keys == jobs.Keys - {id};
    assert |after| == |after.Keys| && |jobs| == |jobs.Keys|;
    forall c
      ensures Reserved(after, c) == if c == jobs[id].channel then 0 else Reserved(jobs, c)
    {
      if c != jobs[id].channel {
        if i :| i in jobs && jobs[i].channel == c {
          ReservedIs(jobs, i);
          assert i in after;
          ReservedIs(after, i);
        } else {
          assert !Busy(after, c);
        }
      }
    }
  }

  /** A running job's channel is there and enabled, and its units add up without saturating. */
  lemma StoreFits(channels: Channels, jobs: Jobs, workers: nat, id: JobId)
    requires Sound(channels, jobs, workers) && id in jobs
    ensures var c := jobs[id].channel;
      && c in channels && channels[c].enabled
      && SatAdd(channels[c].estimated, jobs[id].planned) == channels[c].estimated + jobs[id].planned
  {
    var c := jobs[id].channel;
    ReservedIs(jobs, id);
    assert Balanced(channels[c], Reserved(jobs, c));
  }

  /** Storing a job's target turns its reserved units into used ones. */
  lemma StoreKeeps(channels: Channels, jobs: Jobs, workers: nat, id: JobId, target: nat)
    requires Sound(channels, jobs, workers) && id in jobs && jobs[id].channel in channels
    ensures var c, planned := jobs[id].channel, jobs[id].planned;
      Sound(channels[c := channels[c].(frontier := channels[c].frontier + {target}, estimated := channels[c].estimated + planned)], jobs - {id}, workers)
  {
    var c, planned := jobs[id].channel, jobs[id].planned;
    var after := channels[c := channels[c].(frontier := channels[c].frontier + {target}, estimated := channels[c].estimated + planned)];
    ReservedIs(jobs, id);
    JobRemoved(jobs, id);
    hide Reserved, OneEach, Busy;
    forall k | k in after
      ensures Balanced(after[k], Reserved(jobs - {id}, k))
    {
      assert Balanced(channels[k], Reserved(jobs, k));
    }
  }

  predicate SameUnits(channels: Channels, c: nat, ch: Channel) {
    if c in channels then ch.estimated == channels[c].estimated && ch.attempted == channels[c].attempted else ch.estimated == ch.attempted == 0
  }

  /** Enabling keeps a sound ledger sound exactly if what is in use fits the cap in force. */
  lemma Enabling(channels: Channels, jobs: Jobs, workers: nat, c: nat, ch: Channel)
    requires Sound(channels, jobs, workers) && ch.enabled && SameUnits(channels, c, ch)
    requires ch.cap <= U64_MAX || (c in channels && ch.cap == channels[c].cap)
    ensures Sound(channels[c := ch], jobs, workers) <==> ch.estimated + Reserved(jobs, c) <= ch.cap
  {
    hide Reserved, OneEach;
    var after := channels[c := ch];
    if c in channels {
      assert Balanced(channels[c], Reserved(jobs, c));
    } else {
      NoJobs(channels, jobs, workers, c);
    }
    forall k | k in channels && k != c
      ensures Balanced(after[k], Reserved(jobs, k))
    {
      assert Balanced(channels[k], Reserved(jobs, k));
    }
    assert AllBalanced(after, jobs) ==> Balanced(after[c], Reserved(jobs, c));
  }

  lemma NoJobs(channels: Channels, jobs: Jobs, workers: nat, c: nat)
    requires Sound(channels, jobs, workers) && c !in channels
    ensures !Busy(jobs, c) && Reserved(jobs, c) == 0
  {
  }

  class Daemon {
    /** effective_workers of the resource model. */
    const workers: nat
    var channels: Channels
    var jobs: Jobs
    var nextJobId: nat

    ghost predicate Valid()
      reads this
    {
      Sound(channels, jobs, workers)
    }

    constructor (workers: nat)
      ensures Valid() && channels == map[] && jobs == map[] && this.workers == workers
    {
      this.workers, channels, jobs, nextJobId := workers, map[], map[], 0;
    }

    /** Is any job running on the channel, and how much do its jobs reserve? */
    method Scan(c: nat) returns (busy: bool, reserved: nat)
      requires OneEach(jobs)
      ensures busy <==> Busy(jobs, c)
      ensures reserved == Reserved(jobs, c)
    {
      busy, reserved := false, 0;
      var left := jobs.Keys;
      while left != {}
        invariant left <= jobs.Keys
        invariant busy <==> exists id :: id in jobs && id !in left && jobs[id].channel == c
        invariant reserved == if busy then Reserved(jobs, c) else 0
        decreases left
      {
        var id :| id in left;
        if jobs[id].channel == c {
          ReservedIs(jobs, id);
          busy := true;
          reserved := reserved + jobs[id].planned;
        }
        left := left - {id};
      }
    }

    /** Entering a job keeps the ledger sound exactly when its units fit. */
    ghost method Entered(c: nat, id: JobId, planned: nat, before: Channels, jobsBefore: Jobs)
      requires Sound(before, jobsBefore, workers) && c in before && before[c].enabled && !Busy(jobsBefore, c) && id.channel == c
      requires |jobsBefore| < workers
      requires channels == before[c := before[c].(attempted := SatAdd(before[c].attempted, planned))] && jobs == jobsBefore[id := Job(c, planned)]
      ensures Valid() <==> before[c].estimated + planned <= before[c].cap
    {
      JobAdded(jobsBefore, id, Job(c, planned));
      forall k | k in before
        ensures Balanced(before[k], Reserved(jobsBefore, k))
        ensures before[c].estimated + planned <= before[c].cap ==> Balanced(channels[k], Reserved(jobs, k))
      {
      }
      assert Valid() ==> Balanced(channels[c], Reserved(jobs, c));
    }

    /** begin_precompute_jobstream, with the peer's advertised workers. The cap test saturates, so it keeps the ledger
    sound exactly when the units it admits do add up below the cap: always, unless the cap is the highest number. */
    method Begin(c: nat, target: nat, planned: nat, peerWorkers: nat, peerEffective: nat) returns (r: Start)
      requires Valid()
      modifies this
      ensures !r.Started? ==> channels == old(channels) && jobs == old(jobs) && nextJobId == old(nextJobId)
      ensures r.Started? ==>
        && nextJobId == SatAdd(old(nextJobId), 1) && r.id == Outgoing(c, nextJobId) && c in old(channels) && r.id !in old(jobs)
        && jobs == old(jobs)[r.id := Job(c, planned)]
        && channels == old(channels)[c := old(channels)[c].(attempted := SatAdd(old(channels)[c].attempted, planned))]
      ensures r == Refused(NotFound) <==> c !in old(channels)
      ensures r == Refused(Disabled) <==> c in old(channels) && !old(channels)[c].enabled
      ensures var open := c in old(channels) && old(channels)[c].enabled;
        var count := Min(workers, Min(peerEffective, Max(peerWorkers, 1)));
        && (r == AlreadyStored <==> open && target in old(channels)[c].frontier)
        && (open && target !in old(channels)[c].frontier ==>
          && (r == Refused(ChannelBusy) <==> Busy(old(jobs), c))
          && (r == Refused(NoWorker) <==> !Busy(old(jobs), c) && count == 0)
          && (r == Refused(WorkersBusy) <==> !Busy(old(jobs), c) && 0 < count <= |old(jobs)|)
          && (r == Refused(OverCap) <==> !Busy(old(jobs), c) && |old(jobs)| < count && SatAdd(old(channels)[c].estimated, planned) > old(channels)[c].cap)
          && (r.Started? <==> !Busy(old(jobs), c) && |old(jobs)| < count && SatAdd(old(channels)[c].estimated, planned) <= old(channels)[c].cap))
      ensures Valid() <==> r.Started? ==> old(channels)[c].estimated + planned <= old(channels)[c].cap
      ensures c in old(channels) && old(channels)[c].cap < U64_MAX ==> Valid()
    {
      if c !in channels {
        return Refused(NotFound);
      }
      var channel := channels[c];
      if !channel.enabled {
        return Refused(Disabled);
      }
      if target in channel.frontier {
        return AlreadyStored;
      }
      var busy, reserved := Scan(c);
      if busy {
        return Refused(ChannelBusy);
      }
      var count := Min(workers, Min(peerEffective, Max(peerWorkers, 1)));
      if count == 0 {
        return Refused(NoWorker);
      }
      if |jobs| >= count {
        return Refused(WorkersBusy);
      }
      assert Balanced(channel, Reserved(jobs, c));
      if SatAdd(SatAdd(channel.estimated, reserved), planned) > channel.cap {
        return Refused(OverCap);
      }
      ghost var before, jobsBefore := channels, jobs;
      channels := channels[c := channel.(attempted := SatAdd(channel.attempted, planned))];
      nextJobId := SatAdd(nextJobId, 1);
      var id := Outgoing(c, nextJobId);
      jobs := jobs[id := Job(c, planned)];
      JobAdded(jobsBefore, id, Job(c, planned));
      Entered(c, id, planned, before, jobsBefore);
      return Started(id);
    }

    /** begin_incoming_precompute_target, for a descriptor with the peer's security parameters. */
    method BeginIncoming(c: nat, session: nat, target: nat, peerSsp: nat, peerCap: nat, planned: nat) returns (r: Start)
      requires Valid()
      modifies this
      ensures nextJobId == old(nextJobId)
      ensures !r.Started? ==> channels == old(channels) && jobs == old(jobs)
      ensures r.Started? ==>
        && r.id == Incoming(c, session, target) && c in old(channels) && r.id !in old(jobs)
        && jobs == old(jobs)[r.id := Job(c, planned)]
        && channels == old(channels)[c := old(channels)[c].(attempted := SatAdd(old(channels)[c].attempted, planned))]
      ensures r == Refused(NotFound) <==> c !in old(channels)
      ensures r == Refused(Disabled) <==> c in old(channels) && !old(channels)[c].enabled
      ensures var open := c in old(channels) && old(channels)[c].enabled;
        && (r == Refused(ParametersDiffer) <==> open && (peerSsp != old(channels)[c].ssp || peerCap != old(channels)[c].cap))
        && (open && peerSsp == old(channels)[c].ssp && peerCap == old(channels)[c].cap ==>
          && (r == Refused(WorkersBusy) <==> |old(jobs)| >= workers)
          && (r == Refused(ChannelBusy) <==> |old(jobs)| < workers && Busy(old(jobs), c))
          && (r == Refused(OverCap) <==> |old(jobs)| < workers && !Busy(old(jobs), c) && SatAdd(old(channels)[c].estimated, planned) > peerCap)
          && (r.Started? <==> |old(jobs)| < workers && !Busy(old(jobs), c) && SatAdd(old(channels)[c].estimated, planned) <= peerCap))
      ensures Valid() <==> r.Started? ==> old(channels)[c].estimated + planned <= old(channels)[c].cap
      ensures c in old(channels) && old(channels)[c].cap < U64_MAX ==> Valid()
    {
      if c !in channels {
        return Refused(NotFound);
      }
      var channel := channels[c];
      if !channel.enabled {
        return Refused(Disabled);
      }
      if peerSsp != channel.ssp || peerCap != channel.cap {
        return Refused(ParametersDiffer);
      }
      if |jobs| >= workers {
        return Refused(WorkersBusy);
      }
      var busy, reserved := Scan(c);
      if busy {
        return Refused(ChannelBusy);
      }
      assert Balanced(channel, Reserved(jobs, c));
      if SatAdd(SatAdd(channel.estimated, reserved), planned) > channel.cap {
        return Refused(OverCap);
      }
      ghost var before, jobsBefore := channels, jobs;
      channels := channels[c := channel.(attempted := SatAdd(channel.attempted, planned))];
      var id := Incoming(c, session, target);
      jobs := jobs[id := Job(c, planned)];
      JobAdded(jobsBefore, id, Job(c, planned));
      Entered(c, id, planned, before, jobsBefore);
      return Started(id);
    }

    /** store_precomputed_target_wires_and_finish_job. For a running job it never fails, and what was reserved
    becomes used. */
    method Store(c: nat, id: JobId, planned: nat, target: nat) returns (ok: bool)
      requires Valid()
      modifies this`channels, this`jobs
      ensures ok <==> c in old(channels) && old(channels)[c].enabled
      ensures !ok ==> channels == old(channels) && jobs == old(jobs)
      ensures ok ==> jobs == old(jobs) - {id}
      ensures ok ==> channels == old(channels)[c := old(channels)[c].(
        frontier := old(channels)[c].frontier + {target}, estimated := SatAdd(old(channels)[c].estimated, planned))]
      ensures id in old(jobs) && old(jobs)[id] == Job(c, planned) ==>
        ok && Valid() && channels[c].estimated == old(channels)[c].estimated + planned
    {
      hide Sound;
      if id in jobs && jobs[id] == Job(c, planned) {
        StoreFits(channels, jobs, workers, id);
        StoreKeeps(channels, jobs, workers, id, target);
      }
      if c !in channels || !channels[c].enabled {
        return false;
      }
      ghost var before := channels;
      channels := channels[c := channels[c].(frontier := channels[c].frontier + {target})];
      channels := channels[c := channels[c].(estimated := SatAdd(channels[c].estimated, planned))];
      assert channels == before[c := before[c].(frontier := before[c].frontier + {target}, estimated := SatAdd(before[c].estimated, planned))];
      jobs := jobs - {id};
      ok := true;
    }

    /** finish_job; an unknown id changes nothing. */
    method Finish(id: JobId, failed: bool)
      requires Valid()
      modifies this`channels, this`jobs
      ensures Valid() && jobs == old(jobs) - {id}
      ensures id in old(jobs) ==> old(jobs)[id].channel in old(channels)
      ensures channels == if id in old(jobs) && failed
        then old(channels)[old(jobs)[id].channel := old(channels)[old(jobs)[id].channel].(failed := SatAdd(old(channels)[old(jobs)[id].channel].failed, 1))]
        else old(channels)
    {
      if id !in jobs {
        assert jobs - {id} == jobs;
        return;
      }
      var c := jobs[id].channel;
      JobRemoved(jobs, id);
      ghost var before, jobsBefore := channels, jobs;
      jobs := jobs - {id};
      if failed {
        channels := channels[c := channels[c].(failed := SatAdd(channels[c].failed, 1))];
      }
      forall k | k in channels
        ensures Balanced(channels[k], Reserved(jobs, k))
      {
        assert Balanced(before[k], Reserved(jobsBefore, k));
      }
    }

    /** record_failed_precompute_attempt */
    method RecordFailure(c: nat, planned: nat) returns (ok: bool)
      requires Valid()
      modifies this`channels
      ensures Valid() && ok == (c in old(channels))
      ensures channels == if ok then old(channels)[c := old(channels)[c].(attempted := SatAdd(old(channels)[c].attempted, planned),
                                                                           failed := SatAdd(old(channels)[c].failed, 1))] else old(channels)
    {
      if c !in channels {
        return false;
      }
      ghost var before := channels;
      channels := channels[c := channels[c].(attempted := SatAdd(channels[c].attempted, planned), failed := SatAdd(channels[c].failed, 1))];
      forall k | k in channels
        ensures Balanced(channels[k], Reserved(jobs, k))
      {
        assert Balanced(before[k], Reserved(jobs, k));
      }
      ok := true;
    }

    /** enable_channel with requested parameters, zero meaning none. The ledger stays sound exactly when the cap the
    channel ends with covers what is used and reserved. */
    method Enable(c: nat, cap: nat, ssp: nat)
      requires Valid() && cap <= U64_MAX
      modifies this`channels
      ensures c in channels && channels == old(channels)[c := channels[c]]
      ensures var was := if c in old(channels) then old(channels)[c] else Channel(true, DEFAULT_SSP, DEFAULT_CAP, 0, 0, 0, {});
        channels[c] == was.(enabled := true, ssp := if ssp != 0 then ssp else was.ssp, cap := if cap != 0 then cap else was.cap)
      ensures Valid() <==> channels[c].estimated + Reserved(jobs, c) <= channels[c].cap
    {
      hide Sound, Reserved;
      var channel := if c in channels then channels[c]
        else Channel(true, if ssp == 0 then DEFAULT_SSP else ssp, if cap == 0 then DEFAULT_CAP else cap, 0, 0, 0, {});
      channel := channel.(enabled := true);
      if ssp != 0 {
        channel := channel.(ssp := ssp);
      }
      if cap != 0 {
        channel := channel.(cap := cap);
      }
      Enabling(channels, jobs, workers, c, channel);
      channels := channels[c := channel];
    }

    /** disable_channel: refused while a job runs on it. */
    method Disable(c: nat) returns (r: Refusal, ok: bool)
      requires Valid()
      modifies this`channels
      ensures Valid() && (ok <==> !Busy(jobs, c) && c in old(channels))
      ensures !ok ==> r == if Busy(jobs, c) then ChannelBusy else NotFound
      ensures channels == if ok then old(channels)[c := old(channels)[c].(enabled := false, frontier := {})] else old(channels)
    {
      var busy, reserved := Scan(c);
      if busy {
        return ChannelBusy, false;
      }
      if c !in channels {
        return NotFound, false;
      }
      ghost var before := channels;
      channels := channels[c := channels[c].(enabled := false, frontier := {})];
      forall k | k in channels
        ensures Balanced(channels[k], Reserved(jobs, k))
      {
        assert Balanced(before[k], Reserved(jobs, k));
      }
      return NotFound, true;
    }
  }

  function Min(a: nat, b: nat): nat {
    if a < b then a else b
  }

  function Max(a: nat, b: nat): nat {
    if a > b then a else b
  }

  // ---- where the code leaves the ledger unsound ----

  /** Lowering a cap below what a running job has reserved: ten units under a cap of five. */
  method LoweredCapFails() returns (d: Daemon)
    ensures fresh(d) && 0 in d.channels && d.channels[0].estimated + Reserved(d.jobs, 0) == 10 && d.channels[0].cap == 5
    ensures !d.Valid()
  {
    d := new Daemon(1);
    d.Enable(0, 10, 0);
    var r := d.Begin(0, 1, 10, 1, 1);
    ReservedIs(d.jobs, r.id);
    d.Enable(0, 5, 0);
  }

  /** At the highest cap the saturating test admits one unit more than there is room for. */
  method HighestCapFails() returns (d: Daemon)
    ensures fresh(d) && 0 in d.channels && d.channels[0].cap == U64_MAX
    ensures d.channels[0].estimated + Reserved(d.jobs, 0) == U64_MAX + 1
    ensures !d.Valid()
  {
    d := new Daemon(1);
    d.Enable(0, U64_MAX, 0);
    var r := d.Begin(0, 1, U64_MAX, 1, 1);
    var stored := d.Store(0, r.id, U64_MAX, 1);
    assert d.jobs == map[];
    r := d.Begin(0, 2, 1, 1, 1);
    JobAdded(map[], r.id, Job(0, 1));
    ReservedIs(d.jobs, r.id);
  }

  // ---- whole runs ----

  datatype Event =
    | BeginJob(channel: nat, target: nat, planned: nat, peerWorkers: nat, peerEffective: nat)
    | BeginPeerJob(channel: nat, session: nat, target: nat, peerSsp: nat, peerCap: nat, planned: nat)
    | StoreJob(job: JobId, target: nat)
    | FinishJob(job: JobId, failed: bool)
    | FailedAttempt(channel: nat, planned: nat)
    | EnableChannel(channel: nat, cap: nat, ssp: nat)
    | DisableChannel(channel: nat)

  /** Every cap is below the highest number. */
  ghost predicate Capped(d: Daemon)
    reads d
  {
    forall c :: c in d.channels ==> d.channels[c].cap < U64_MAX
  }

  // ---- what each event does to the books ----

  datatype Books = Books(channels: Channels, jobs: Jobs, nextJobId: nat)

  /** A free worker on both sides and room under the cap, on an idle enabled channel. */
  ghost predicate Fits(b: Books, c: nat, planned: nat, count: nat) {
    && c in b.channels && b.channels[c].enabled && !Busy(b.jobs, c) && |b.jobs| < count
    && SatAdd(b.channels[c].estimated, planned) <= b.channels[c].cap
  }

  function WithJob(b: Books, id: JobId, c: nat, planned: nat): Books
    requires c in b.channels
  {
    b.(jobs := b.jobs[id := Job(c, planned)], channels := b.channels[c := b.channels[c].(attempted := SatAdd(b.channels[c].attempted, planned))])
  }

  ghost function AfterBegin(workers: nat, b: Books, c: nat, target: nat, planned: nat, peerWorkers: nat, peerEffective: nat): Books {
    if Fits(b, c, planned, Min(workers, Min(peerEffective, Max(peerWorkers, 1)))) && target !in b.channels[c].frontier
    then WithJob(b, Outgoing(c, SatAdd(b.nextJobId, 1)), c, planned).(nextJobId := SatAdd(b.nextJobId, 1))
    else b
  }

  ghost function AfterPeerBegin(workers: nat, b: Books, c: nat, session: nat, target: nat, peerSsp: nat, peerCap: nat, planned: nat): Books {
    if Fits(b, c, planned, workers) && peerSsp == b.channels[c].ssp && peerCap == b.channels[c].cap
    then WithJob(b, Incoming(c, session, target), c, planned)
    else b
  }

  function AfterStore(b: Books, id: JobId, target: nat): Books {
    if id in b.jobs && b.jobs[id].channel in b.channels then
      var c, ch := b.jobs[id].channel, b.channels[b.jobs[id].channel];
      b.(jobs := b.jobs - {id}, channels := b.channels[c := ch.(
        frontier := ch.frontier + {target}, estimated := SatAdd(ch.estimated, b.jobs[id].planned))])
    else b
  }

  function CountFailure(b: Books, c: nat): Channels {
    if c in b.channels then b.channels[c := b.channels[c].(failed := SatAdd(b.channels[c].failed, 1))] else b.channels
  }

  function AfterFinish(b: Books, id: JobId, failed: bool): Books {
    b.(jobs := b.jobs - {id}, channels := if id in b.jobs && failed then CountFailure(b, b.jobs[id].channel) else b.channels)
  }

  function AfterFailure(b: Books, c: nat, planned: nat): Books {
    if c in b.channels
    then b.(channels := CountFailure(b, c)[c := CountFailure(b, c)[c].(attempted := SatAdd(b.channels[c].attempted, planned))])
    else b
  }

  /** Caps at the highest number or below what is in use are passed over. */
  ghost function AfterEnable(b: Books, c: nat, cap: nat, ssp: nat): Books {
    if cap >= U64_MAX || (cap != 0 && c in b.channels && b.channels[c].estimated + Reserved(b.jobs, c) > cap) then b
    else
      var was := if c in b.channels then b.channels[c] else Channel(true, DEFAULT_SSP, DEFAULT_CAP, 0, 0, 0, {});
      b.(channels := b.channels[c := was.(enabled := true, ssp := if ssp != 0 then ssp else was.ssp, cap := if cap != 0 then cap else was.cap)])
  }

  ghost function AfterDisable(b: Books, c: nat): Books {
    if c in b.channels && !Busy(b.jobs, c) then b.(channels := b.channels[c := b.channels[c].(enabled := false, frontier := {})]) else b
  }

  ghost function After(workers: nat, b: Books, e: Event): Books {
    match e
    case BeginJob(c, target, planned, pw, pe) => AfterBegin(workers, b, c, target, planned, pw, pe)
    case BeginPeerJob(c, session, target, ssp, cap, planned) => AfterPeerBegin(workers, b, c, session, target, ssp, cap, planned)
    case StoreJob(id, target) => AfterStore(b, id, target)
    case FinishJob(id, failed) => AfterFinish(b, id, failed)
    case FailedAttempt(c, planned) => AfterFailure(b, c, planned)
    case EnableChannel(c, cap, ssp) => AfterEnable(b, c, cap, ssp)
    case DisableChannel(c) => AfterDisable(b, c)
  }

  ghost function AfterAll(workers: nat, b: Books, events: seq<Event>): Books {
    if events == [] then b else After(workers, AfterAll(workers, b, events[..|events| - 1]), events[|events| - 1])
  }

  ghost function BooksOf(d: Daemon): Books
    reads d
  {
    Books(d.channels, d.jobs, d.nextJobId)
  }

  method StartOwn(d: Daemon, c: nat, target: nat, planned: nat, pw: nat, pe: nat)
    requires d.Valid() && Capped(d)
    modifies d
    ensures d.Valid() && Capped(d) && BooksOf(d) == AfterBegin(d.workers, old(BooksOf(d)), c, target, planned, pw, pe)
  {
    hide Sound;
    var r := d.Begin(c, target, planned, pw, pe);
  }

  method StartPeer(d: Daemon, c: nat, session: nat, target: nat, peerSsp: nat, peerCap: nat, planned: nat)
    requires d.Valid() && Capped(d)
    modifies d
    ensures d.Valid() && Capped(d)
    ensures BooksOf(d) == AfterPeerBegin(d.workers, old(BooksOf(d)), c, session, target, peerSsp, peerCap, planned)
  {
    hide Sound;
    var r := d.BeginIncoming(c, session, target, peerSsp, peerCap, planned);
  }

  /** A channel enabled unless its cap is to be the highest number or below what is in use. */
  method EnableFitting(d: Daemon, c: nat, cap: nat, ssp: nat)
    requires d.Valid() && Capped(d)
    modifies d
    ensures d.Valid() && Capped(d) && BooksOf(d) == AfterEnable(old(BooksOf(d)), c, cap, ssp)
  {
    hide Sound, Reserved;
    CapKept(d, c);
    var busy, reserved := d.Scan(c);
    if cap < U64_MAX && (cap != 0 && c in d.channels ==> d.channels[c].estimated + reserved <= cap) {
      d.Enable(c, cap, ssp);
    }
  }

  method Handle(d: Daemon, e: Event)
    requires d.Valid() && Capped(d)
    modifies d
    ensures d.Valid() && Capped(d) && BooksOf(d) == After(d.workers, old(BooksOf(d)), e)
  {
    hide Sound, Reserved, Busy, AfterBegin, AfterPeerBegin, AfterEnable;
    match e {
      case BeginJob(c, target, planned, pw, pe) =>
        StartOwn(d, c, target, planned, pw, pe);
      case BeginPeerJob(c, session, target, peerSsp, peerCap, planned) =>
        StartPeer(d, c, session, target, peerSsp, peerCap, planned);
      case StoreJob(id, target) =>
        if id in d.jobs {
          var ok := d.Store(d.jobs[id].channel, id, d.jobs[id].planned, target);
        }
      case FinishJob(id, failed) =>
        d.Finish(id, failed);
      case FailedAttempt(c, planned) =>
        var ok := d.RecordFailure(c, planned);
      case EnableChannel(c, cap, ssp) =>
        EnableFitting(d, c, cap, ssp);
      case DisableChannel(c) =>
        var r, ok := d.Disable(c);
    }
  }

  /** Any interleaving of operations keeps the ledger sound and leaves the books that the events add up to, as long as
  caps stay below the highest number and a channel is not enabled with a cap its units exceed; such requests are passed
  over here, and the two methods above show why. */
  method Run(d: Daemon, events: seq<Event>)
    requires d.Valid() && Capped(d)
    modifies d
    ensures d.Valid() && Capped(d) && BooksOf(d) == AfterAll(d.workers, old(BooksOf(d)), events)
  {
    hide Daemon.Valid, Capped, After;
    for i := 0 to |events|
      invariant d.Valid() && Capped(d) && BooksOf(d) == AfterAll(d.workers, old(BooksOf(d)), events[..i])
    {
      assert events[..i + 1][..i] == events[..i];
      Handle(d, events[i]);
    }
    assert events[..|events|] == events;
  }

  lemma CapKept(d: Daemon, c: nat)
    requires d.Valid()
    ensures OneEach(d.jobs)
    ensures c in d.channels ==> d.channels[c].estimated + Reserved(d.jobs, c) <= d.channels[c].cap
    ensures c !in d.channels ==> Reserved(d.jobs, c) == 0
  {
    if c in d.channels {
      assert Balanced(d.channels[c], Reserved(d.jobs, c));
    }
  }

  /** What a sound ledger says, spelled out. */
  lemma SoundMeans(d: Daemon, i: JobId, j: JobId, c: nat)
    requires d.Valid()
    ensures |d.jobs| <= d.workers
    ensures i in d.jobs && j in d.jobs && d.jobs[i].channel == d.jobs[j].channel ==> i == j
    ensures c in d.channels && !d.channels[c].enabled ==> !Busy(d.jobs, c)
    ensures c in d.channels ==> d.channels[c].estimated + Reserved(d.jobs, c) <= d.channels[c].cap
    ensures c in d.channels ==> d.channels[c].estimated + Reserved(d.jobs, c) <= d.channels[c].attempted
  {
    CapKept(d, c);
    if c in d.channels {
      assert Balanced(d.channels[c], Reserved(d.jobs, c));
    }
  }
}

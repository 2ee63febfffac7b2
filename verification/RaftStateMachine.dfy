/** The Raft state machine object (src/cluster/raft_sm.rs): batches of log entries,
    snapshots, and agreement between replicas. */
module RaftStateMachine {
  import opened Common
  import opened Domain
  import opened EventRing
  import opened Cluster

  type u64 = n: nat | n < 0x1_0000_0000_0000_0000

  datatype LogId = LogId(term: nat, leader: nat, index: u64)
  datatype EntryPayload = Blank | Normal(cmd: Command) | Membership(config: string)
  datatype Entry = Entry(logId: LogId, payload: EntryPayload)
  datatype StoredMembership = StoredMembership(logId: Option<LogId>, config: string)

  datatype Data = Data(lastApplied: Option<LogId>, membership: StoredMembership, cluster: ClusterState)

  const EMPTY_DATA := Data(None, StoredMembership(None, ""), EMPTY_STATE)

  /** The encoded bytes of a snapshot are represented by the data they encode. */
  datatype Snapshot = Snapshot(lastLogId: Option<LogId>, lastMembership: StoredMembership, bytes: Data)

  // ---- specification of apply ----

  function ApplyEntry(d: Data, e: Entry, o: Stamp): (Data, Response) {
    match e.payload
    case Membership(config) => (Data(Some(e.logId), StoredMembership(Some(e.logId), config), d.cluster), Done)
    case Normal(cmd) =>
      var (cluster, resp) := Apply(d.cluster, cmd, o);
      (Data(Some(e.logId), d.membership, cluster), resp)
    case Blank => (d.(lastApplied := Some(e.logId)), Done)
  }

  function ApplyEntries(d: Data, es: seq<Entry>, stamps: seq<Stamp>): (r: (Data, seq<Response>))
    requires |stamps| == |es|
    ensures |r.1| == |es|
    decreases es
  {
    if es == [] then (d, [])
    else
      var n := |es| - 1;
      var (d', rs) := ApplyEntries(d, es[..n], stamps[..n]);
      var (d'', r) := ApplyEntry(d', es[n], stamps[n]);
      (d'', rs + [r])
  }

  function BuildSnapshot(d: Data): Snapshot {
    Snapshot(d.lastApplied, d.membership, d)
  }

  function InstallSnapshot(s: Snapshot): Data {
    s.bytes.(lastApplied := s.lastLogId, membership := s.lastMembership)
  }

  // ---- the object ----

  class StateMachine {
    var lastApplied: Option<LogId>
    var membership: StoredMembership
    var cluster: ClusterState

    ghost function Contents(): Data
      reads this
    {
      Data(lastApplied, membership, cluster)
    }

    constructor ()
      ensures Contents() == EMPTY_DATA
    {
      lastApplied, membership, cluster := None, StoredMembership(None, ""), EMPTY_STATE;
    }

    method PushEvent(o: Stamp, kind: EventKind, payload: Payload)
      modifies this`cluster
      ensures cluster == Emit(old(cluster), o, kind, payload)
    {
      cluster := cluster.(events := cluster.events.Push(Event(o.eventId, o.eventTime, kind, payload)));
    }

    /** The job arms of `apply_command`. */
    method ApplyJob(cmd: Command, o: Stamp) returns (resp: Response)
      requires cmd.OnJob()
      modifies this`cluster
      ensures (cluster, resp) == ApplyJobCommand(old(cluster), cmd, o)
    {
      match cmd
      case PutJob(job) =>
        var history := if job.id in cluster.jobHistory then cluster.jobHistory[job.id] else [];
        cluster := cluster.(jobHistory := cluster.jobHistory[job.id := history + [EntryOf(job)]]);
        PushEvent(o, JobSubmitted, Submitted(job.id, job.version, job.jobType));
        cluster := cluster.(jobs := cluster.jobs[job.id := job]);
        resp := JobResponse(job);
      case UpdateJobStatus(id, status) =>
        if id in cluster.jobs {
          var job := cluster.jobs[id];
          var was := job.status;
          job := job.(status := status);
          if was != status {
            job := job.(version := job.version + 1);
            cluster := cluster.(jobs := cluster.jobs[id := job]);
            var kind := if status == JobDead then JobStopped else JobUpdated;
            PushEvent(o, kind, StatusChanged(id, was, status, job.version));
          } else {
            assert cluster.jobs[id := job] == cluster.jobs;
          }
          resp := JobResponse(job);
        } else {
          resp := ErrorResponse(JobNotFound(id));
        }
      case RollbackJob(id, version) =>
        var target := FindVersion(if id in cluster.jobHistory then cluster.jobHistory[id] else [], version);
        if target.Some? {
          if id in cluster.jobs {
            var job := cluster.jobs[id];
            job := job.(groups := target.value.spec.groups);
            job := job.(constraints := target.value.spec.constraints);
            job := job.(meta := target.value.spec.meta);
            job := job.(version := job.version + 1);
            job := job.(status := JobPending);
            cluster := cluster.(jobs := cluster.jobs[id := job]);
            PushEvent(o, JobUpdated, RolledBackTo(id, version, job.version));
            resp := JobResponse(job);
          } else {
            resp := ErrorResponse(JobNotFound(id));
          }
        } else {
          resp := ErrorResponse(VersionNotFound(version, id));
        }
    }

    /** The source arms of `apply_command`. */
    method ApplySource(cmd: Command, o: Stamp) returns (resp: Response)
      requires cmd.OnSource()
      modifies this`cluster
      ensures (cluster, resp) == ApplySourceCommand(old(cluster), cmd, o)
    {
      match cmd
      case PutSource(s) =>
        PushEvent(o, SourceCreated, SourceInfo(s.id, s.name, s.flakeRef));
        cluster := cluster.(sources := cluster.sources[s.id := s]);
        resp := SourceResponse(s);
      case UpdateSource(id, status, rev, err, jobs) =>
        if id in cluster.sources {
          var s := cluster.sources[id];
          var was := s.status;
          s := s.(status := status);
          if rev.Some? {
            s := s.(lastRev := Some(rev.value));
          }
          s := s.(lastError := err);
          if jobs.Some? {
            s := s.(managedJobs := jobs.value);
          }
          s := s.(lastReconciledAt := Some(o.reconcileTime));
          cluster := cluster.(sources := cluster.sources[id := s]);
          PushEvent(o, SourceKind(was, status), SourceChanged(id, s.name, status));
          resp := SourceResponse(s);
        } else {
          resp := ErrorResponse(SourceNotFound(id));
        }
      case DeleteSource(id) =>
        if id in cluster.sources {
          var name := cluster.sources[id].name;
          cluster := cluster.(sources := cluster.sources - {id});
          PushEvent(o, SourceReconciled, SourceDeleted(id, name));
          resp := Done;
        } else {
          resp := ErrorResponse(SourceNotFound(id));
        }
    }

    /** The node and allocation arms of `apply_command`. */
    method ApplyNodeOrAllocation(cmd: Command, o: Stamp) returns (resp: Response)
      requires cmd.OnNode() || cmd.OnAllocation()
      modifies this`cluster
      ensures (cluster, resp) == Apply(old(cluster), cmd, o)
    {
      match cmd
      case PutAllocation(a) =>
        PushEvent(o, AllocationPlaced, Placed(a.id, a.jobId, a.nodeId, a.groupName));
        cluster := cluster.(allocations := cluster.allocations[a.id := a]);
        resp := AllocationResponse(a);
      case UpdateAllocation(id, state, taskStates) =>
        if id in cluster.allocations {
          var a := cluster.allocations[id];
          var was := a.state;
          a := a.(state := state);
          a := a.(taskStates := taskStates);
          cluster := cluster.(allocations := cluster.allocations[id := a]);
          if was != state {
            PushEvent(o, AllocationKind(state), StateChanged(id, a.jobId, was, state));
          }
          resp := AllocationResponse(a);
        } else {
          resp := ErrorResponse(AllocationNotFound(id));
        }
      case RegisterNode(m) =>
        PushEvent(o, NodeJoined, NodeInfo(m.nodeId, m.hostname));
        cluster := cluster.(nodes := cluster.nodes[m.nodeId := m]);
        resp := Done;
      case RemoveNode(id) =>
        PushEvent(o, NodeLeft, NodeGone(id));
        cluster := cluster.(nodes := cluster.nodes - {id});
        resp := Done;
      case DrainNode(id) =>
        if id in cluster.nodes {
          var n := cluster.nodes[id].(eligible := false);
          cluster := cluster.(nodes := cluster.nodes[id := n]);
          PushEvent(o, NodeDrained, NodeInfo(id, n.hostname));
          resp := Done;
        } else {
          resp := ErrorResponse(NodeNotFound(id));
        }
      case SetNodeEligibility(id, eligible) =>
        if id in cluster.nodes {
          cluster := cluster.(nodes := cluster.nodes[id := cluster.nodes[id].(eligible := eligible)]);
          resp := Done;
        } else {
          resp := ErrorResponse(NodeNotFound(id));
        }
    }

    method ApplyCommand(cmd: Command, o: Stamp) returns (resp: Response)
      modifies this`cluster
      ensures (cluster, resp) == Apply(old(cluster), cmd, o)
    {
      if cmd.OnJob() {
        resp := ApplyJob(cmd, o);
        return;
      }
      if cmd.OnSource() {
        resp := ApplySource(cmd, o);
        return;
      }
      if cmd.OnNode() || cmd.OnAllocation() {
        resp := ApplyNodeOrAllocation(cmd, o);
        return;
      }
      match cmd
      case AdvertiseChunk(hash, id) =>
        var holders := if hash in cluster.dataIndex then cluster.dataIndex[hash] else [];
        cluster := cluster.(dataIndex := cluster.dataIndex[hash := holders + [id]]);
        resp := Done;
      case RemoveChunkAdvertisement(hash, id) =>
        if hash in cluster.dataIndex {
          var holders := Without(cluster.dataIndex[hash], id);
          if holders == [] {
            cluster := cluster.(dataIndex := cluster.dataIndex - {hash});
          } else {
            cluster := cluster.(dataIndex := cluster.dataIndex[hash := holders]);
          }
        }
        resp := Done;
      case EmitEvent(e) =>
        cluster := cluster.(events := cluster.events.Push(e));
        resp := Done;
      case PutRelease(r) =>
        cluster := cluster.(releases := cluster.releases[r.id := r]);
        resp := ReleaseResponse(r);
      case UpdateReleaseStatus(id, status) =>
        if id in cluster.releases {
          var r := cluster.releases[id].(status := status);
          cluster := cluster.(releases := cluster.releases[id := r]);
          resp := ReleaseResponse(r);
        } else {
          resp := ErrorResponse(ReleaseNotFound(id));
        }
    }

    /** `apply`: one response per entry, in order. */
    method ApplyBatch(es: seq<Entry>, stamps: seq<Stamp>) returns (responses: seq<Response>)
      requires |stamps| == |es|
      modifies this
      ensures (Contents(), responses) == ApplyEntries(old(Contents()), es, stamps)
    {
      responses := [];
      for i := 0 to |es|
        invariant (Contents(), responses) == ApplyEntries(old(Contents()), es[..i], stamps[..i])
      {
        var e := es[i];
        assert es[..i + 1][..i] == es[..i] && stamps[..i + 1][..i] == stamps[..i];
        lastApplied := Some(e.logId);
        if e.payload.Membership? {
          membership := StoredMembership(Some(e.logId), e.payload.config);
          responses := responses + [Done];
          continue;
        }
        var resp := Done;
        if e.payload.Normal? {
          resp := ApplyCommand(e.payload.cmd, stamps[i]);
        }
        responses := responses + [resp];
      }
      assert es[..|es|] == es && stamps[..|es|] == stamps;
    }

    method Build() returns (s: Snapshot)
      ensures s == BuildSnapshot(Contents())
    {
      s := Snapshot(lastApplied, membership, Data(lastApplied, membership, cluster));
    }

    /** No snapshot is offered before the first entry is applied. */
    method Current() returns (s: Option<Snapshot>)
      ensures s == if lastApplied.None? then None else Some(BuildSnapshot(Contents()))
    {
      if lastApplied.None? {
        return None;
      }
      s := Some(Snapshot(lastApplied, membership, Data(lastApplied, membership, cluster)));
    }

    method Install(s: Snapshot)
      modifies this
      ensures Contents() == InstallSnapshot(s)
      ensures lastApplied == s.lastLogId && membership == s.lastMembership && cluster == s.bytes.cluster
    {
      lastApplied, membership, cluster := s.bytes.lastApplied, s.bytes.membership, s.bytes.cluster;
      lastApplied := s.lastLogId;
      membership := s.lastMembership;
    }
  }

  // ---- agreement ----

  /** Everything but the generated id and time. */
  ghost predicate SameEvent(a: Event, b: Event) {
    a.kind == b.kind && a.payload == b.payload
  }

  ghost predicate SameEvents(a: Ring<Event>, b: Ring<Event>) {
    && a.capacity == b.capacity && |a.items| == |b.items|
    && forall i :: 0 <= i < |a.items| ==> SameEvent(a.items[i], b.items[i])
  }

  ghost predicate SameSource(a: Source, b: Source) {
    b.(lastReconciledAt := a.lastReconciledAt) == a
  }

  ghost predicate SameSources(a: map<Uuid, Source>, b: map<Uuid, Source>) {
    a.Keys == b.Keys && forall k :: k in a ==> SameSource(a[k], b[k])
  }

  /** Agreement on everything except event ids, event times and `last_reconciled_at`. */
  ghost predicate Agree(a: ClusterState, b: ClusterState) {
    && a.jobs == b.jobs && a.allocations == b.allocations && a.nodes == b.nodes
    && a.dataIndex == b.dataIndex && a.jobHistory == b.jobHistory && a.releases == b.releases
    && SameEvents(a.events, b.events) && SameSources(a.sources, b.sources)
  }

  ghost predicate SameResponse(a: Response, b: Response) {
    if a.SourceResponse? && b.SourceResponse? then SameSource(a.source, b.source) else a == b
  }

  ghost predicate DataAgree(a: Data, b: Data) {
    a.lastApplied == b.lastApplied && a.membership == b.membership && Agree(a.cluster, b.cluster)
  }

  lemma PushAgrees(a: Ring<Event>, b: Ring<Event>, e: Event, f: Event)
    requires SameEvents(a, b) && SameEvent(e, f)
    ensures SameEvents(a.Push(e), b.Push(f))
  {
    var a', b' := a.Push(e), b.Push(f);
    forall i | 0 <= i < |a'.items| ensures SameEvent(a'.items[i], b'.items[i]) {
      var shift := if |a.items| >= a.capacity && a.items != [] then 1 else 0;
      if i + shift < |a.items| {
        assert a'.items[i] == a.items[i + shift] && b'.items[i] == b.items[i + shift];
      }
    }
  }

  lemma EmitAgrees(a: ClusterState, b: ClusterState, o: Stamp, p: Stamp, kind: EventKind, payload: Payload)
    requires Agree(a, b)
    ensures Agree(Emit(a, o, kind, payload), Emit(b, p, kind, payload))
  {
    PushAgrees(a.events, b.events, Event(o.eventId, o.eventTime, kind, payload),
               Event(p.eventId, p.eventTime, kind, payload));
  }

  lemma JobAgrees(a: ClusterState, b: ClusterState, cmd: Command, o: Stamp, p: Stamp)
    requires Agree(a, b) && cmd.OnJob()
    ensures Agree(ApplyJobCommand(a, cmd, o).0, ApplyJobCommand(b, cmd, p).0)
    ensures ApplyJobCommand(a, cmd, o).1 == ApplyJobCommand(b, cmd, p).1
  {
    hide SameEvents, SameSources, FindVersion, Emit, EntryOf, Restore;
    match cmd
    case PutJob(job) =>
      var history := a.jobHistory[job.id := HistoryOf(a, job.id) + [EntryOf(job)]];
      EmitAgrees(a.(jobHistory := history), b.(jobHistory := history), o, p, JobSubmitted,
                 Submitted(job.id, job.version, job.jobType));
    case UpdateJobStatus(id, status) =>
      if id in a.jobs && a.jobs[id].status != status {
        var jobs := a.jobs[id := a.jobs[id].(status := status, version := a.jobs[id].version + 1)];
        EmitAgrees(a.(jobs := jobs), b.(jobs := jobs), o, p, if status == JobDead then JobStopped else JobUpdated,
                   StatusChanged(id, a.jobs[id].status, status, a.jobs[id].version + 1));
      }
    case RollbackJob(id, version) =>
      var target := FindVersion(HistoryOf(a, id), version);
      if id in a.jobs && target.Some? {
        var jobs := a.jobs[id := Restore(a.jobs[id], target.value)];
        EmitAgrees(a.(jobs := jobs), b.(jobs := jobs), o, p, JobUpdated, RolledBackTo(id, version, jobs[id].version));
      }
  }

  lemma SourceAgrees(a: ClusterState, b: ClusterState, cmd: Command, o: Stamp, p: Stamp)
    requires Agree(a, b) && cmd.OnSource()
    ensures Agree(ApplySourceCommand(a, cmd, o).0, ApplySourceCommand(b, cmd, p).0)
    ensures SameResponse(ApplySourceCommand(a, cmd, o).1, ApplySourceCommand(b, cmd, p).1)
  {
    hide SameEvents;
    match cmd
    case PutSource(s) =>
      EmitAgrees(a, b, o, p, SourceCreated, SourceInfo(s.id, s.name, s.flakeRef));
    case UpdateSource(id, status, _, _, _) =>
      if id in a.sources {
        assert SameSource(a.sources[id], b.sources[id]);
        EmitAgrees(a, b, o, p, SourceKind(a.sources[id].status, status), SourceChanged(id, a.sources[id].name, status));
      }
    case DeleteSource(id) =>
      if id in a.sources {
        assert SameSource(a.sources[id], b.sources[id]);
        EmitAgrees(a, b, o, p, SourceReconciled, SourceDeleted(id, a.sources[id].name));
      }
  }

  lemma AllocationAgrees(a: ClusterState, b: ClusterState, cmd: Command, o: Stamp, p: Stamp)
    requires Agree(a, b) && cmd.OnAllocation()
    ensures Agree(ApplyAllocationCommand(a, cmd, o).0, ApplyAllocationCommand(b, cmd, p).0)
    ensures ApplyAllocationCommand(a, cmd, o).1 == ApplyAllocationCommand(b, cmd, p).1
  {
    hide SameEvents, SameSources, Emit, AllocationKind;
    match cmd
    case PutAllocation(x) =>
      EmitAgrees(a, b, o, p, AllocationPlaced, Placed(x.id, x.jobId, x.nodeId, x.groupName));
    case UpdateAllocation(id, state, taskStates) =>
      if id in a.allocations && a.allocations[id].state != state {
        var was := a.allocations[id];
        var allocations := a.allocations[id := was.(state := state, taskStates := taskStates)];
        EmitAgrees(a.(allocations := allocations), b.(allocations := allocations), o, p,
                   AllocationKind(state), StateChanged(id, was.jobId, was.state, state));
      }
  }

  lemma NodeAgrees(a: ClusterState, b: ClusterState, cmd: Command, o: Stamp, p: Stamp)
    requires Agree(a, b) && cmd.OnNode()
    ensures Agree(ApplyNodeCommand(a, cmd, o).0, ApplyNodeCommand(b, cmd, p).0)
    ensures ApplyNodeCommand(a, cmd, o).1 == ApplyNodeCommand(b, cmd, p).1
  {
    hide SameEvents, SameSources, Ring.Push;
    match cmd
    case RegisterNode(m) => EmitAgrees(a, b, o, p, NodeJoined, NodeInfo(m.nodeId, m.hostname));
    case RemoveNode(id) => EmitAgrees(a, b, o, p, NodeLeft, NodeGone(id));
    case DrainNode(id) =>
      if id in a.nodes {
        EmitAgrees(a, b, o, p, NodeDrained, NodeInfo(id, a.nodes[id].hostname));
      }
    case SetNodeEligibility(_, _) =>
  }

  /** One command keeps agreement, whatever each replica's clock and random ids are. */
  lemma StepAgrees(a: ClusterState, b: ClusterState, cmd: Command, o: Stamp, p: Stamp)
    requires Agree(a, b)
    ensures Agree(Apply(a, cmd, o).0, Apply(b, cmd, p).0)
    ensures SameResponse(Apply(a, cmd, o).1, Apply(b, cmd, p).1)
  {
    hide SameEvents, SameSources, ApplyJobCommand, ApplySourceCommand, ApplyNodeCommand, ApplyAllocationCommand,
         Ring.Push, Without;
    if cmd.OnJob() {
      JobAgrees(a, b, cmd, o, p);
    } else if cmd.OnSource() {
      SourceAgrees(a, b, cmd, o, p);
    } else if cmd.OnNode() {
      NodeAgrees(a, b, cmd, o, p);
    } else if cmd.OnAllocation() {
      AllocationAgrees(a, b, cmd, o, p);
    } else if cmd.EmitEvent? {
      PushAgrees(a.events, b.events, cmd.event, cmd.event);
    }
  }

  lemma {:induction false} EntriesAgree(a: Data, b: Data, es: seq<Entry>, os: seq<Stamp>, ps: seq<Stamp>)
    requires DataAgree(a, b) && |os| == |ps| == |es|
    ensures DataAgree(ApplyEntries(a, es, os).0, ApplyEntries(b, es, ps).0)
    ensures forall i :: 0 <= i < |es| ==> SameResponse(ApplyEntries(a, es, os).1[i], ApplyEntries(b, es, ps).1[i])
    decreases es
  {
    hide Agree, Apply, SameResponse;
    if es != [] {
      var n := |es| - 1;
      EntriesAgree(a, b, es[..n], os[..n], ps[..n]);
      var a', b' := ApplyEntries(a, es[..n], os[..n]).0, ApplyEntries(b, es[..n], ps[..n]).0;
      LastAgrees(a', b', es[n], os[n], ps[n]);
    }
  }

  lemma LastAgrees(a: Data, b: Data, e: Entry, o: Stamp, p: Stamp)
    requires DataAgree(a, b)
    ensures DataAgree(ApplyEntry(a, e, o).0, ApplyEntry(b, e, p).0)
    ensures SameResponse(ApplyEntry(a, e, o).1, ApplyEntry(b, e, p).1)
  {
    if e.payload.Normal? {
      hide Agree, Apply;
      StepAgrees(a.cluster, b.cluster, e.payload.cmd, o, p);
    }
  }

  lemma OneMoreEntry(d: Data, es: seq<Entry>, os: seq<Stamp>, e: Entry, o: Stamp)
    requires |os| == |es|
    ensures
      var (d1, rs) := ApplyEntries(d, es, os);
      ApplyEntries(d, es + [e], os + [o]) == (ApplyEntry(d1, e, o).0, rs + [ApplyEntry(d1, e, o).1])
  {
    hide ApplyEntry;
    assert (es + [e])[..|es|] == es && (os + [o])[..|es|] == os;
  }

  lemma {:induction false} EntriesConcat(d: Data, es: seq<Entry>, fs: seq<Entry>, os: seq<Stamp>, ps: seq<Stamp>)
    requires |os| == |es| && |ps| == |fs|
    ensures
      var (d1, rs) := ApplyEntries(d, es, os);
      ApplyEntries(d, es + fs, os + ps) == (ApplyEntries(d1, fs, ps).0, rs + ApplyEntries(d1, fs, ps).1)
    decreases fs
  {
    hide ApplyEntry;
    var (d1, rs) := ApplyEntries(d, es, os);
    if fs == [] {
      assert es + fs == es && os + ps == os && rs + [] == rs;
    } else {
      var n := |fs| - 1;
      EntriesConcat(d, es, fs[..n], os, ps[..n]);
      OneMoreEntry(d, es + fs[..n], os + ps[..n], fs[n], ps[n]);
      assert es + fs == (es + fs[..n]) + [fs[n]] && os + ps == (os + ps[..n]) + [ps[n]];
      var (d2, ts) := ApplyEntries(d1, fs[..n], ps[..n]);
      assert (rs + ts) + [ApplyEntry(d2, fs[n], ps[n]).1] == rs + (ts + [ApplyEntry(d2, fs[n], ps[n]).1]);
    }
  }

  /** Each entry is answered at its own place, in the state that the entries before it left. */
  lemma {:induction false} AnswersInOrder(d: Data, es: seq<Entry>, os: seq<Stamp>, i: nat)
    requires |os| == |es| && i < |es|
    ensures
      var was, now := ApplyEntries(d, es[..i], os[..i]).0, ApplyEntries(d, es[..i + 1], os[..i + 1]).0;
      if es[i].payload.Normal?
      then (now.cluster, ApplyEntries(d, es, os).1[i]) == Apply(was.cluster, es[i].payload.cmd, os[i])
      else now.cluster == was.cluster && ApplyEntries(d, es, os).1[i] == Done
    decreases es
  {
    hide Apply;
    var n := |es| - 1;
    if i < n {
      AnswersInOrder(d, es[..n], os[..n], i);
      assert es[..n][..i] == es[..i] && es[..n][..i + 1] == es[..i + 1];
      assert os[..n][..i] == os[..i] && os[..n][..i + 1] == os[..i + 1];
    } else {
      assert es[..i + 1] == es && os[..i + 1] == os;
    }
  }

  /** How a replica came to be: fresh, by applying a batch, or by installing a
      snapshot built by any other replica in place of all it had. */
  datatype Replica =
    | Fresh
    | Applied(before: Replica, batch: seq<Entry>, stamps: seq<Stamp>)
    | Installed(discarded: Replica, builder: Replica)
  {
    predicate Valid() {
      match this
      case Fresh => true
      case Applied(b, es, os) => b.Valid() && |es| == |os|
      case Installed(d, b) => d.Valid() && b.Valid()
    }

    function Contents(): Data
      requires Valid()
    {
      match this
      case Fresh => EMPTY_DATA
      case Applied(b, es, os) => ApplyEntries(b.Contents(), es, os).0
      case Installed(_, b) => InstallSnapshot(BuildSnapshot(b.Contents()))
    }

    /** The log prefix that the replica's state stands for. */
    function Log(): seq<Entry> {
      match this
      case Fresh => []
      case Applied(b, es, _) => b.Log() + es
      case Installed(_, b) => b.Log()
    }

    /** Some stamps for the whole log at once. */
    function Stamps(): (r: seq<Stamp>)
      requires Valid()
      ensures |r| == |Log()|
    {
      match this
      case Fresh => []
      case Applied(b, _, os) => b.Stamps() + os
      case Installed(_, b) => b.Stamps()
    }
  }

  /** Batching and snapshots are invisible: a replica is where it would be had it
      applied its whole log in one batch. */
  lemma {:induction false} ReplicaIsOneBatch(r: Replica)
    requires r.Valid()
    ensures r.Contents() == ApplyEntries(EMPTY_DATA, r.Log(), r.Stamps()).0
  {
    match r
    case Fresh =>
    case Applied(b, es, os) =>
      ReplicaIsOneBatch(b);
      EntriesConcat(EMPTY_DATA, b.Log(), es, b.Stamps(), os);
    case Installed(_, b) => ReplicaIsOneBatch(b);
  }

  /** Two replicas that stand for the same log agree, however each cut the log into
      batches, whatever clocks and ids each saw, and whatever snapshots each installed. */
  lemma ReplicasAgree(r: Replica, s: Replica)
    requires r.Valid() && s.Valid() && r.Log() == s.Log()
    ensures DataAgree(r.Contents(), s.Contents())
  {
    ReplicaIsOneBatch(r);
    ReplicaIsOneBatch(s);
    EntriesAgree(EMPTY_DATA, EMPTY_DATA, r.Log(), r.Stamps(), s.Stamps());
  }

  /** So do their answers to the next batch. */
  lemma ResponsesAgree(r: Replica, s: Replica, es: seq<Entry>, os: seq<Stamp>, ps: seq<Stamp>)
    requires r.Valid() && s.Valid() && r.Log() == s.Log() && |os| == |ps| == |es|
    ensures forall i :: 0 <= i < |es| ==>
              SameResponse(ApplyEntries(r.Contents(), es, os).1[i], ApplyEntries(s.Contents(), es, ps).1[i])
  {
    ReplicasAgree(r, s);
    EntriesAgree(r.Contents(), s.Contents(), es, os, ps);
  }

  // ---- what a replica stands for ----

  /** The commands of a log, without its blank and membership entries. */
  function Commands(es: seq<Entry>): seq<Command> {
    if es == [] then []
    else
      var n := |es| - 1;
      Commands(es[..n]) + if es[n].payload.Normal? then [es[n].payload.cmd] else []
  }

  lemma {:induction false} StampsMatter(cmds: seq<Command>, f: nat -> Stamp, g: nat -> Stamp)
    requires forall i: nat :: i < |cmds| ==> f(i) == g(i)
    ensures ApplyAll(EMPTY_STATE, cmds, f) == ApplyAll(EMPTY_STATE, cmds, g)
    decreases cmds
  {
    hide Apply;
    if cmds != [] {
      StampsMatter(cmds[..|cmds| - 1], f, g);
    }
  }

  /** One more entry, of whatever kind. */
  lemma OneMoreCommand(d: Data, cmds: seq<Command>, stamps: nat -> Stamp, e: Entry, o: Stamp)
    returns (stamps': nat -> Stamp)
    requires d.cluster == ApplyAll(EMPTY_STATE, cmds, stamps)
    ensures ApplyEntry(d, e, o).0.cluster ==
              ApplyAll(EMPTY_STATE, cmds + if e.payload.Normal? then [e.payload.cmd] else [], stamps')
  {
    hide Apply;
    stamps' := stamps;
    if e.payload.Normal? {
      stamps' := (i: nat) => if i == |cmds| then o else stamps(i);
      StampsMatter(cmds, stamps, stamps');
      assert (cmds + [e.payload.cmd])[..|cmds|] == cmds;
    } else {
      assert cmds + [] == cmds;
    }
  }

  /** The cluster state is that of the log's commands, whatever else the log holds. */
  lemma {:induction false} EntriesAreCommands(es: seq<Entry>, os: seq<Stamp>) returns (stamps: nat -> Stamp)
    requires |os| == |es|
    ensures ApplyEntries(EMPTY_DATA, es, os).0.cluster == ApplyAll(EMPTY_STATE, Commands(es), stamps)
    decreases es
  {
    hide ApplyEntry;
    if es == [] {
      stamps := (i: nat) => Stamp(0, 0, 0);
    } else {
      hide ApplyAll;
      var n := |es| - 1;
      stamps := EntriesAreCommands(es[..n], os[..n]);
      stamps := OneMoreCommand(ApplyEntries(EMPTY_DATA, es[..n], os[..n]).0, Commands(es[..n]), stamps, es[n], os[n]);
    }
  }

  /** The last entry is the last applied, and the last membership entry is in force. */
  ghost predicate Marked(d: Data, es: seq<Entry>) {
    && d.lastApplied == (if es == [] then None else Some(es[|es| - 1].logId))
    && (forall k :: LastMembership(es, k) ==>
          d.membership == StoredMembership(Some(es[k].logId), es[k].payload.config))
    && ((forall k :: 0 <= k < |es| ==> !es[k].payload.Membership?) ==> d.membership == StoredMembership(None, ""))
  }

  predicate LastMembership(es: seq<Entry>, k: int) {
    0 <= k < |es| && es[k].payload.Membership? && forall j :: k < j < |es| ==> !es[j].payload.Membership?
  }

  lemma MarkStep(d: Data, es: seq<Entry>, e: Entry, o: Stamp)
    requires Marked(d, es)
    ensures Marked(ApplyEntry(d, e, o).0, es + [e])
  {
    hide Apply;
    forall k | LastMembership(es + [e], k) && k < |es| ensures LastMembership(es, k) && !e.payload.Membership? {
      assert (es + [e])[|es|] == e;
      assert forall j :: k < j < |es| ==> (es + [e])[j] == es[j];
    }
    assert forall k :: 0 <= k < |es| ==> (es + [e])[k] == es[k];
  }

  lemma NothingMarked()
    ensures Marked(EMPTY_DATA, [])
  {}

  lemma {:induction false} EntriesMark(es: seq<Entry>, os: seq<Stamp>)
    requires |os| == |es|
    ensures Marked(ApplyEntries(EMPTY_DATA, es, os).0, es)
    decreases es
  {
    hide Apply, Marked, ApplyEntry;
    if es == [] {
      NothingMarked();
    } else {
      var n := |es| - 1;
      EntriesMark(es[..n], os[..n]);
      MarkStep(ApplyEntries(EMPTY_DATA, es[..n], os[..n]).0, es[..n], es[n], os[n]);
      assert es[..n] + [es[n]] == es;
    }
  }

  /** So a replica, however it came to be, holds the state of its log's commands. */
  lemma ReplicaStandsForLog(r: Replica) returns (stamps: nat -> Stamp)
    requires r.Valid()
    ensures r.Contents().cluster == ApplyAll(EMPTY_STATE, Commands(r.Log()), stamps)
    ensures Marked(r.Contents(), r.Log())
  {
    ReplicaIsOneBatch(r);
    EntriesMark(r.Log(), r.Stamps());
    stamps := EntriesAreCommands(r.Log(), r.Stamps());
  }
}

/** The replicated cluster state and the effect of one command on it
    (src/cluster/types.rs, src/cluster/raft_sm.rs). */
module Cluster {
  import opened Common
  import opened Domain
  import opened EventRing

  datatype EventKind =
    | JobSubmitted | JobUpdated | JobStopped
    | AllocationPlaced | AllocationStarted | AllocationFailed | AllocationCompleted
    | NodeJoined | NodeLeft | NodeDrained
    | SourceCreated | SourceReconciled | SourceFailedEvent | SourceSuspended | SourceResumed
    | OtherKind(name: string)

  /** The JSON payload of an event, one constructor per shape. */
  datatype Payload =
    | Submitted(jobId: string, version: nat, jobType: JobType)
    | StatusChanged(jobId: string, oldStatus: JobStatus, newStatus: JobStatus, version: nat)
    | Placed(allocId: Uuid, jobId: string, nodeId: string, group: string)
    | StateChanged(allocId: Uuid, jobId: string, oldState: AllocationState, newState: AllocationState)
    | NodeInfo(node: nat, hostname: string)
    | NodeGone(node: nat)
    | RolledBackTo(jobId: string, target: nat, newVersion: nat)
    | SourceInfo(sourceId: Uuid, name: string, flakeRef: string)
    | SourceChanged(sourceId: Uuid, name: string, status: SourceStatus)
    | SourceDeleted(sourceId: Uuid, name: string)
    | Custom(json: string)
    | Brief(jobId: string, subject: Option<Uuid>, number: nat)

  datatype Event = Event(id: Uuid, timestamp: Time, kind: EventKind, payload: Payload)

  datatype JobVersionEntry = JobVersionEntry(version: nat, spec: JobSpec, status: JobStatus, submittedAt: Time)

  datatype ClusterState = ClusterState(
    jobs: map<string, Job>,
    allocations: map<Uuid, Allocation>,
    nodes: map<nat, NodeMeta>,
    dataIndex: map<string, seq<nat>>,
    events: Ring<Event>,
    jobHistory: map<string, seq<JobVersionEntry>>,
    releases: map<Uuid, Release>,
    sources: map<Uuid, Source>)

  const DEFAULT_RING_CAPACITY: nat := 10_000

  const EMPTY_STATE := ClusterState(map[], map[], map[], map[], Ring([], DEFAULT_RING_CAPACITY), map[], map[], map[])

  datatype Command =
    | PutJob(job: Job)
    | UpdateJobStatus(jobId: string, status: JobStatus)
    | PutAllocation(alloc: Allocation)
    | UpdateAllocation(allocId: Uuid, state: AllocationState, taskStates: map<string, TaskState>)
    | RegisterNode(meta: NodeMeta)
    | RemoveNode(nodeId: nat)
    | AdvertiseChunk(hash: string, nodeId: nat)
    | RemoveChunkAdvertisement(hash: string, nodeId: nat)
    | EmitEvent(event: Event)
    | RollbackJob(jobId: string, version: nat)
    | PutRelease(release: Release)
    | UpdateReleaseStatus(releaseId: Uuid, releaseStatus: ReleaseStatus)
    | DrainNode(nodeId: nat)
    | SetNodeEligibility(nodeId: nat, eligible: bool)
    | PutSource(source: Source)
    | UpdateSource(sourceId: Uuid, sourceStatus: SourceStatus, lastRev: Option<string>,
                   lastError: Option<string>, managedJobs: Option<map<string, string>>)
    | DeleteSource(sourceId: Uuid)
  {
    predicate OnJob() { PutJob? || UpdateJobStatus? || RollbackJob? }
    predicate OnSource() { PutSource? || UpdateSource? || DeleteSource? }
    predicate OnNode() { RegisterNode? || RemoveNode? || DrainNode? || SetNodeEligibility? }
    predicate OnAllocation() { PutAllocation? || UpdateAllocation? }
  }

  datatype ErrorReason =
    | JobNotFound(jobId: string)
    | VersionNotFound(version: nat, jobId: string)
    | AllocationNotFound(allocId: Uuid)
    | ReleaseNotFound(releaseId: Uuid)
    | NodeNotFound(nodeId: nat)
    | SourceNotFound(sourceId: Uuid)

  datatype Response =
    | Done
    | JobResponse(job: Job)
    | AllocationResponse(alloc: Allocation)
    | ReleaseResponse(release: Release)
    | SourceResponse(source: Source)
    | ErrorResponse(reason: ErrorReason)

  /** What one replica reads from its surroundings while it applies one command: the
      random event id, the event's time and the time of reconciliation. */
  datatype Stamp = Stamp(eventId: Uuid, eventTime: Time, reconcileTime: Time)

  // ---- pieces of apply_command ----

  function SpecOf(job: Job): JobSpec {
    JobSpec(job.id, job.jobType, job.groups, job.constraints, job.meta)
  }

  function EntryOf(job: Job): JobVersionEntry {
    JobVersionEntry(job.version, SpecOf(job), job.status, job.submittedAt)
  }

  function HistoryOf(cs: ClusterState, id: string): seq<JobVersionEntry> {
    if id in cs.jobHistory then cs.jobHistory[id] else []
  }

  /** `find` returns the earliest entry of that version. */
  function FindVersion(h: seq<JobVersionEntry>, version: nat): (r: Option<JobVersionEntry>)
    ensures r.None? ==> forall i :: 0 <= i < |h| ==> h[i].version != version
    ensures r.Some? ==> exists i :: (0 <= i < |h| && r.value == h[i] && h[i].version == version
                                     && forall j :: 0 <= j < i ==> h[j].version != version)
  {
    if h == [] then None
    else if h[0].version == version then Some(h[0])
    else FindVersion(h[1..], version)
  }

  function Restore(job: Job, entry: JobVersionEntry): Job {
    job.(groups := entry.spec.groups, constraints := entry.spec.constraints, meta := entry.spec.meta,
         version := job.version + 1, status := JobPending)
  }

  function Emit(cs: ClusterState, o: Stamp, kind: EventKind, payload: Payload): (r: ClusterState)
    ensures && r.jobs == cs.jobs && r.allocations == cs.allocations && r.nodes == cs.nodes
            && r.dataIndex == cs.dataIndex && r.jobHistory == cs.jobHistory
            && r.releases == cs.releases && r.sources == cs.sources
  {
    cs.(events := cs.events.Push(Event(o.eventId, o.eventTime, kind, payload)))
  }

  function AllocationKind(s: AllocationState): EventKind {
    match s
    case Running => AllocationStarted
    case Failed => AllocationFailed
    case Complete => AllocationCompleted
    case _ => AllocationPlaced
  }

  function SourceKind(was: SourceStatus, now: SourceStatus): EventKind {
    if now == SourceReady then SourceReconciled
    else if now == SourceFailed then SourceFailedEvent
    else if now == Suspended && was != Suspended then SourceSuspended
    else if now == SourcePending && was == Suspended then SourceResumed
    else SourceReconciled
  }

  function Without(holders: seq<nat>, id: nat): seq<nat> {
    if holders == [] then []
    else if holders[0] == id then Without(holders[1..], id)
    else [holders[0]] + Without(holders[1..], id)
  }

  function Updated(s: Source, cmd: Command, now: Time): Source
    requires cmd.UpdateSource?
  {
    s.(status := cmd.sourceStatus,
       lastRev := if cmd.lastRev.Some? then cmd.lastRev else s.lastRev,
       lastError := cmd.lastError,
       managedJobs := if cmd.managedJobs.Some? then cmd.managedJobs.value else s.managedJobs,
       lastReconciledAt := Some(now))
  }

  // ---- the arms ----

  function ApplyJobCommand(cs: ClusterState, cmd: Command, o: Stamp): (ClusterState, Response)
    requires cmd.OnJob()
  {
    match cmd
    case PutJob(job) =>
      var cs' := cs.(jobHistory := cs.jobHistory[job.id := HistoryOf(cs, job.id) + [EntryOf(job)]]);
      var cs'' := Emit(cs', o, JobSubmitted, Submitted(job.id, job.version, job.jobType));
      (cs''.(jobs := cs.jobs[job.id := job]), JobResponse(job))
    case UpdateJobStatus(id, status) =>
      if id !in cs.jobs then (cs, ErrorResponse(JobNotFound(id)))
      else
        var was := cs.jobs[id].status;
        if was == status then (cs, JobResponse(cs.jobs[id]))
        else
          var job := cs.jobs[id].(status := status, version := cs.jobs[id].version + 1);
          var kind := if status == JobDead then JobStopped else JobUpdated;
          (Emit(cs.(jobs := cs.jobs[id := job]), o, kind, StatusChanged(id, was, status, job.version)),
           JobResponse(job))
    case RollbackJob(id, version) =>
      var target := FindVersion(HistoryOf(cs, id), version);
      if target.None? then (cs, ErrorResponse(VersionNotFound(version, id)))
      else if id !in cs.jobs then (cs, ErrorResponse(JobNotFound(id)))
      else
        var job := Restore(cs.jobs[id], target.value);
        (Emit(cs.(jobs := cs.jobs[id := job]), o, JobUpdated, RolledBackTo(id, version, job.version)), JobResponse(job))
  }

  function ApplySourceCommand(cs: ClusterState, cmd: Command, o: Stamp): (ClusterState, Response)
    requires cmd.OnSource()
  {
    match cmd
    case PutSource(s) =>
      (Emit(cs, o, SourceCreated, SourceInfo(s.id, s.name, s.flakeRef)).(sources := cs.sources[s.id := s]),
       SourceResponse(s))
    case UpdateSource(id, status, _, _, _) =>
      if id !in cs.sources then (cs, ErrorResponse(SourceNotFound(id)))
      else
        var s := Updated(cs.sources[id], cmd, o.reconcileTime);
        (Emit(cs.(sources := cs.sources[id := s]), o, SourceKind(cs.sources[id].status, status),
              SourceChanged(id, s.name, status)),
         SourceResponse(s))
    case DeleteSource(id) =>
      if id !in cs.sources then (cs, ErrorResponse(SourceNotFound(id)))
      else
        (Emit(cs.(sources := cs.sources - {id}), o, SourceReconciled, SourceDeleted(id, cs.sources[id].name)), Done)
  }

  function ApplyAllocationCommand(cs: ClusterState, cmd: Command, o: Stamp): (ClusterState, Response)
    requires cmd.OnAllocation()
  {
    match cmd
    case PutAllocation(a) =>
      (Emit(cs, o, AllocationPlaced,
            Placed(a.id, a.jobId, a.nodeId, a.groupName)).(allocations := cs.allocations[a.id := a]),
       AllocationResponse(a))
    case UpdateAllocation(id, state, taskStates) =>
      if id !in cs.allocations then (cs, ErrorResponse(AllocationNotFound(id)))
      else
        var was := cs.allocations[id].state;
        var a := cs.allocations[id].(state := state, taskStates := taskStates);
        var cs' := cs.(allocations := cs.allocations[id := a]);
        (if was == state then cs' else Emit(cs', o, AllocationKind(state), StateChanged(id, a.jobId, was, state)),
         AllocationResponse(a))
  }

  function ApplyNodeCommand(cs: ClusterState, cmd: Command, o: Stamp): (ClusterState, Response)
    requires cmd.OnNode()
  {
    match cmd
    case RegisterNode(m) =>
      (Emit(cs, o, NodeJoined, NodeInfo(m.nodeId, m.hostname)).(nodes := cs.nodes[m.nodeId := m]), Done)
    case RemoveNode(id) =>
      (Emit(cs, o, NodeLeft, NodeGone(id)).(nodes := cs.nodes - {id}), Done)
    case DrainNode(id) =>
      if id !in cs.nodes then (cs, ErrorResponse(NodeNotFound(id)))
      else
        (Emit(cs.(nodes := cs.nodes[id := cs.nodes[id].(eligible := false)]), o, NodeDrained,
              NodeInfo(id, cs.nodes[id].hostname)), Done)
    case SetNodeEligibility(id, eligible) =>
      if id !in cs.nodes then (cs, ErrorResponse(NodeNotFound(id)))
      else (cs.(nodes := cs.nodes[id := cs.nodes[id].(eligible := eligible)]), Done)
  }

  /** The commands that read neither clock nor ids. */
  function ApplyPlainCommand(cs: ClusterState, cmd: Command): (ClusterState, Response)
    requires !cmd.OnJob() && !cmd.OnSource() && !cmd.OnNode() && !cmd.OnAllocation()
  {
    match cmd
    case AdvertiseChunk(hash, id) =>
      var holders := if hash in cs.dataIndex then cs.dataIndex[hash] else [];
      (cs.(dataIndex := cs.dataIndex[hash := holders + [id]]), Done)
    case RemoveChunkAdvertisement(hash, id) =>
      if hash !in cs.dataIndex then (cs, Done)
      else
        var left := Without(cs.dataIndex[hash], id);
        (cs.(dataIndex := if left == [] then cs.dataIndex - {hash} else cs.dataIndex[hash := left]), Done)
    case EmitEvent(e) => (cs.(events := cs.events.Push(e)), Done)
    case PutRelease(r) => (cs.(releases := cs.releases[r.id := r]), ReleaseResponse(r))
    case UpdateReleaseStatus(id, status) =>
      if id !in cs.releases then (cs, ErrorResponse(ReleaseNotFound(id)))
      else
        var r := cs.releases[id].(status := status);
        (cs.(releases := cs.releases[id := r]), ReleaseResponse(r))
  }

  /** `apply_command`. */
  function Apply(cs: ClusterState, cmd: Command, o: Stamp): (ClusterState, Response) {
    if cmd.OnJob() then ApplyJobCommand(cs, cmd, o)
    else if cmd.OnSource() then ApplySourceCommand(cs, cmd, o)
    else if cmd.OnNode() then ApplyNodeCommand(cs, cmd, o)
    else if cmd.OnAllocation() then ApplyAllocationCommand(cs, cmd, o)
    else ApplyPlainCommand(cs, cmd)
  }

  /** A command log from a given state; `stamps` supplies one stamp per command. */
  function ApplyAll(cs: ClusterState, cmds: seq<Command>, stamps: nat -> Stamp): ClusterState
    decreases cmds
  {
    if cmds == [] then cs
    else Apply(ApplyAll(cs, cmds[..|cmds| - 1], stamps), cmds[|cmds| - 1], stamps(|cmds| - 1)).0
  }
}

/** The in-memory store used in place of Raft in tests (src/testing/store.rs), and how
    far it simulates the Raft state machine. */
module InMemoryStore {
  import opened Common
  import opened Domain
  import opened EventRing
  import opened Cluster
  import opened JobHistory

  predicate Supported(cmd: Command) {
    cmd.OnJob() || cmd.OnAllocation() || cmd.EmitEvent? || cmd.PutRelease? || cmd.UpdateReleaseStatus?
    || cmd.RegisterNode? || cmd.DrainNode? || cmd.SetNodeEligibility?
  }

  // ---- the effect of the write methods, named by the command each mirrors ----

  /** A status write always bumps the version and emits. */
  function MemJobCommand(cs: ClusterState, cmd: Command, o: Stamp): (ClusterState, Response)
    requires cmd.OnJob()
  {
    match cmd
    case PutJob(job) =>
      var cs' := cs.(jobHistory := cs.jobHistory[job.id := HistoryOf(cs, job.id) + [EntryOf(job)]]);
      (Emit(cs', o, JobSubmitted, Brief(job.id, None, job.version)).(jobs := cs.jobs[job.id := job]), JobResponse(job))
    case UpdateJobStatus(id, status) =>
      if id !in cs.jobs then (cs, ErrorResponse(JobNotFound(id)))
      else
        var job := cs.jobs[id].(status := status, version := cs.jobs[id].version + 1);
        (Emit(cs.(jobs := cs.jobs[id := job]), o, if status == JobDead then JobStopped
              else JobUpdated, Brief(id, None, 0)),
         JobResponse(job))
    case RollbackJob(id, version) =>
      if id !in cs.jobHistory then (cs, ErrorResponse(JobNotFound(id)))
      else
        var target := FindVersion(cs.jobHistory[id], version);
        if target.None? then (cs, ErrorResponse(VersionNotFound(version, id)))
        else if id !in cs.jobs then (cs, ErrorResponse(JobNotFound(id)))
        else
          var job := Restore(cs.jobs[id], target.value);
          (Emit(cs.(jobs := cs.jobs[id := job]), o, JobUpdated, Brief(id, None, version)), JobResponse(job))
  }

  /** An allocation write always emits. */
  function MemAllocationCommand(cs: ClusterState, cmd: Command, o: Stamp): (ClusterState, Response)
    requires cmd.OnAllocation()
  {
    match cmd
    case PutAllocation(a) =>
      (Emit(cs, o, AllocationPlaced, Brief(a.jobId, Some(a.id), 0)).(allocations := cs.allocations[a.id := a]),
       AllocationResponse(a))
    case UpdateAllocation(id, state, taskStates) =>
      if id !in cs.allocations then (cs, ErrorResponse(AllocationNotFound(id)))
      else
        var a := cs.allocations[id].(state := state, taskStates := taskStates);
        (Emit(cs.(allocations := cs.allocations[id := a]), o, AllocationKind(state), Brief("", Some(id), 0)),
         AllocationResponse(a))
  }

  function MemNodeCommand(cs: ClusterState, cmd: Command, o: Stamp): (ClusterState, Response)
    requires cmd.RegisterNode? || cmd.DrainNode? || cmd.SetNodeEligibility?
  {
    match cmd
    case RegisterNode(m) =>
      (Emit(cs, o, NodeJoined, NodeInfo(m.nodeId, m.hostname)).(nodes := cs.nodes[m.nodeId := m]), Done)
    case DrainNode(id) =>
      if id !in cs.nodes then (cs, ErrorResponse(NodeNotFound(id)))
      else (Emit(cs.(nodes := cs.nodes[id := cs.nodes[id].(eligible := false)]), o, NodeDrained, NodeGone(id)), Done)
    case SetNodeEligibility(id, eligible) =>
      if id !in cs.nodes then (cs, ErrorResponse(NodeNotFound(id)))
      else (cs.(nodes := cs.nodes[id := cs.nodes[id].(eligible := eligible)]), Done)
  }

  /** Events and releases are written as in the Raft state machine. */
  function MemApply(cs: ClusterState, cmd: Command, o: Stamp): (ClusterState, Response)
    requires Supported(cmd)
  {
    if cmd.OnJob() then MemJobCommand(cs, cmd, o)
    else if cmd.OnAllocation() then MemAllocationCommand(cs, cmd, o)
    else if cmd.OnNode() then MemNodeCommand(cs, cmd, o)
    else ApplyPlainCommand(cs, cmd)
  }

  class Store {
    var state: ClusterState

    constructor ()
      ensures state == EMPTY_STATE
    {
      state := EMPTY_STATE;
    }

    method PushEvent(o: Stamp, kind: EventKind, payload: Payload)
      modifies this
      ensures state == Emit(old(state), o, kind, payload)
    {
      state := state.(events := state.events.Push(Event(o.eventId, o.eventTime, kind, payload)));
    }

    method PutJob(job: Job, o: Stamp) returns (r: Response)
      modifies this
      ensures (state, r) == MemApply(old(state), Command.PutJob(job), o)
    {
      var history := if job.id in state.jobHistory then state.jobHistory[job.id] else [];
      state := state.(jobHistory := state.jobHistory[job.id := history + [EntryOf(job)]]);
      PushEvent(o, JobSubmitted, Brief(job.id, None, job.version));
      state := state.(jobs := state.jobs[job.id := job]);
      r := JobResponse(job);
    }

    method UpdateJobStatus(id: string, status: JobStatus, o: Stamp) returns (r: Response)
      modifies this
      ensures (state, r) == MemApply(old(state), Command.UpdateJobStatus(id, status), o)
    {
      if id !in state.jobs {
        return ErrorResponse(JobNotFound(id));
      }
      var job := state.jobs[id];
      job := job.(status := status);
      job := job.(version := job.version + 1);
      state := state.(jobs := state.jobs[id := job]);
      PushEvent(o, if status == JobDead then JobStopped else JobUpdated, Brief(id, None, 0));
      r := JobResponse(job);
    }

    method RollbackJob(id: string, version: nat, o: Stamp) returns (r: Response)
      modifies this
      ensures (state, r) == MemApply(old(state), Command.RollbackJob(id, version), o)
    {
      if id !in state.jobHistory {
        return ErrorResponse(JobNotFound(id));
      }
      var entry := FindVersion(state.jobHistory[id], version);
      if entry.None? {
        return ErrorResponse(VersionNotFound(version, id));
      }
      if id !in state.jobs {
        return ErrorResponse(JobNotFound(id));
      }
      var job := Restore(state.jobs[id], entry.value);
      state := state.(jobs := state.jobs[id := job]);
      PushEvent(o, JobUpdated, Brief(id, None, version));
      r := JobResponse(job);
    }

    method UpdateAllocationState(id: Uuid, newState: AllocationState, taskStates: map<string, TaskState>, o: Stamp)
      returns (r: Response)
      modifies this
      ensures (state, r) == MemApply(old(state), UpdateAllocation(id, newState, taskStates), o)
    {
      if id !in state.allocations {
        return ErrorResponse(AllocationNotFound(id));
      }
      var a := state.allocations[id];
      a := a.(state := newState);
      a := a.(taskStates := taskStates);
      state := state.(allocations := state.allocations[id := a]);
      PushEvent(o, AllocationKind(newState), Brief("", Some(id), 0));
      r := AllocationResponse(a);
    }

    method PutAllocation(alloc: Allocation, o: Stamp) returns (r: Response)
      modifies this
      ensures (state, r) == MemApply(old(state), Command.PutAllocation(alloc), o)
    {
      PushEvent(o, AllocationPlaced, Brief(alloc.jobId, Some(alloc.id), 0));
      state := state.(allocations := state.allocations[alloc.id := alloc]);
      r := AllocationResponse(alloc);
    }

    method RegisterNode(m: NodeMeta, o: Stamp) returns (r: Response)
      modifies this
      ensures (state, r) == MemApply(old(state), Command.RegisterNode(m), o)
    {
      PushEvent(o, NodeJoined, NodeInfo(m.nodeId, m.hostname));
      state := state.(nodes := state.nodes[m.nodeId := m]);
      r := Done;
    }

    method EmitEvent(e: Event, o: Stamp) returns (r: Response)
      modifies this
      ensures (state, r) == MemApply(old(state), Command.EmitEvent(e), o)
    {
      state := state.(events := state.events.Push(e));
      r := Done;
    }

    method PutRelease(release: Release, o: Stamp) returns (r: Response)
      modifies this
      ensures (state, r) == MemApply(old(state), Command.PutRelease(release), o)
    {
      state := state.(releases := state.releases[release.id := release]);
      r := ReleaseResponse(release);
    }

    method UpdateReleaseStatus(id: Uuid, status: ReleaseStatus, o: Stamp) returns (r: Response)
      modifies this
      ensures (state, r) == MemApply(old(state), Command.UpdateReleaseStatus(id, status), o)
    {
      if id !in state.releases {
        return ErrorResponse(ReleaseNotFound(id));
      }
      var release := state.releases[id].(status := status);
      state := state.(releases := state.releases[id := release]);
      r := ReleaseResponse(release);
    }

    method DrainNode(id: nat, o: Stamp) returns (r: Response)
      modifies this
      ensures (state, r) == MemApply(old(state), Command.DrainNode(id), o)
    {
      if id !in state.nodes {
        return ErrorResponse(NodeNotFound(id));
      }
      state := state.(nodes := state.nodes[id := state.nodes[id].(eligible := false)]);
      PushEvent(o, NodeDrained, NodeGone(id));
      r := Done;
    }

    method SetNodeEligibility(id: nat, eligible: bool, o: Stamp) returns (r: Response)
      modifies this
      ensures (state, r) == MemApply(old(state), Command.SetNodeEligibility(id, eligible), o)
    {
      if id !in state.nodes {
        return ErrorResponse(NodeNotFound(id));
      }
      state := state.(nodes := state.nodes[id := state.nodes[id].(eligible := eligible)]);
      r := Done;
    }
  }

  // ---- simulation ----

  function MemAll(log: seq<Command>, stamps: nat -> Stamp): ClusterState
    requires forall cmd :: cmd in log ==> Supported(cmd)
    decreases log
  {
    if log == [] then EMPTY_STATE
    else MemApply(MemAll(log[..|log| - 1], stamps), log[|log| - 1], stamps(|log| - 1)).0
  }

  /** Status writes since the last submission that repeat the status the job has. */
  function Repeats(log: seq<Command>, id: string): nat {
    if log == [] then 0
    else
      var init, cmd := log[..|log| - 1], log[|log| - 1];
      if cmd.PutJob? && cmd.job.id == id then 0
      else if cmd.UpdateJobStatus? && cmd.jobId == id && StatusOf(init, id) == Some(cmd.status)
          then Repeats(init, id) + 1
      else Repeats(init, id)
  }

  ghost predicate SameJob(m: Job, r: Job, extra: nat) {
    m == r.(version := r.version + extra)
  }

  ghost predicate SameButVersions(mem: ClusterState, raft: ClusterState) {
    && mem.jobHistory == raft.jobHistory && mem.allocations == raft.allocations
    && mem.nodes == raft.nodes && mem.releases == raft.releases && mem.jobs.Keys == raft.jobs.Keys
  }

  ghost predicate Simulates(mem: ClusterState, raft: ClusterState, log: seq<Command>) {
    && SameButVersions(mem, raft)
    && forall id :: id in raft.jobs ==> SameJob(mem.jobs[id], raft.jobs[id], Repeats(log, id))
  }

  /** Both refuse, or both answer the same up to a job's version. */
  ghost predicate SameAnswer(m: Response, r: Response) {
    || (m.ErrorResponse? && r.ErrorResponse?)
    || (m.JobResponse? && r.JobResponse? && m.job.version >= r.job.version && m.job.(version := r.job.version) == r.job)
    || m == r
  }

  lemma RepeatsStep(log: seq<Command>, cmd: Command, id: string)
    ensures Repeats(log + [cmd], id) ==
              if cmd.PutJob? && cmd.job.id == id then 0
              else if cmd.UpdateJobStatus? && cmd.jobId == id && StatusOf(log, id) == Some(cmd.status)
                  then Repeats(log, id) + 1
              else Repeats(log, id)
  {
    assert (log + [cmd])[..|log|] == log;
  }

  lemma SubmitSimulates(mem: ClusterState, raft: ClusterState, log: seq<Command>, cmd: Command, o: Stamp, p: Stamp)
    requires Simulates(mem, raft, log) && cmd.PutJob?
    ensures Simulates(MemApply(mem, cmd, o).0, Apply(raft, cmd, p).0, log + [cmd])
    ensures SameAnswer(MemApply(mem, cmd, o).1, Apply(raft, cmd, p).1)
  {
    hide Emit, FindVersion, EntryOf, Repeats, StatusOf;
    var mem', raft' := MemApply(mem, cmd, o).0, Apply(raft, cmd, p).0;
    forall id | id in raft'.jobs ensures SameJob(mem'.jobs[id], raft'.jobs[id], Repeats(log + [cmd], id)) {
      RepeatsStep(log, cmd, id);
    }
  }

  lemma SameJobAnswer(m: Job, r: Job, extra: nat)
    requires SameJob(m, r, extra)
    ensures SameAnswer(JobResponse(m), JobResponse(r))
  {}

  lemma StatusSame(m: Job, r: Job, status: JobStatus, extra: nat)
    requires SameJob(m, r, extra)
    ensures
      var m' := m.(status := status, version := m.version + 1);
      if r.status == status then SameJob(m', r, extra + 1)
      else SameJob(m', r.(status := status, version := r.version + 1), extra)
  {}

  lemma StatusSimulates(mem: ClusterState, raft: ClusterState, log: seq<Command>, cmd: Command, o: Stamp, p: Stamp)
    requires Simulates(mem, raft, log) && cmd.UpdateJobStatus?
    requires StatusOf(log, cmd.jobId) == (if cmd.jobId in raft.jobs then Some(raft.jobs[cmd.jobId].status) else None)
    ensures Simulates(MemApply(mem, cmd, o).0, Apply(raft, cmd, p).0, log + [cmd])
    ensures SameAnswer(MemApply(mem, cmd, o).1, Apply(raft, cmd, p).1)
  {
    hide Emit, Repeats, StatusOf, SameJob;
    var x := cmd.jobId;
    forall id | id in raft.jobs
      ensures Repeats(log + [cmd], id) ==
                if x == id && raft.jobs[id].status == cmd.status then Repeats(log, id) + 1 else Repeats(log, id)
    {
      RepeatsStep(log, cmd, id);
    }
    if x in raft.jobs {
      assert SameJob(mem.jobs[x], raft.jobs[x], Repeats(log, x));
      StatusSame(mem.jobs[x], raft.jobs[x], cmd.status, Repeats(log, x));
      SameJobAnswer(MemApply(mem, cmd, o).1.job, Apply(raft, cmd, p).1.job, Repeats(log + [cmd], x));
    }
  }

  lemma RestoreSame(m: Job, r: Job, entry: JobVersionEntry, extra: nat)
    requires SameJob(m, r, extra)
    ensures SameJob(Restore(m, entry), Restore(r, entry), extra)
  {}

  lemma RollbackSimulates(mem: ClusterState, raft: ClusterState, log: seq<Command>, cmd: Command, o: Stamp, p: Stamp)
    requires Simulates(mem, raft, log) && cmd.RollbackJob?
    requires cmd.jobId in raft.jobs <==> cmd.jobId in raft.jobHistory
    ensures Simulates(MemApply(mem, cmd, o).0, Apply(raft, cmd, p).0, log + [cmd])
    ensures SameAnswer(MemApply(mem, cmd, o).1, Apply(raft, cmd, p).1)
  {
    hide Emit, FindVersion, EntryOf, Repeats, StatusOf, Restore, SameJob;
    FindEmpty(cmd.version);
    var x := cmd.jobId;
    forall id | id in raft.jobs ensures Repeats(log + [cmd], id) == Repeats(log, id) {
      RepeatsStep(log, cmd, id);
    }
    if x in raft.jobs {
      assert SameJob(mem.jobs[x], raft.jobs[x], Repeats(log, x));
      var target := FindVersion(HistoryOf(raft, x), cmd.version);
      if target.Some? {
        RestoreSame(mem.jobs[x], raft.jobs[x], target.value, Repeats(log, x));
        SameJobAnswer(Restore(mem.jobs[x], target.value), Restore(raft.jobs[x], target.value), Repeats(log, x));
      }
    }
  }

  lemma NodesSame(mem: ClusterState, raft: ClusterState, cmd: Command, o: Stamp, p: Stamp)
    requires SameButVersions(mem, raft) && Supported(cmd) && cmd.OnNode()
    ensures SameButVersions(MemNodeCommand(mem, cmd, o).0, ApplyNodeCommand(raft, cmd, p).0)
    ensures MemNodeCommand(mem, cmd, o).0.jobs == mem.jobs && ApplyNodeCommand(raft, cmd, p).0.jobs == raft.jobs
    ensures SameAnswer(MemNodeCommand(mem, cmd, o).1, ApplyNodeCommand(raft, cmd, p).1)
  {
    hide Emit;
  }

  lemma AllocationsSame(mem: ClusterState, raft: ClusterState, cmd: Command, o: Stamp, p: Stamp)
    requires SameButVersions(mem, raft) && cmd.OnAllocation()
    ensures SameButVersions(MemAllocationCommand(mem, cmd, o).0, ApplyAllocationCommand(raft, cmd, p).0)
    ensures MemAllocationCommand(mem, cmd, o).0.jobs == mem.jobs
            && ApplyAllocationCommand(raft, cmd, p).0.jobs == raft.jobs
    ensures SameAnswer(MemAllocationCommand(mem, cmd, o).1, ApplyAllocationCommand(raft, cmd, p).1)
  {
    hide Emit, AllocationKind;
  }

  lemma PlainSame(mem: ClusterState, raft: ClusterState, cmd: Command)
    requires SameButVersions(mem, raft) && (cmd.EmitEvent? || cmd.PutRelease? || cmd.UpdateReleaseStatus?)
    ensures SameButVersions(ApplyPlainCommand(mem, cmd).0, ApplyPlainCommand(raft, cmd).0)
    ensures ApplyPlainCommand(mem, cmd).0.jobs == mem.jobs && ApplyPlainCommand(raft, cmd).0.jobs == raft.jobs
    ensures SameAnswer(ApplyPlainCommand(mem, cmd).1, ApplyPlainCommand(raft, cmd).1)
  {}

  lemma OthersSame(mem: ClusterState, raft: ClusterState, cmd: Command, o: Stamp, p: Stamp)
    requires SameButVersions(mem, raft) && Supported(cmd) && !cmd.OnJob()
    ensures SameButVersions(MemApply(mem, cmd, o).0, Apply(raft, cmd, p).0)
    ensures MemApply(mem, cmd, o).0.jobs == mem.jobs && Apply(raft, cmd, p).0.jobs == raft.jobs
    ensures SameAnswer(MemApply(mem, cmd, o).1, Apply(raft, cmd, p).1)
  {
    hide MemNodeCommand, MemAllocationCommand, ApplyNodeCommand, ApplyAllocationCommand, ApplyPlainCommand;
    hide SameButVersions, SameAnswer;
    if cmd.OnNode() {
      NodesSame(mem, raft, cmd, o, p);
    } else if cmd.OnAllocation() {
      AllocationsSame(mem, raft, cmd, o, p);
    } else {
      PlainSame(mem, raft, cmd);
    }
  }

  lemma OtherSimulates(mem: ClusterState, raft: ClusterState, log: seq<Command>, cmd: Command, o: Stamp, p: Stamp)
    requires Simulates(mem, raft, log) && Supported(cmd) && !cmd.OnJob()
    ensures Simulates(MemApply(mem, cmd, o).0, Apply(raft, cmd, p).0, log + [cmd])
    ensures SameAnswer(MemApply(mem, cmd, o).1, Apply(raft, cmd, p).1)
  {
    hide MemApply, Apply, Repeats, SameAnswer;
    OthersSame(mem, raft, cmd, o, p);
    forall id | id in raft.jobs ensures SameJob(mem.jobs[id], raft.jobs[id], Repeats(log + [cmd], id)) {
      RepeatsStep(log, cmd, id);
    }
  }

  lemma StepSimulates(mem: ClusterState, raft: ClusterState, log: seq<Command>, cmd: Command, o: Stamp, p: Stamp)
    requires Supported(cmd) && Simulates(mem, raft, log)
    requires forall id :: Remembers(raft, log, id)
    ensures Simulates(MemApply(mem, cmd, o).0, Apply(raft, cmd, p).0, log + [cmd])
    ensures SameAnswer(MemApply(mem, cmd, o).1, Apply(raft, cmd, p).1)
  {
    hide MemApply, Apply, Simulates, SameAnswer;
    match cmd
    case PutJob(_) => SubmitSimulates(mem, raft, log, cmd, o, p);
    case UpdateJobStatus(id, _) =>
      assert Remembers(raft, log, id);
      StatusSimulates(mem, raft, log, cmd, o, p);
    case RollbackJob(id, _) =>
      assert Remembers(raft, log, id);
      RollbackSimulates(mem, raft, log, cmd, o, p);
    case _ => OtherSimulates(mem, raft, log, cmd, o, p);
  }

  lemma FindEmpty(version: nat)
    ensures FindVersion([], version).None?
  {}

  /** On every sequence of commands both support, the in-memory store and the Raft
      state machine agree on histories, allocations, nodes, releases and every field of
      every job except its version, which in memory is ahead by exactly the number of
      repeated-status writes since the last submission. */
  lemma {:induction false} StoreSimulatesRaft(log: seq<Command>, stamps: nat -> Stamp, stamps': nat -> Stamp)
    requires forall cmd :: cmd in log ==> Supported(cmd)
    ensures Simulates(MemAll(log, stamps), ApplyAll(EMPTY_STATE, log, stamps'), log)
    decreases log
  {
    if log != [] {
      var n := |log| - 1;
      StoreSimulatesRaft(log[..n], stamps, stamps');
      forall id ensures Remembers(ApplyAll(EMPTY_STATE, log[..n], stamps'), log[..n], id) {
        EveryStateRemembers(log[..n], stamps', id);
      }
      StepSimulates(MemAll(log[..n], stamps), ApplyAll(EMPTY_STATE, log[..n], stamps'), log[..n], log[n], stamps(n),
                    stamps'(n));
      assert log[..n] + [log[n]] == log;
    }
  }

  /** The versions coincide exactly when no status was repeated. */
  lemma VersionsEqualIff(log: seq<Command>, stamps: nat -> Stamp, stamps': nat -> Stamp, id: string)
    requires forall cmd :: cmd in log ==> Supported(cmd)
    requires id in ApplyAll(EMPTY_STATE, log, stamps').jobs
    ensures id in MemAll(log, stamps).jobs
    ensures MemAll(log, stamps).jobs[id] == ApplyAll(EMPTY_STATE, log, stamps').jobs[id] <==> Repeats(log, id) == 0
  {
    StoreSimulatesRaft(log, stamps, stamps');
    assert SameJob(MemAll(log, stamps).jobs[id], ApplyAll(EMPTY_STATE, log, stamps').jobs[id], Repeats(log, id));
  }
}

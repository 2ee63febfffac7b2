/** When the in-memory store (src/testing/store.rs) and the Raft state machine
    (src/cluster/raft_sm.rs) report the same events. */
module EventKinds {
  import opened Common
  import opened Domain
  import opened EventRing
  import opened Cluster
  import opened JobHistory
  import opened InMemoryStore

  // ---- the kinds of the events a command pushes ----

  function StatusKind(s: JobStatus): EventKind {
    if s == JobDead then JobStopped else JobUpdated
  }

  function One(c: bool, kind: EventKind): seq<EventKind> {
    if c then [kind] else []
  }

  function RaftKinds(cs: ClusterState, cmd: Command): seq<EventKind> {
    match cmd
    case PutJob(_) => [JobSubmitted]
    case UpdateJobStatus(id, status) => One(id in cs.jobs && cs.jobs[id].status != status, StatusKind(status))
    case RollbackJob(id, version) => One(FindVersion(HistoryOf(cs, id), version).Some? && id in cs.jobs, JobUpdated)
    case PutAllocation(_) => [AllocationPlaced]
    case UpdateAllocation(id, state, _) =>
      One(id in cs.allocations && cs.allocations[id].state != state, AllocationKind(state))
    case RegisterNode(_) => [NodeJoined]
    case RemoveNode(_) => [NodeLeft]
    case DrainNode(id) => One(id in cs.nodes, NodeDrained)
    case EmitEvent(e) => [e.kind]
    case PutSource(_) => [SourceCreated]
    case UpdateSource(id, status, _, _, _) =>
      if id in cs.sources then [SourceKind(cs.sources[id].status, status)] else []
    case DeleteSource(id) => One(id in cs.sources, SourceReconciled)
    case _ => []
  }

  /** The store also pushes when a write repeats what is there. */
  function MemKinds(cs: ClusterState, cmd: Command): seq<EventKind>
    requires Supported(cmd)
  {
    match cmd
    case UpdateJobStatus(id, status) => One(id in cs.jobs, StatusKind(status))
    case UpdateAllocation(id, state, _) => One(id in cs.allocations, AllocationKind(state))
    case _ => RaftKinds(cs, cmd)
  }

  ghost predicate Pushes(r: Ring<Event>, r': Ring<Event>, kinds: seq<EventKind>) {
    if kinds == [] then r' == r else |kinds| == 1 && exists e: Event :: e.kind == kinds[0] && r' == r.Push(e)
  }

  lemma JobPushes(cs: ClusterState, cmd: Command, o: Stamp)
    requires cmd.OnJob()
    ensures Pushes(cs.events, ApplyJobCommand(cs, cmd, o).0.events, RaftKinds(cs, cmd))
  {
    hide Restore, EntryOf, FindVersion;
    var now := ApplyJobCommand(cs, cmd, o).0.events;
    if RaftKinds(cs, cmd) != [] {
      assert now == cs.events.Push(now.items[|now.items| - 1]);
    }
  }

  lemma SourcePushes(cs: ClusterState, cmd: Command, o: Stamp)
    requires cmd.OnSource()
    ensures Pushes(cs.events, ApplySourceCommand(cs, cmd, o).0.events, RaftKinds(cs, cmd))
  {
    hide Updated;
    var now := ApplySourceCommand(cs, cmd, o).0.events;
    if RaftKinds(cs, cmd) != [] {
      assert now == cs.events.Push(now.items[|now.items| - 1]);
    }
  }

  lemma NodePushes(cs: ClusterState, cmd: Command, o: Stamp)
    requires cmd.OnNode()
    ensures Pushes(cs.events, ApplyNodeCommand(cs, cmd, o).0.events, RaftKinds(cs, cmd))
  {
    hide FindVersion;
    var now := ApplyNodeCommand(cs, cmd, o).0.events;
    if RaftKinds(cs, cmd) != [] {
      assert now == cs.events.Push(now.items[|now.items| - 1]);
    }
  }

  lemma AllocationPushes(cs: ClusterState, cmd: Command, o: Stamp)
    requires cmd.OnAllocation()
    ensures Pushes(cs.events, ApplyAllocationCommand(cs, cmd, o).0.events, RaftKinds(cs, cmd))
  {
    hide FindVersion;
    var now := ApplyAllocationCommand(cs, cmd, o).0.events;
    if RaftKinds(cs, cmd) != [] {
      assert now == cs.events.Push(now.items[|now.items| - 1]);
    }
  }

  lemma PlainPushes(cs: ClusterState, cmd: Command)
    requires !cmd.OnJob() && !cmd.OnSource() && !cmd.OnNode() && !cmd.OnAllocation()
    ensures Pushes(cs.events, ApplyPlainCommand(cs, cmd).0.events, RaftKinds(cs, cmd))
  {
    if cmd.EmitEvent? {
      assert cmd.event.kind == RaftKinds(cs, cmd)[0];
    }
  }

  lemma RaftPushes(cs: ClusterState, cmd: Command, o: Stamp)
    ensures Pushes(cs.events, Apply(cs, cmd, o).0.events, RaftKinds(cs, cmd))
  {
    hide Pushes, RaftKinds, ApplyJobCommand, ApplySourceCommand, ApplyNodeCommand, ApplyAllocationCommand,
         ApplyPlainCommand;
    if cmd.OnJob() {
      JobPushes(cs, cmd, o);
    } else if cmd.OnSource() {
      SourcePushes(cs, cmd, o);
    } else if cmd.OnNode() {
      NodePushes(cs, cmd, o);
    } else if cmd.OnAllocation() {
      AllocationPushes(cs, cmd, o);
    } else {
      PlainPushes(cs, cmd);
    }
  }

  lemma MemJobPushes(cs: ClusterState, cmd: Command, o: Stamp)
    requires cmd.OnJob()
    ensures Pushes(cs.events, MemJobCommand(cs, cmd, o).0.events, MemKinds(cs, cmd))
  {
    hide Restore, EntryOf, FindVersion;
    var now := MemJobCommand(cs, cmd, o).0.events;
    if MemKinds(cs, cmd) != [] {
      assert now == cs.events.Push(now.items[|now.items| - 1]);
    }
  }

  lemma MemAllocationPushes(cs: ClusterState, cmd: Command, o: Stamp)
    requires cmd.OnAllocation()
    ensures Pushes(cs.events, MemAllocationCommand(cs, cmd, o).0.events, MemKinds(cs, cmd))
  {
    hide FindVersion;
    var now := MemAllocationCommand(cs, cmd, o).0.events;
    if MemKinds(cs, cmd) != [] {
      assert now == cs.events.Push(now.items[|now.items| - 1]);
    }
  }

  lemma MemNodePushes(cs: ClusterState, cmd: Command, o: Stamp)
    requires Supported(cmd) && cmd.OnNode()
    ensures Pushes(cs.events, MemNodeCommand(cs, cmd, o).0.events, MemKinds(cs, cmd))
  {
    hide FindVersion;
    var now := MemNodeCommand(cs, cmd, o).0.events;
    if MemKinds(cs, cmd) != [] {
      assert now == cs.events.Push(now.items[|now.items| - 1]);
    }
  }

  lemma MemPushes(cs: ClusterState, cmd: Command, o: Stamp)
    requires Supported(cmd)
    ensures Pushes(cs.events, MemApply(cs, cmd, o).0.events, MemKinds(cs, cmd))
  {
    hide Pushes, RaftKinds, MemJobCommand, MemNodeCommand, MemAllocationCommand, ApplyPlainCommand;
    if cmd.OnJob() {
      MemJobPushes(cs, cmd, o);
    } else if cmd.OnAllocation() {
      MemAllocationPushes(cs, cmd, o);
    } else if cmd.OnNode() {
      MemNodePushes(cs, cmd, o);
    } else {
      PlainPushes(cs, cmd);
    }
  }

  // ---- what the events say ----

  /** The one new event has this payload and the id and time of the stamp. */
  ghost predicate Tells(r: Ring<Event>, r': Ring<Event>, o: Stamp, payload: Payload) {
    exists e: Event :: e.id == o.eventId && e.timestamp == o.eventTime && e.payload == payload && r' == r.Push(e)
  }

  /** A job's event tells the version that the job now has, a change what was and what is. */
  lemma JobEventTells(cs: ClusterState, cmd: Command, o: Stamp)
    requires cmd.OnJob() && RaftKinds(cs, cmd) != []
    ensures
      var now := ApplyJobCommand(cs, cmd, o).0;
      match cmd
      case PutJob(j) => Tells(cs.events, now.events, o, Submitted(j.id, j.version, j.jobType))
      case UpdateJobStatus(id, status) =>
        id in now.jobs
        && Tells(cs.events, now.events, o, StatusChanged(id, cs.jobs[id].status, status, now.jobs[id].version))
      case RollbackJob(id, version) =>
        id in now.jobs && Tells(cs.events, now.events, o, RolledBackTo(id, version, now.jobs[id].version))
  {
    hide EntryOf, FindVersion;
    var e := Event(o.eventId, o.eventTime, RaftKinds(cs, cmd)[0],
                   match cmd
                   case PutJob(j) => Submitted(j.id, j.version, j.jobType)
                   case UpdateJobStatus(id, status) =>
                     StatusChanged(id, cs.jobs[id].status, status, cs.jobs[id].version + 1)
                   case RollbackJob(id, version) => RolledBackTo(id, version, cs.jobs[id].version + 1));
    assert ApplyJobCommand(cs, cmd, o).0.events == cs.events.Push(e);
  }

  lemma SourceEventTells(cs: ClusterState, cmd: Command, o: Stamp)
    requires cmd.OnSource() && RaftKinds(cs, cmd) != []
    ensures
      var now := ApplySourceCommand(cs, cmd, o).0;
      match cmd
      case PutSource(s) => Tells(cs.events, now.events, o, SourceInfo(s.id, s.name, s.flakeRef))
      case UpdateSource(id, status, _, _, _) =>
        Tells(cs.events, now.events, o, SourceChanged(id, cs.sources[id].name, status))
      case DeleteSource(id) => Tells(cs.events, now.events, o, SourceDeleted(id, cs.sources[id].name))
  {
    var e := Event(o.eventId, o.eventTime, RaftKinds(cs, cmd)[0],
                   match cmd
                   case PutSource(s) => SourceInfo(s.id, s.name, s.flakeRef)
                   case UpdateSource(id, status, _, _, _) => SourceChanged(id, cs.sources[id].name, status)
                   case DeleteSource(id) => SourceDeleted(id, cs.sources[id].name));
    assert ApplySourceCommand(cs, cmd, o).0.events == cs.events.Push(e);
  }

  lemma NodeEventTells(cs: ClusterState, cmd: Command, o: Stamp)
    requires cmd.OnNode() && RaftKinds(cs, cmd) != []
    ensures
      var now := ApplyNodeCommand(cs, cmd, o).0;
      match cmd
      case RegisterNode(n) => Tells(cs.events, now.events, o, NodeInfo(n.nodeId, n.hostname))
      case RemoveNode(id) => Tells(cs.events, now.events, o, NodeGone(id))
      case DrainNode(id) => Tells(cs.events, now.events, o, NodeInfo(id, cs.nodes[id].hostname))
      case _ => false
  {
    var e := Event(o.eventId, o.eventTime, RaftKinds(cs, cmd)[0],
                   match cmd
                   case RegisterNode(n) => NodeInfo(n.nodeId, n.hostname)
                   case RemoveNode(id) => NodeGone(id)
                   case DrainNode(id) => NodeInfo(id, cs.nodes[id].hostname));
    assert ApplyNodeCommand(cs, cmd, o).0.events == cs.events.Push(e);
  }

  lemma AllocationEventTells(cs: ClusterState, cmd: Command, o: Stamp)
    requires cmd.OnAllocation() && RaftKinds(cs, cmd) != []
    ensures
      var now := ApplyAllocationCommand(cs, cmd, o).0;
      match cmd
      case PutAllocation(a) => Tells(cs.events, now.events, o, Placed(a.id, a.jobId, a.nodeId, a.groupName))
      case UpdateAllocation(id, state, _) =>
        var was := cs.allocations[id];
        Tells(cs.events, now.events, o, StateChanged(id, was.jobId, was.state, state))
  {
    var e := Event(o.eventId, o.eventTime, RaftKinds(cs, cmd)[0],
                   match cmd
                   case PutAllocation(a) => Placed(a.id, a.jobId, a.nodeId, a.groupName)
                   case UpdateAllocation(id, state, _) =>
                     StateChanged(id, cs.allocations[id].jobId, cs.allocations[id].state, state));
    assert ApplyAllocationCommand(cs, cmd, o).0.events == cs.events.Push(e);
  }

  /** The store's events say less: of a status change only the job, of an allocation's only the
      allocation. */
  lemma MemEventTells(cs: ClusterState, cmd: Command, o: Stamp)
    requires (cmd.OnJob() || cmd.OnAllocation()) && MemKinds(cs, cmd) != []
    ensures
      var now := MemApply(cs, cmd, o).0;
      match cmd
      case PutJob(j) => Tells(cs.events, now.events, o, Brief(j.id, None, j.version))
      case UpdateJobStatus(id, _) => Tells(cs.events, now.events, o, Brief(id, None, 0))
      case RollbackJob(id, version) => Tells(cs.events, now.events, o, Brief(id, None, version))
      case PutAllocation(a) => Tells(cs.events, now.events, o, Brief(a.jobId, Some(a.id), 0))
      case UpdateAllocation(id, _, _) => Tells(cs.events, now.events, o, Brief("", Some(id), 0))
  {
    hide EntryOf, FindVersion, Restore;
    var e := Event(o.eventId, o.eventTime, MemKinds(cs, cmd)[0],
                   match cmd
                   case PutJob(j) => Brief(j.id, None, j.version)
                   case UpdateJobStatus(id, _) => Brief(id, None, 0)
                   case RollbackJob(id, version) => Brief(id, None, version)
                   case PutAllocation(a) => Brief(a.jobId, Some(a.id), 0)
                   case UpdateAllocation(id, _, _) => Brief("", Some(id), 0));
    assert MemApply(cs, cmd, o).0.events == cs.events.Push(e);
  }

  /** What a subscriber sees of a change: a repeated write shows nothing, a job that becomes dead
      has stopped, an allocation shows as started, failed or completed by its new state. */
  lemma ChangesShow(cs: ClusterState, cmd: Command)
    ensures
      match cmd
      case UpdateJobStatus(id, status) =>
        id in cs.jobs ==>
          (cs.jobs[id].status == status ==> RaftKinds(cs, cmd) == [])
          && (cs.jobs[id].status != status && status == JobDead ==> RaftKinds(cs, cmd) == [JobStopped])
          && (cs.jobs[id].status != status && status != JobDead ==> RaftKinds(cs, cmd) == [JobUpdated])
      case UpdateAllocation(id, state, _) =>
        id in cs.allocations ==>
          && (cs.allocations[id].state == state ==> RaftKinds(cs, cmd) == [])
          && (cs.allocations[id].state != state ==>
                && (state == Running ==> RaftKinds(cs, cmd) == [AllocationStarted])
                && (state == Failed ==> RaftKinds(cs, cmd) == [AllocationFailed])
                && (state == Complete ==> RaftKinds(cs, cmd) == [AllocationCompleted])
                && (state == Pending || state == Lost ==> RaftKinds(cs, cmd) == [AllocationPlaced]))
      case UpdateSource(id, status, _, _, _) =>
        id in cs.sources ==>
          var was := cs.sources[id].status;
          && (status == SourceFailed ==> RaftKinds(cs, cmd) == [SourceFailedEvent])
          && (status == Suspended && was != Suspended ==> RaftKinds(cs, cmd) == [SourceSuspended])
          && (status == SourcePending && was == Suspended ==> RaftKinds(cs, cmd) == [SourceResumed])
          && (status == SourceReady || (status == was == Suspended) ==> RaftKinds(cs, cmd) == [SourceReconciled])
          && (status == SourcePending && was != Suspended ==> RaftKinds(cs, cmd) == [SourceReconciled])
      case _ => true
  {}

  // ---- over a log ----

  function RaftLogKinds(log: seq<Command>, stamps: nat -> Stamp): seq<EventKind> {
    if log == [] then []
    else
      var n := |log| - 1;
      RaftLogKinds(log[..n], stamps) + RaftKinds(ApplyAll(EMPTY_STATE, log[..n], stamps), log[n])
  }

  function MemLogKinds(log: seq<Command>, stamps: nat -> Stamp): seq<EventKind>
    requires forall cmd :: cmd in log ==> Supported(cmd)
  {
    if log == [] then []
    else
      var n := |log| - 1;
      MemLogKinds(log[..n], stamps) + MemKinds(MemAll(log[..n], stamps), log[n])
  }

  function KindsOf(events: seq<Event>): (r: seq<EventKind>)
    ensures |r| == |events|
  {
    seq(|events|, i requires 0 <= i < |events| => events[i].kind)
  }

  lemma PushKinds(r: Ring<Event>, e: Event)
    ensures KindsOf(r.Push(e).items) == Ring(KindsOf(r.items), r.capacity).Push(e.kind).items
            && r.Push(e).capacity == r.capacity
  {}

  /** A push keeps the ring's kinds the tail of all kinds so far. */
  lemma TailPushed(r: Ring<Event>, r': Ring<Event>, past: seq<EventKind>, kinds: seq<EventKind>)
    requires Pushes(r, r', kinds) && KindsOf(r.items) == Tail(past, Bound(r.capacity))
    ensures r'.capacity == r.capacity && KindsOf(r'.items) == Tail(past + kinds, Bound(r.capacity))
  {
    if kinds == [] {
      assert past + kinds == past;
    } else {
      var e: Event :| e.kind == kinds[0] && r' == r.Push(e);
      PushKinds(r, e);
      hide KindsOf, Tail, Ring.Push;
      PushKeepsTail(Ring(KindsOf(r.items), r.capacity), past, kinds[0]);
      assert past + kinds == past + [kinds[0]];
    }
  }

  /** What the rings hold is the end of these sequences. */
  lemma {:induction false} RaftRingShows(log: seq<Command>, stamps: nat -> Stamp)
    ensures
      var events := ApplyAll(EMPTY_STATE, log, stamps).events;
      && events.capacity == DEFAULT_RING_CAPACITY
      && KindsOf(events.items) == Tail(RaftLogKinds(log, stamps), DEFAULT_RING_CAPACITY)
    decreases log
  {
    hide RaftKinds, Apply, Pushes;
    if log != [] {
      var n := |log| - 1;
      RaftRingShows(log[..n], stamps);
      var before := ApplyAll(EMPTY_STATE, log[..n], stamps);
      RaftPushes(before, log[n], stamps(n));
      TailPushed(before.events, Apply(before, log[n], stamps(n)).0.events, RaftLogKinds(log[..n], stamps),
                 RaftKinds(before, log[n]));
    }
  }

  lemma {:induction false} MemRingShows(log: seq<Command>, stamps: nat -> Stamp)
    requires forall cmd :: cmd in log ==> Supported(cmd)
    ensures
      var events := MemAll(log, stamps).events;
      && events.capacity == DEFAULT_RING_CAPACITY
      && KindsOf(events.items) == Tail(MemLogKinds(log, stamps), DEFAULT_RING_CAPACITY)
    decreases log
  {
    hide MemKinds, MemApply, Pushes;
    if log != [] {
      var n := |log| - 1;
      MemRingShows(log[..n], stamps);
      var before := MemAll(log[..n], stamps);
      MemPushes(before, log[n], stamps(n));
      TailPushed(before.events, MemApply(before, log[n], stamps(n)).0.events, MemLogKinds(log[..n], stamps),
                 MemKinds(before, log[n]));
    }
  }

  // ---- when they agree ----

  /** The write repeats the status or state that is there. */
  predicate RepeatsWrite(cs: ClusterState, cmd: Command) {
    match cmd
    case UpdateJobStatus(id, status) => id in cs.jobs && cs.jobs[id].status == status
    case UpdateAllocation(id, state, _) => id in cs.allocations && cs.allocations[id].state == state
    case _ => false
  }

  function RepeatedWrites(log: seq<Command>, stamps: nat -> Stamp): nat {
    if log == [] then 0
    else
      var n := |log| - 1;
      RepeatedWrites(log[..n], stamps) + if RepeatsWrite(ApplyAll(EMPTY_STATE, log[..n], stamps), log[n]) then 1 else 0
  }

  lemma KindsStep(mem: ClusterState, raft: ClusterState, log: seq<Command>, cmd: Command)
    requires Supported(cmd) && Simulates(mem, raft, log)
    ensures RepeatsWrite(raft, cmd) ==> RaftKinds(raft, cmd) == [] && |MemKinds(mem, cmd)| == 1
    ensures !RepeatsWrite(raft, cmd) ==> MemKinds(mem, cmd) == RaftKinds(raft, cmd)
  {
    hide Repeats, FindVersion;
    match cmd
    case UpdateJobStatus(id, _) =>
      if id in raft.jobs {
        assert SameJob(mem.jobs[id], raft.jobs[id], Repeats(log, id));
      }
    case _ =>
  }

  /** The store reports one more event for every repeated write, and the two report the same
      kinds of events in the same order if and only if no write was repeated. */
  lemma {:induction false} KindsAgreeIff(log: seq<Command>, stamps: nat -> Stamp, stamps': nat -> Stamp)
    requires forall cmd :: cmd in log ==> Supported(cmd)
    ensures |MemLogKinds(log, stamps)| == |RaftLogKinds(log, stamps')| + RepeatedWrites(log, stamps')
    ensures MemLogKinds(log, stamps) == RaftLogKinds(log, stamps') <==> RepeatedWrites(log, stamps') == 0
    decreases log
  {
    hide MemKinds, RaftKinds, RepeatsWrite, Simulates;
    if log != [] {
      var n := |log| - 1;
      KindsAgreeIff(log[..n], stamps, stamps');
      StoreSimulatesRaft(log[..n], stamps, stamps');
      KindsStep(MemAll(log[..n], stamps), ApplyAll(EMPTY_STATE, log[..n], stamps'), log[..n], log[n]);
    }
  }
}

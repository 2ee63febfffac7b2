/** What the state machine remembers about nodes, allocations, releases, sources and chunks
    (src/cluster/raft_sm.rs), read off the command log: the last command that speaks of a
    record, or of one of its fields, decides. */
module TableHistory {
  import opened Common
  import opened Domain
  import opened Cluster

  /** What a command may speak of. */
  datatype Topic =
    | Joining(node: nat)
    | Eligibility(node: nat)
    | Placing(alloc: Uuid)
    | Allocating(alloc: Uuid)
    | Releasing(release: Uuid)
    | ReleaseState(release: Uuid)
    | Filing(source: Uuid)
    | SourceState(source: Uuid)
    | Revision(source: Uuid)
    | Managing(source: Uuid)
    | Holding(hash: string, node: nat)

  predicate About(t: Topic, c: Command) {
    match t
    case Joining(n) => (c.RegisterNode? && c.meta.nodeId == n) || (c.RemoveNode? && c.nodeId == n)
    case Eligibility(n) =>
      (c.RegisterNode? && c.meta.nodeId == n) || ((c.DrainNode? || c.SetNodeEligibility?) && c.nodeId == n)
    case Placing(id) => c.PutAllocation? && c.alloc.id == id
    case Allocating(id) => (c.PutAllocation? && c.alloc.id == id) || (c.UpdateAllocation? && c.allocId == id)
    case Releasing(id) => c.PutRelease? && c.release.id == id
    case ReleaseState(id) => (c.PutRelease? && c.release.id == id) || (c.UpdateReleaseStatus? && c.releaseId == id)
    case Filing(id) => (c.PutSource? && c.source.id == id) || (c.DeleteSource? && c.sourceId == id)
    case SourceState(id) => (c.PutSource? && c.source.id == id) || (c.UpdateSource? && c.sourceId == id)
    case Revision(id) =>
      (c.PutSource? && c.source.id == id) || (c.UpdateSource? && c.sourceId == id && c.lastRev.Some?)
    case Managing(id) =>
      (c.PutSource? && c.source.id == id) || (c.UpdateSource? && c.sourceId == id && c.managedJobs.Some?)
    case Holding(hash, n) =>
      (c.AdvertiseChunk? || c.RemoveChunkAdvertisement?) && c.hash == hash && c.nodeId == n
  }

  /** Where the log last speaks of it. */
  function LastOf(log: seq<Command>, t: Topic): (r: Option<nat>)
    ensures r.Some? ==>
              && r.value < |log| && About(t, log[r.value])
              && forall j :: r.value < j < |log| ==> !About(t, log[j])
    ensures r.None? ==> forall j :: 0 <= j < |log| ==> !About(t, log[j])
  {
    if log == [] then None
    else if About(t, log[|log| - 1]) then Some(|log| - 1)
    else LastOf(log[..|log| - 1], t)
  }

  lemma LastStep(log: seq<Command>, cmd: Command, t: Topic)
    ensures LastOf(log + [cmd], t) == if About(t, cmd) then Some(|log|) else LastOf(log, t)
  {
    assert (log + [cmd])[..|log|] == log;
  }

  // ---- nodes ----

  /** Known exactly when its last joining or leaving was a registration; as registered then, but
      for its eligibility, which the last registration, drain or setting decides. */
  ghost predicate NodeAsLogged(log: seq<Command>, nodes: map<nat, NodeMeta>, id: nat) {
    var k, e := LastOf(log, Joining(id)), LastOf(log, Eligibility(id));
    && (id in nodes <==> k.Some? && log[k.value].RegisterNode?)
    && (id in nodes ==>
          && e.Some? && e.value >= k.value
          && var c := log[e.value];
             var eligible := if c.RegisterNode? then c.meta.eligible else c.SetNodeEligibility? && c.eligible;
             nodes[id] == log[k.value].meta.(eligible := eligible))
  }

  lemma NodeEffect(cs: ClusterState, cmd: Command, o: Stamp)
    ensures Apply(cs, cmd, o).0.nodes ==
              match cmd
              case RegisterNode(m) => cs.nodes[m.nodeId := m]
              case RemoveNode(id) => cs.nodes - {id}
              case DrainNode(id) =>
                if id in cs.nodes then cs.nodes[id := cs.nodes[id].(eligible := false)] else cs.nodes
              case SetNodeEligibility(id, eligible) =>
                if id in cs.nodes then cs.nodes[id := cs.nodes[id].(eligible := eligible)] else cs.nodes
              case _ => cs.nodes
  {
    hide Emit, FindVersion, EntryOf, Restore, AllocationKind, SourceKind, Without;
  }

  lemma NodeStep(log: seq<Command>, cs: ClusterState, cmd: Command, o: Stamp, id: nat)
    requires NodeAsLogged(log, cs.nodes, id)
    ensures NodeAsLogged(log + [cmd], Apply(cs, cmd, o).0.nodes, id)
  {
    NodeEffect(cs, cmd, o);
    LastStep(log, cmd, Joining(id));
    LastStep(log, cmd, Eligibility(id));
    hide Apply, LastOf;
  }

  /** In every reachable state. */
  lemma {:induction false} NodesAsLogged(log: seq<Command>, stamps: nat -> Stamp, id: nat)
    ensures NodeAsLogged(log, ApplyAll(EMPTY_STATE, log, stamps).nodes, id)
    decreases log
  {
    hide Apply;
    if log != [] {
      hide NodeAsLogged;
      var n := |log| - 1;
      NodesAsLogged(log[..n], stamps, id);
      NodeStep(log[..n], ApplyAll(EMPTY_STATE, log[..n], stamps), log[n], stamps(n), id);
      assert log[..n] + [log[n]] == log;
    }
  }

  // ---- allocations ----

  /** Known once it was put; as last put, with the state and task states of the last update
      since. */
  ghost predicate AllocationAsLogged(log: seq<Command>, allocations: map<Uuid, Allocation>, id: Uuid) {
    var k, e := LastOf(log, Placing(id)), LastOf(log, Allocating(id));
    && (id in allocations <==> k.Some?)
    && (id in allocations ==>
          && e.Some? && e.value >= k.value
          && var c := log[e.value];
             allocations[id] ==
               if c.PutAllocation? then c.alloc
               else log[k.value].alloc.(state := c.state, taskStates := c.taskStates))
  }

  lemma AllocationEffect(cs: ClusterState, cmd: Command, o: Stamp)
    ensures Apply(cs, cmd, o).0.allocations ==
              match cmd
              case PutAllocation(a) => cs.allocations[a.id := a]
              case UpdateAllocation(id, state, tasks) =>
                if id in cs.allocations
                then cs.allocations[id := cs.allocations[id].(state := state, taskStates := tasks)]
                else cs.allocations
              case _ => cs.allocations
  {
    hide Emit, FindVersion, EntryOf, Restore, AllocationKind, SourceKind, Without;
  }

  lemma AllocationStep(log: seq<Command>, cs: ClusterState, cmd: Command, o: Stamp, id: Uuid)
    requires AllocationAsLogged(log, cs.allocations, id)
    ensures AllocationAsLogged(log + [cmd], Apply(cs, cmd, o).0.allocations, id)
  {
    AllocationEffect(cs, cmd, o);
    LastStep(log, cmd, Placing(id));
    LastStep(log, cmd, Allocating(id));
    hide Apply, LastOf;
  }

  lemma {:induction false} AllocationsAsLogged(log: seq<Command>, stamps: nat -> Stamp, id: Uuid)
    ensures AllocationAsLogged(log, ApplyAll(EMPTY_STATE, log, stamps).allocations, id)
    decreases log
  {
    hide Apply;
    if log != [] {
      hide AllocationAsLogged;
      var n := |log| - 1;
      AllocationsAsLogged(log[..n], stamps, id);
      AllocationStep(log[..n], ApplyAll(EMPTY_STATE, log[..n], stamps), log[n], stamps(n), id);
      assert log[..n] + [log[n]] == log;
    }
  }

  // ---- releases ----

  /** As last put, with the status of the last update since. */
  ghost predicate ReleaseAsLogged(log: seq<Command>, releases: map<Uuid, Release>, id: Uuid) {
    var k, e := LastOf(log, Releasing(id)), LastOf(log, ReleaseState(id));
    && (id in releases <==> k.Some?)
    && (id in releases ==>
          && e.Some? && e.value >= k.value
          && var c := log[e.value];
             releases[id] ==
               if c.PutRelease? then c.release else log[k.value].release.(status := c.releaseStatus))
  }

  lemma ReleaseEffect(cs: ClusterState, cmd: Command, o: Stamp)
    ensures Apply(cs, cmd, o).0.releases ==
              match cmd
              case PutRelease(r) => cs.releases[r.id := r]
              case UpdateReleaseStatus(id, status) =>
                if id in cs.releases then cs.releases[id := cs.releases[id].(status := status)] else cs.releases
              case _ => cs.releases
  {
    hide Emit, FindVersion, EntryOf, Restore, AllocationKind, SourceKind, Without;
  }

  lemma ReleaseStep(log: seq<Command>, cs: ClusterState, cmd: Command, o: Stamp, id: Uuid)
    requires ReleaseAsLogged(log, cs.releases, id)
    ensures ReleaseAsLogged(log + [cmd], Apply(cs, cmd, o).0.releases, id)
  {
    ReleaseEffect(cs, cmd, o);
    LastStep(log, cmd, Releasing(id));
    LastStep(log, cmd, ReleaseState(id));
    hide Apply, LastOf;
  }

  lemma {:induction false} ReleasesAsLogged(log: seq<Command>, stamps: nat -> Stamp, id: Uuid)
    ensures ReleaseAsLogged(log, ApplyAll(EMPTY_STATE, log, stamps).releases, id)
    decreases log
  {
    hide Apply;
    if log != [] {
      hide ReleaseAsLogged;
      var n := |log| - 1;
      ReleasesAsLogged(log[..n], stamps, id);
      ReleaseStep(log[..n], ApplyAll(EMPTY_STATE, log[..n], stamps), log[n], stamps(n), id);
      assert log[..n] + [log[n]] == log;
    }
  }

  // ---- sources ----

  /** Known exactly when its last filing or deletion was a filing; status, error and time are
      those of the last update since, revision and managed jobs those of the last update since
      that gave one, and everything else is as filed. */
  ghost predicate SourceAsLogged(log: seq<Command>, stamps: nat -> Stamp, sources: map<Uuid, Source>, id: Uuid) {
    var k := LastOf(log, Filing(id));
    && (id in sources <==> k.Some? && log[k.value].PutSource?)
    && (id in sources ==>
          && LastSince(log, SourceState(id), k.value) && LastSince(log, Revision(id), k.value)
          && LastSince(log, Managing(id), k.value)
          && var e, r, j := LastOf(log, SourceState(id)).value, LastOf(log, Revision(id)).value,
                            LastOf(log, Managing(id)).value;
             Tells(log[k.value].source, log[e], stamps(e).reconcileTime, log[r], log[j], sources[id]))
  }

  ghost predicate LastSince(log: seq<Command>, t: Topic, k: nat) {
    LastOf(log, t).Some? && LastOf(log, t).value >= k
  }

  ghost predicate Tells(put: Source, c: Command, time: Time, d: Command, f: Command, now: Source) {
    && (c.PutSource? || c.UpdateSource?) && (d.PutSource? || d.UpdateSource?)
    && (f.PutSource? || (f.UpdateSource? && f.managedJobs.Some?))
    && now.id == put.id && now.name == put.name && now.flakeRef == put.flakeRef
    && now.status == (if c.PutSource? then put.status else c.sourceStatus)
    && now.lastError == (if c.PutSource? then put.lastError else c.lastError)
    && now.lastReconciledAt == (if c.PutSource? then put.lastReconciledAt else Some(time))
    && now.lastRev == (if d.PutSource? then put.lastRev else d.lastRev)
    && now.managedJobs == (if f.PutSource? then put.managedJobs else f.managedJobs.value)
  }

  /** The source after an update. */
  ghost predicate Retold(was: Source, cmd: Command, time: Time, now: Source)
    requires cmd.UpdateSource?
  {
    && now.id == was.id && now.name == was.name && now.flakeRef == was.flakeRef
    && now.status == cmd.sourceStatus && now.lastError == cmd.lastError && now.lastReconciledAt == Some(time)
    && now.lastRev == (if cmd.lastRev.Some? then cmd.lastRev else was.lastRev)
    && now.managedJobs == (if cmd.managedJobs.Some? then cmd.managedJobs.value else was.managedJobs)
  }

  lemma SourceEffect(cs: ClusterState, cmd: Command, o: Stamp)
    ensures
      var now := Apply(cs, cmd, o).0.sources;
      match cmd
      case PutSource(s) => now == cs.sources[s.id := s]
      case DeleteSource(id) => now == cs.sources - {id}
      case UpdateSource(id, _, _, _, _) =>
        if id in cs.sources
        then id in now && now == cs.sources[id := now[id]] && Retold(cs.sources[id], cmd, o.reconcileTime, now[id])
        else now == cs.sources
      case _ => now == cs.sources
  {
    hide Emit, FindVersion, EntryOf, Restore, AllocationKind, SourceKind, Without;
  }

  lemma TellsOn(put: Source, c: Command, time: Time, d: Command, f: Command, was: Source, cmd: Command, time': Time,
                now: Source)
    requires cmd.UpdateSource? && Tells(put, c, time, d, f, was) && Retold(was, cmd, time', now)
    ensures Tells(put, cmd, time', if cmd.lastRev.Some? then cmd else d, if cmd.managedJobs.Some? then cmd else f, now)
  {}

  lemma SourceUpdated(log: seq<Command>, stamps: nat -> Stamp, sources: map<Uuid, Source>, cmd: Command, id: Uuid,
                      now: Source)
    requires SourceAsLogged(log, stamps, sources, id) && cmd.UpdateSource? && cmd.sourceId == id && id in sources
    requires Retold(sources[id], cmd, stamps(|log|).reconcileTime, now)
    ensures SourceAsLogged(log + [cmd], stamps, sources[id := now], id)
  {
    LastStep(log, cmd, Filing(id));
    LastStep(log, cmd, SourceState(id));
    LastStep(log, cmd, Revision(id));
    LastStep(log, cmd, Managing(id));
    var k, e, r, j := LastOf(log, Filing(id)).value, LastOf(log, SourceState(id)).value,
                      LastOf(log, Revision(id)).value, LastOf(log, Managing(id)).value;
    hide LastOf;
    TellsOn(log[k].source, log[e], stamps(e).reconcileTime, log[r], log[j], sources[id], cmd,
            stamps(|log|).reconcileTime, now);
    hide Tells, Retold;
  }

  lemma SourcePut(log: seq<Command>, stamps: nat -> Stamp, sources: map<Uuid, Source>, cmd: Command, id: Uuid)
    requires cmd.PutSource? && cmd.source.id == id
    ensures SourceAsLogged(log + [cmd], stamps, sources[id := cmd.source], id)
  {
    LastStep(log, cmd, Filing(id));
    LastStep(log, cmd, SourceState(id));
    LastStep(log, cmd, Revision(id));
    LastStep(log, cmd, Managing(id));
    hide LastOf;
  }

  lemma SourceElsewhere(log: seq<Command>, stamps: nat -> Stamp, sources: map<Uuid, Source>, cmd: Command, id: Uuid,
                        now: map<Uuid, Source>)
    requires SourceAsLogged(log, stamps, sources, id) && !About(Filing(id), cmd)
    requires About(SourceState(id), cmd) ==> id !in sources
    requires (id in now <==> id in sources) && (id in now ==> now[id] == sources[id])
    ensures SourceAsLogged(log + [cmd], stamps, now, id)
  {
    LastStep(log, cmd, Filing(id));
    LastStep(log, cmd, SourceState(id));
    LastStep(log, cmd, Revision(id));
    LastStep(log, cmd, Managing(id));
    hide LastOf, Tells;
  }

  lemma SourceStep(log: seq<Command>, stamps: nat -> Stamp, cs: ClusterState, cmd: Command, id: Uuid)
    requires SourceAsLogged(log, stamps, cs.sources, id)
    ensures SourceAsLogged(log + [cmd], stamps, Apply(cs, cmd, stamps(|log|)).0.sources, id)
  {
    SourceEffect(cs, cmd, stamps(|log|));
    var now := Apply(cs, cmd, stamps(|log|)).0.sources;
    hide Apply, SourceAsLogged, Retold;
    if cmd.UpdateSource? && cmd.sourceId == id && id in cs.sources {
      SourceUpdated(log, stamps, cs.sources, cmd, id, now[id]);
    } else if cmd.PutSource? && cmd.source.id == id {
      SourcePut(log, stamps, cs.sources, cmd, id);
    } else if cmd.DeleteSource? && cmd.sourceId == id {
      assert SourceAsLogged(log + [cmd], stamps, now, id) by { SourceDeleted(log, stamps, now, cmd, id); }
    } else {
      SourceElsewhere(log, stamps, cs.sources, cmd, id, now);
    }
  }

  lemma SourceDeleted(log: seq<Command>, stamps: nat -> Stamp, now: map<Uuid, Source>, cmd: Command, id: Uuid)
    requires cmd.DeleteSource? && cmd.sourceId == id && id !in now
    ensures SourceAsLogged(log + [cmd], stamps, now, id)
  {
    LastStep(log, cmd, Filing(id));
  }

  lemma {:induction false} SourcesAsLogged(log: seq<Command>, stamps: nat -> Stamp, id: Uuid)
    ensures SourceAsLogged(log, stamps, ApplyAll(EMPTY_STATE, log, stamps).sources, id)
    decreases log
  {
    hide Apply;
    if log != [] {
      hide SourceAsLogged;
      var n := |log| - 1;
      SourcesAsLogged(log[..n], stamps, id);
      SourceStep(log[..n], stamps, ApplyAll(EMPTY_STATE, log[..n], stamps), log[n], id);
      assert log[..n] + [log[n]] == log;
    }
  }

  // ---- chunks ----

  /** A node holds a chunk exactly when the last said of the two was an advertisement; no chunk is
      listed without a holder. */
  ghost predicate ChunkAsLogged(log: seq<Command>, index: map<string, seq<nat>>, hash: string, node: nat) {
    var k := LastOf(log, Holding(hash, node));
    && (hash in index && node in index[hash] <==> k.Some? && log[k.value].AdvertiseChunk?)
    && (hash in index ==> index[hash] != [])
  }

  lemma {:induction false} WithoutMembers(holders: seq<nat>, id: nat)
    ensures forall n :: n in Without(holders, id) <==> n in holders && n != id
    decreases holders
  {
    if holders != [] {
      WithoutMembers(holders[1..], id);
      assert forall n :: n in holders <==> n == holders[0] || n in holders[1..];
    }
  }

  lemma IndexEffect(cs: ClusterState, cmd: Command, o: Stamp)
    ensures
      var was, now := cs.dataIndex, Apply(cs, cmd, o).0.dataIndex;
      match cmd
      case AdvertiseChunk(hash, id) => now == was[hash := (if hash in was then was[hash] else []) + [id]]
      case RemoveChunkAdvertisement(hash, id) =>
        now == if hash !in was then was
               else if Without(was[hash], id) == [] then was - {hash}
               else was[hash := Without(was[hash], id)]
      case _ => now == was
  {
    hide Emit, FindVersion, EntryOf, Restore, AllocationKind, SourceKind, Without;
    if cmd.OnJob() {
      hide ApplySourceCommand, ApplyNodeCommand, ApplyAllocationCommand, ApplyPlainCommand;
    } else if cmd.OnSource() {
      hide ApplyJobCommand, ApplyNodeCommand, ApplyAllocationCommand, ApplyPlainCommand;
    } else if cmd.OnNode() {
      hide ApplyJobCommand, ApplySourceCommand, ApplyAllocationCommand, ApplyPlainCommand;
    } else if cmd.OnAllocation() {
      hide ApplyJobCommand, ApplySourceCommand, ApplyNodeCommand, ApplyPlainCommand;
    } else {
      hide ApplyJobCommand, ApplySourceCommand, ApplyNodeCommand, ApplyAllocationCommand;
    }
  }

  lemma ChunkEffect(cs: ClusterState, cmd: Command, o: Stamp, hash: string, node: nat)
    ensures
      var was, now := cs.dataIndex, Apply(cs, cmd, o).0.dataIndex;
      var held := hash in was && node in was[hash];
      && (hash in now && node in now[hash] <==>
            (cmd.AdvertiseChunk? && cmd.hash == hash && cmd.nodeId == node)
            || (held && !(cmd.RemoveChunkAdvertisement? && cmd.hash == hash && cmd.nodeId == node)))
      && (hash in now && (hash in was ==> was[hash] != []) ==> now[hash] != [])
  {
    hide Apply, Without;
    IndexEffect(cs, cmd, o);
    if cmd.RemoveChunkAdvertisement? && cmd.hash in cs.dataIndex {
      var left := Without(cs.dataIndex[cmd.hash], cmd.nodeId);
      WithoutMembers(cs.dataIndex[cmd.hash], cmd.nodeId);
    }
  }

  lemma ChunkStep(log: seq<Command>, cs: ClusterState, cmd: Command, o: Stamp, hash: string, node: nat)
    requires ChunkAsLogged(log, cs.dataIndex, hash, node)
    ensures ChunkAsLogged(log + [cmd], Apply(cs, cmd, o).0.dataIndex, hash, node)
  {
    ChunkEffect(cs, cmd, o, hash, node);
    LastStep(log, cmd, Holding(hash, node));
    hide Apply, LastOf;
  }

  lemma {:induction false} ChunksAsLogged(log: seq<Command>, stamps: nat -> Stamp, hash: string, node: nat)
    ensures ChunkAsLogged(log, ApplyAll(EMPTY_STATE, log, stamps).dataIndex, hash, node)
    decreases log
  {
    hide Apply;
    if log != [] {
      hide ChunkAsLogged;
      var n := |log| - 1;
      ChunksAsLogged(log[..n], stamps, hash, node);
      ChunkStep(log[..n], ApplyAll(EMPTY_STATE, log[..n], stamps), log[n], stamps(n), hash, node);
      assert log[..n] + [log[n]] == log;
    }
  }

  /** An advertisement of the chunk that its node has not withdrawn since. */
  ghost predicate Standing(log: seq<Command>, hash: string, k: nat) {
    && k < |log| && log[k].AdvertiseChunk? && log[k].hash == hash
    && forall j :: k < j < |log| ==>
         !(log[j].RemoveChunkAdvertisement? && log[j].hash == hash && log[j].nodeId == log[k].nodeId)
  }

  function HoldersOf(index: map<string, seq<nat>>, hash: string): seq<nat> {
    if hash in index then index[hash] else []
  }

  /** These advertisements, in the order of the log, are those of the holders listed. */
  ghost predicate StandsFor(log: seq<Command>, at: seq<nat>, holders: seq<nat>) {
    && |at| == |holders| && (forall i, j :: 0 <= i < j < |at| ==> at[i] < at[j])
    && forall i :: 0 <= i < |at| ==> at[i] < |log| && log[at[i]].AdvertiseChunk? && log[at[i]].nodeId == holders[i]
  }

  lemma OneMoreStands(log: seq<Command>, k: nat, holder: nat, at: seq<nat>, holders: seq<nat>)
    requires StandsFor(log, at, holders) && forall i :: 0 <= i < |at| ==> k < at[i]
    requires k < |log| && log[k].AdvertiseChunk? && log[k].nodeId == holder
    ensures StandsFor(log, [k] + at, [holder] + holders)
  {}

  lemma {:induction false} WithoutStands(log: seq<Command>, at: seq<nat>, holders: seq<nat>, id: nat)
    returns (left: seq<nat>)
    requires StandsFor(log, at, holders)
    ensures StandsFor(log, left, Without(holders, id))
    ensures forall k :: k in left <==> k in at && log[k].AdvertiseChunk? && log[k].nodeId != id
    decreases holders
  {
    left := [];
    if holders != [] {
      var rest := WithoutStands(log, at[1..], holders[1..], id);
      forall i | 0 <= i < |rest| ensures at[0] < rest[i] {
        assert rest[i] in rest;
      }
      left := if holders[0] == id then rest else [at[0]] + rest;
      assert forall k :: k in at <==> k == at[0] || k in at[1..];
      if holders[0] != id {
        OneMoreStands(log, at[0], holders[0], rest, Without(holders[1..], id));
      }
    }
  }

  lemma HoldersEffect(cs: ClusterState, cmd: Command, o: Stamp, hash: string)
    ensures
      var was, now := HoldersOf(cs.dataIndex, hash), HoldersOf(Apply(cs, cmd, o).0.dataIndex, hash);
      now == if cmd.AdvertiseChunk? && cmd.hash == hash then was + [cmd.nodeId]
             else if cmd.RemoveChunkAdvertisement? && cmd.hash == hash then Without(was, cmd.nodeId)
             else was
  {
    hide Apply;
    IndexEffect(cs, cmd, o);
  }

  lemma HoldersStep(log: seq<Command>, cmd: Command, hash: string, at: seq<nat>, was: seq<nat>, now: seq<nat>)
    returns (at': seq<nat>)
    requires StandsFor(log, at, was) && forall k: nat :: k in at <==> Standing(log, hash, k)
    requires now == if cmd.AdvertiseChunk? && cmd.hash == hash then was + [cmd.nodeId]
                    else if cmd.RemoveChunkAdvertisement? && cmd.hash == hash then Without(was, cmd.nodeId)
                    else was
    ensures StandsFor(log + [cmd], at', now) && forall k: nat :: k in at' <==> Standing(log + [cmd], hash, k)
  {
    var all, n := log + [cmd], |log|;
    assert all[n] == cmd && forall j :: 0 <= j < n ==> all[j] == log[j];
    at' := at;
    if cmd.AdvertiseChunk? && cmd.hash == hash {
      at' := at + [n];
    } else if cmd.RemoveChunkAdvertisement? && cmd.hash == hash {
      at' := WithoutStands(log, at, was, cmd.nodeId);
    }
    forall k: nat ensures k in at' <==> Standing(all, hash, k) {
      if k < n {
        assert Standing(all, hash, k) <==>
            Standing(log, hash, k)
            && !(cmd.RemoveChunkAdvertisement? && cmd.hash == hash && cmd.nodeId == log[k].nodeId);
      }
    }
  }

  /** In every reachable state the holders of a chunk are those of the advertisements not withdrawn
      since, in the order of the log, repeats included. */
  lemma {:induction false} HoldersInOrder(log: seq<Command>, stamps: nat -> Stamp, hash: string) returns (at: seq<nat>)
    ensures StandsFor(log, at, HoldersOf(ApplyAll(EMPTY_STATE, log, stamps).dataIndex, hash))
    ensures forall k: nat :: k in at <==> Standing(log, hash, k)
    decreases log
  {
    if log == [] {
      at := [];
    } else {
      hide StandsFor, Standing, Apply;
      var n := |log| - 1;
      at := HoldersInOrder(log[..n], stamps, hash);
      var cs := ApplyAll(EMPTY_STATE, log[..n], stamps);
      HoldersEffect(cs, log[n], stamps(n), hash);
      assert log[..n] + [log[n]] == log;
      at := HoldersStep(log[..n], log[n], hash, at, HoldersOf(cs.dataIndex, hash),
                        HoldersOf(Apply(cs, log[n], stamps(n)).0.dataIndex, hash));
    }
  }

  // ---- answers ----

  /** What a command answers: the record as it is now, or which record is missing. A rollback's
      answer is in JobHistory. */
  lemma AnswersShowRecord(cs: ClusterState, cmd: Command, o: Stamp)
    ensures
      var (now, resp) := Apply(cs, cmd, o);
      match cmd
      case PutJob(j) => j.id in now.jobs && now.jobs[j.id] == j && resp == JobResponse(j)
      case UpdateJobStatus(id, _) =>
        if id in cs.jobs then id in now.jobs && resp == JobResponse(now.jobs[id])
        else now == cs && resp == ErrorResponse(JobNotFound(id))
      case PutAllocation(a) => resp == AllocationResponse(a)
      case UpdateAllocation(id, _, _) =>
        if id in cs.allocations then id in now.allocations && resp == AllocationResponse(now.allocations[id])
        else now == cs && resp == ErrorResponse(AllocationNotFound(id))
      case DrainNode(id) => resp == if id in cs.nodes then Done else ErrorResponse(NodeNotFound(id))
      case SetNodeEligibility(id, _) => resp == if id in cs.nodes then Done else ErrorResponse(NodeNotFound(id))
      case PutRelease(r) => resp == ReleaseResponse(r)
      case UpdateReleaseStatus(id, _) =>
        if id in cs.releases then id in now.releases && resp == ReleaseResponse(now.releases[id])
        else now == cs && resp == ErrorResponse(ReleaseNotFound(id))
      case PutSource(s) => resp == SourceResponse(s)
      case UpdateSource(id, _, _, _, _) =>
        if id in cs.sources then id in now.sources && resp == SourceResponse(now.sources[id])
        else now == cs && resp == ErrorResponse(SourceNotFound(id))
      case DeleteSource(id) => resp == if id in cs.sources then Done else ErrorResponse(SourceNotFound(id))
      case RollbackJob(_, _) => true
      case _ => resp == Done
  {
    hide Emit, FindVersion, EntryOf, Restore, AllocationKind, SourceKind, Without;
  }
}

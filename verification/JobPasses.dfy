/** The work of one tick on one job (src/domain/reconciler.rs): the passes in order, what they
    do to its allocations and tracked tasks, and what they leave of the others'. */
module JobPasses {
  import opened Common
  import opened Domain
  import opened StateStore
  import opened Executor
  import opened Passes
  import opened Placement
  import opened CountPass
  import opened DriftPass
  import opened HealthPass

  datatype Config = Config(driftDetection: bool, reevalEveryN: nat, sourceReconciliation: bool, sourceReevalEveryN: nat)
  {
    /** The tick count is divided by both periods. */
    predicate Valid() {
      (driftDetection ==> reevalEveryN > 0) && (sourceReconciliation ==> sourceReevalEveryN > 0)
    }

    ghost predicate DriftDue(tick: nat, job: Job)
      requires Valid()
    {
      driftDetection && tick % reevalEveryN == 0 && job.jobType.Service?
    }

    ghost predicate SourcesDue(tick: nat)
      requires Valid()
    {
      sourceReconciliation && tick % sourceReevalEveryN == 0
    }
  }

  // ---- what it does to the allocations ----

  ghost predicate OnKnownNode(a: Allocation, nodeIds: set<string>) {
    a.IsTerminal() || a.nodeId in nodeIds
  }

  /** The tick's work on one job. */
  ghost predicate JobStep(m: Allocations, m': Allocations, jobId: string, nodeIds: set<string>) {
    && (forall id :: id in m ==> id in m' && Moves(m[id], m'[id]))
    && (forall id :: id in m && m[id].jobId != jobId ==> m'[id] == m[id])
    && (forall id :: id in m' && id !in m ==> m'[id].id == id && m'[id].jobId == jobId && m'[id].nodeId in nodeIds)
    && (forall id :: id in m' && m'[id].jobId == jobId ==> OnKnownNode(m'[id], nodeIds))
  }

  /** Health and liveness, on the listing they share; the job is in the store as listed. */
  ghost predicate Checkup(w: World, job: Job, m: Allocations, r: Tracks, m': Allocations, r': Tracks,
                          nodeIds: set<string>)
  {
    && m'.Keys == m.Keys && r'.Keys == r.Keys
    && (forall id :: id in m && m[id].jobId != job.id ==> m'[id] == m[id])
    && (forall id :: id in r && (id !in m || m[id].jobId != job.id) ==> r'[id] == r[id])
    && (forall id :: id in m && m[id].jobId == job.id ==> CheckedUp(w, job, m[id], r, m'[id], r', nodeIds))
  }

  /** What the health pass makes of one listed allocation, and then Lost when its node is
      unknown. */
  ghost predicate CheckedUp(w: World, job: Job, a: Allocation, r: Tracks, b: Allocation, r': Tracks,
                            nodeIds: set<string>)
  {
    var checked := if Checked(job, r, a) then Healed(w, job.groups, a, r[a.id]) else (a, TasksOf(r, a.id));
    TasksOf(r', a.id) == checked.1 && b == Survived(a, checked.0, nodeIds)
  }

  /** What a health pass makes of an allocation it tracks. */
  function Healed(w: World, groups: seq<TaskGroup>, a: Allocation,
                  tasks: seq<RunningTask>): (Allocation, seq<RunningTask>)
  {
    var group := FindGroup(groups, a.groupName);
    if a.state == Running && group.Some? then HealthOf(w, groups, a, group.value.restartPolicy, tasks) else (a, tasks)
  }

  lemma CheckedUpMoves(w: World, job: Job, a: Allocation, r: Tracks, b: Allocation, r': Tracks, nodeIds: set<string>)
    requires CheckedUp(w, job, a, r, b, r', nodeIds)
    ensures Moves(a, b) && OnKnownNode(b, nodeIds)
  {
    if Checked(job, r, a) {
      hide HealthOf, Restarting;
      FailedIff(w, job.groups, a, FindGroup(job.groups, a.groupName).value.restartPolicy, r[a.id]);
    }
  }

  lemma CheckupStep(w: World, job: Job, m: Allocations, r: Tracks, m1: Allocations, r1: Tracks, nodeIds: set<string>)
    requires Keyed(m, AllocationKey) && Checkup(w, job, m, r, m1, r1, nodeIds)
    ensures JobStep(m, m1, job.id, nodeIds) && Keyed(m1, AllocationKey)
  {
    hide CheckedUp;
    forall id | id in m
      ensures Moves(m[id], m1[id]) && (m1[id].jobId == job.id ==> OnKnownNode(m1[id], nodeIds)) && m1[id].id == id
    {
      assert AllocationKey(m[id]) == id;
      if m[id].jobId == job.id {
        CheckedUpMoves(w, job, m[id], r, m1[id], r1, nodeIds);
      }
    }
  }

  lemma ThenAdvances(m: Allocations, m1: Allocations, m2: Allocations, jobId: string, nodeIds: set<string>)
    requires JobStep(m, m1, jobId, nodeIds) && Advances(m1, m2, jobId, nodeIds)
    ensures JobStep(m, m2, jobId, nodeIds)
  {
    forall id | id in m2 && id !in m
      ensures m2[id].id == id && m2[id].jobId == jobId && m2[id].nodeId in nodeIds
    {
      if id in m1 {
        assert Quiet(m1[id], m2[id]);
      } else {
        assert IsNew(m2[id], id, jobId, nodeIds);
      }
    }
    forall id | id in m2 && m2[id].jobId == jobId ensures OnKnownNode(m2[id], nodeIds) {
      if id in m1 {
        assert Quiet(m1[id], m2[id]);
      } else {
        assert IsNew(m2[id], id, jobId, nodeIds);
      }
    }
    forall id | id in m ensures id in m2 && Moves(m[id], m2[id]) {
      assert Quiet(m1[id], m2[id]);
    }
  }

  // ---- restarts ----

  ghost predicate WithinLimit(groups: seq<TaskGroup>, a: Allocation) {
    var group := FindGroup(groups, a.groupName);
    group.Some? ==>
      var p := group.value.restartPolicy;
      forall t :: Restarts(a, t) <= if p.mode == Never then 0 else p.attempts
  }

  /** For one job with these groups: distinct task names, in the specs and among the tasks
      tracked, and no restart count above what its policy allows. */
  ghost predicate Bounded(groups: seq<TaskGroup>, jobId: string, m: Allocations, r: Tracks) {
    && DistinctSpecs(groups)
    && (forall id :: id in m && m[id].jobId == jobId ==>
        WithinLimit(groups, m[id]) && (id in r ==> DistinctTasks(r[id])))
    && (forall id :: id in r && id !in m ==> DistinctTasks(r[id]))
  }

  lemma CheckedUpBounded(w: World, job: Job, a: Allocation, r: Tracks, b: Allocation, r': Tracks, nodeIds: set<string>)
    requires CheckedUp(w, job, a, r, b, r', nodeIds)
    requires WithinLimit(job.groups, a) && (a.id in r ==> DistinctTasks(r[a.id]))
    ensures WithinLimit(job.groups, b) && (a.id in r' ==> DistinctTasks(r'[a.id]))
  {
    CheckedUpMoves(w, job, a, r, b, r', nodeIds);
    var groups := job.groups;
    if Checked(job, r, a) {
      var p := FindGroup(groups, a.groupName).value.restartPolicy;
      var (a', tasks) := HealthOf(w, groups, a, p, r[a.id]);
      forall t ensures Restarts(a', t) <= if p.mode == Never then 0 else p.attempts {
        RestartsStayBounded(w, groups, a, p, r[a.id], t);
      }
      FoldDistinct(w, groups, a, p, r[a.id], Reports(w, a.id, r[a.id]), |Reports(w, a.id, r[a.id])|);
      assert forall t :: Restarts(b, t) == Restarts(a', t);
    } else {
      assert forall t :: Restarts(b, t) == Restarts(a, t);
    }
  }

  lemma CheckupBounded(w: World, job: Job, m: Allocations, r: Tracks, m': Allocations, r': Tracks, nodeIds: set<string>)
    requires Keyed(m, AllocationKey) && Checkup(w, job, m, r, m', r', nodeIds) && Bounded(job.groups, job.id, m, r)
    ensures Bounded(job.groups, job.id, m', r')
  {
    hide CheckedUp, DistinctTasks, DistinctSpecs, WithinLimit;
    forall id | id in m && m'[id].jobId == job.id
      ensures WithinLimit(job.groups, m'[id]) && (id in r' ==> DistinctTasks(r'[id]))
    {
      assert AllocationKey(m[id]) == id;
      if m[id].jobId == job.id {
        CheckedUpBounded(w, job, m[id], r, m'[id], r', nodeIds);
      }
    }
  }

  /** The count and drift passes keep the bounds: what they leave running counts no restart. */
  lemma AdvancesBounded(w: World, groups: seq<TaskGroup>, m: Allocations, r: Tracks, m': Allocations, r': Tracks,
                        jobId: string, nodeIds: set<string>)
    requires Bounded(groups, jobId, m, r) && Advances(m, m', jobId, nodeIds) && TracksAdvance(w, groups, m, r, m', r')
    ensures Bounded(groups, jobId, m', r')
  {
    hide DistinctTasks, DistinctSpecs;
    forall id | id in m' && m'[id].jobId == jobId
      ensures WithinLimit(groups, m'[id]) && (id in r' ==> DistinctTasks(r'[id]))
    {
      if id in m {
        assert Quiet(m[id], m'[id]) && WithinLimit(groups, m[id]);
      } else {
        assert IsNew(m'[id], id, jobId, nodeIds);
      }
    }
  }

  // ---- the fate of one allocation ----

  /** It has ended, or is no longer tracked, or is as the health pass left it; when the
      drivers of its tasks exist it is dropped only by being stopped. */
  ghost predicate Fate(w: World, groups: seq<TaskGroup>, a: Allocation, r: Tracks, b: Allocation, r': Tracks) {
    && Moves(a, b)
    && (a.id in r' ==> a.id in r)
    && (b.IsTerminal() || a.id !in r' || a.id !in r || (b, r'[a.id]) == Healed(w, groups, a, r[a.id]))
    && (a.id in r && DriversOf(w, r[a.id]) && a.id !in r' ==> b.IsTerminal())
  }

  /** After a checkup and passes that only advance it meets its fate. */
  lemma MeetsFate(w: World, job: Job, m: Allocations, r: Tracks, m1: Allocations, r1: Tracks, m2: Allocations,
                  r2: Tracks, nodeIds: set<string>, id: Uuid)
    requires Keyed(m, AllocationKey) && Checkup(w, job, m, r, m1, r1, nodeIds)
    requires Advances(m1, m2, job.id, nodeIds) && TracksAdvance(w, job.groups, m1, r1, m2, r2)
    requires id in m && m[id].jobId == job.id
    ensures id in m2 && Fate(w, job.groups, m[id], r, m2[id], r2)
  {
    hide HealthOf, DistinctSpecs, DistinctTasks, DriversOf;
    assert AllocationKey(m[id]) == id;
    CheckedUpMoves(w, job, m[id], r, m1[id], r1, nodeIds);
    if DriversOf(w, TasksOf(r, id)) {
      CheckedUpDrivers(w, job, m[id], r, m1[id], r1, nodeIds);
    }
    assert Quiet(m1[id], m2[id]);
  }

  lemma CheckedUpDrivers(w: World, job: Job, a: Allocation, r: Tracks, b: Allocation, r': Tracks, nodeIds: set<string>)
    requires CheckedUp(w, job, a, r, b, r', nodeIds) && DriversOf(w, TasksOf(r, a.id))
    ensures DriversOf(w, TasksOf(r', a.id))
  {
    hide HealthOf;
    if Checked(job, r, a) {
      HealedDrivers(w, job.groups, a, r[a.id]);
    }
  }

  /** Restarts of an allocation whose drivers exist need no others. */
  lemma HealedDrivers(w: World, groups: seq<TaskGroup>, a: Allocation, tasks: seq<RunningTask>)
    requires DriversOf(w, tasks)
    ensures DriversOf(w, Healed(w, groups, a, tasks).1)
  {
    var group := FindGroup(groups, a.groupName);
    if a.state == Running && group.Some? {
      var reports := Reports(w, a.id, tasks);
      FoldDrivers(w, groups, a, group.value.restartPolicy, tasks, reports, |reports|);
    }
  }

  /** One that is no longer tracked is not checked again: while its node is known only another
      stop ends it. */
  lemma ForgottenStays(w: World, job: Job, m: Allocations, r: Tracks, m': Allocations, r': Tracks, nodeIds: set<string>,
                       id: Uuid)
    requires Keyed(m, AllocationKey) && Checkup(w, job, m, r, m', r', nodeIds)
    requires id in m && id !in r && (m[id].jobId == job.id ==> m[id].nodeId in nodeIds)
    ensures m'[id] == m[id] && id !in r'
  {
    assert AllocationKey(m[id]) == id;
  }

  /** What the work on one job leaves of the others' tracked tasks, and of tasks tracked for
      no allocation. */
  ghost predicate Aside(w: World, m: Allocations, r: Tracks, m': Allocations, r': Tracks, jobId: string) {
    && (forall id :: id in m && m[id].jobId != jobId ==> AsideAt(w, m[id], id, r, r'))
    && (forall id :: id in r' && id !in m' ==> id in r && r'[id] == r[id])
  }

  /** Kept or dropped, and when the drivers of its tasks exist dropped only after it had ended. */
  ghost predicate AsideAt(w: World, a: Allocation, id: Uuid, r: Tracks, r': Tracks) {
    && (id in r' ==> id in r && r'[id] == r[id])
    && (id in r && DriversOf(w, r[id]) && id !in r' ==> a.IsTerminal())
  }

  lemma CheckupAside(w: World, job: Job, m: Allocations, r: Tracks, m1: Allocations, r1: Tracks, nodeIds: set<string>)
    requires Checkup(w, job, m, r, m1, r1, nodeIds)
    ensures Aside(w, m, r, m1, r1, job.id)
  {
    hide CheckedUp, DriversOf;
  }

  lemma AdvancesAside(w: World, groups: seq<TaskGroup>, m: Allocations, r: Tracks, m': Allocations, r': Tracks,
                      jobId: string, nodeIds: set<string>)
    requires Advances(m, m', jobId, nodeIds) && TracksAdvance(w, groups, m, r, m', r')
    ensures Aside(w, m, r, m', r', jobId)
  {
    hide DistinctSpecs, DistinctTasks, DriversOf, IsNew;
  }

  lemma AsideJoin(w: World, m: Allocations, r: Tracks, m1: Allocations, r1: Tracks, m2: Allocations, r2: Tracks,
                  jobId: string)
    requires Aside(w, m, r, m1, r1, jobId) && Aside(w, m1, r1, m2, r2, jobId)
    requires m.Keys <= m1.Keys <= m2.Keys && forall id :: id in m && m[id].jobId != jobId ==> m1[id] == m[id]
    ensures Aside(w, m, r, m2, r2, jobId)
  {
    hide DriversOf;
    forall id | id in m && m[id].jobId != jobId ensures AsideAt(w, m[id], id, r, r2) {
      assert AsideAt(w, m[id], id, r, r1) && AsideAt(w, m1[id], id, r1, r2);
    }
  }

  // ---- reaching the desired numbers ----

  /** The drivers do what a tick may ask of them for this job: no start of a new allocation of
      it is refused, and the drivers of what its active allocations run exist. */
  ghost predicate CanSettle(w: World, m: Allocations, r: Tracks, job: Job) {
    && (forall g :: g in job.groups ==> NoRefusal(w, job.groups, g.name, m))
    && (forall id :: id in m && m[id].jobId == job.id && m[id].IsActive() ==> DriversOf(w, TasksOf(r, id)))
  }

  /** So it does when it rolls the job over to these groups: their starts are not refused
      either, nothing active is newer than the job, and only what is stored is tracked. */
  ghost predicate CanRoll(w: World, m: Allocations, r: Tracks, job: Job, groups: seq<TaskGroup>) {
    && (forall g :: Survives(groups, g) ==> NoRefusal(w, groups, g, m))
    && NoneNewer(m, job.id, job.version) && r.Keys <= m.Keys
  }

  /** Rolled over: the numbers are those the old spec desires, zero for a group that is gone,
      and all is of the new version. */
  ghost predicate Rolled(m: Allocations, job: Job, groups: seq<TaskGroup>, n: nat) {
    && (forall i :: 0 <= i < |job.groups| ==>
        |ActiveIds(m, job.id, job.groups[i].name)| ==
            if !Survives(groups, job.groups[i].name) then 0
            else if job.jobType == System then n else job.groups[i].count)
    && (forall id :: id in m && m[id].jobId == job.id && m[id].IsActive() ==> m[id].jobVersion == job.version + 1)
  }

  /** Where its turn brings a running job with distinct group names and a usable node, when its
      own starts and stops succeed. */
  ghost predicate Arrives(config: Config, tick: nat, w: World, f: Flakes, job: Job, m: Allocations, r: Tracks,
                          m': Allocations, usable: set<string>)
    requires config.Valid()
  {
    job.status == JobRunning && DistinctGroups(job.groups) && usable != {} && CanSettle(w, m, r, job) ==>
      if !Drifts(config, tick, job, f) then AtDesired(m', job, |usable|)
      else
        CanRoll(w, m, r, job, Drifted(job, f).value.groups) ==>
          Rolled(m', job, Drifted(job, f).value.groups, |usable|)
  }

  lemma RollAfterCount(w: World, job: Job, m: Allocations, r: Tracks, m1: Allocations, r1: Tracks, m2: Allocations,
                       r2: Tracks, nodeIds: set<string>, groups: seq<TaskGroup>)
    requires Keyed(m, AllocationKey) && Checkup(w, job, m, r, m1, r1, nodeIds)
    requires Advances(m1, m2, job.id, nodeIds) && TracksAdvance(w, job.groups, m1, r1, m2, r2)
    requires CanSettle(w, m, r, job) && CanRoll(w, m, r, job, groups)
    ensures CanUpdate(w, groups, m2, r2, job.id, groups)
  {
    hide CheckedUp, RefusedStart, DriversOf, DistinctSpecs, DistinctTasks, NoneNewer;
    assert m.Keys <= m2.Keys;
    forall id | id in m2 && m2[id].jobId == job.id && m2[id].IsActive()
      ensures CanReplace(w, groups, m2, m2[id].groupName, groups) && DriversOf(w, TasksOf(r2, id))
    {
      if id in m {
        OldDrivers(w, job, m, r, m1, r1, m2, nodeIds, id);
      }
      assert DriversOf(w, []) by { NoDrivers(w); }
    }
  }

  lemma NoDrivers(w: World)
    ensures DriversOf(w, [])
  {}

  /** The drivers of one that stays active. */
  lemma OldDrivers(w: World, job: Job, m: Allocations, r: Tracks, m1: Allocations, r1: Tracks, m2: Allocations,
                   nodeIds: set<string>, id: Uuid)
    requires Keyed(m, AllocationKey) && Checkup(w, job, m, r, m1, r1, nodeIds) && Advances(m1, m2, job.id, nodeIds)
    requires CanSettle(w, m, r, job) && id in m && m2[id].jobId == job.id && m2[id].IsActive()
    ensures DriversOf(w, TasksOf(r1, id)) && m1[id] == m2[id] && m[id].IsActive()
            && m[id].jobVersion == m2[id].jobVersion
  {
    hide CheckedUp, RefusedStart, DriversOf, NoRefusal;
    assert Quiet(m1[id], m2[id]) && AllocationKey(m[id]) == id;
    if m[id].jobId == job.id {
      CheckedUpMoves(w, job, m[id], r, m1[id], r1, nodeIds);
      CheckedUpDrivers(w, job, m[id], r, m1[id], r1, nodeIds);
    }
  }

  lemma NoneNewerAfterCount(w: World, job: Job, m: Allocations, r: Tracks, m1: Allocations, r1: Tracks, m2: Allocations,
                            nodeIds: set<string>, ready: seq<Node>, listed: seq<Allocation>)
    requires Keyed(m, AllocationKey) && Checkup(w, job, m, r, m1, r1, nodeIds) && Advances(m1, m2, job.id, nodeIds)
    requires NoneNewer(m, job.id, job.version) && AllNew(m1, m2, job, ready, listed)
    ensures NoneNewer(m2, job.id, job.version)
  {
    hide CheckedUp;
    forall id | id in m2 && m2[id].jobId == job.id && m2[id].IsActive() ensures m2[id].jobVersion <= job.version {
      if id in m {
        assert Quiet(m1[id], m2[id]) && AllocationKey(m[id]) == id;
        if m[id].jobId == job.id {
          CheckedUpMoves(w, job, m[id], r, m1[id], r1, nodeIds);
        }
      }
    }
  }

  lemma SettleAfterCheckup(w: World, job: Job, m: Allocations, r: Tracks, m1: Allocations, r1: Tracks,
                           nodeIds: set<string>, n: nat)
    requires Keyed(m, AllocationKey) && Checkup(w, job, m, r, m1, r1, nodeIds) && CanSettle(w, m, r, job)
    ensures CanBalanceAll(w, job.groups, m1, r1, job, n)
  {
    hide CheckedUp, RefusedStart, DriversOf, Desired;
    forall id | id in m1 && m1[id].jobId == job.id && m1[id].IsActive() ensures DriversOf(w, TasksOf(r1, id)) {
      assert AllocationKey(m[id]) == id;
      if m[id].jobId == job.id {
        CheckedUpMoves(w, job, m[id], r, m1[id], r1, nodeIds);
        CheckedUpDrivers(w, job, m[id], r, m1[id], r1, nodeIds);
      }
    }
  }

  lemma {:induction false} ReadyDistinct(nodes: seq<Node>)
    requires forall i, j :: 0 <= i < j < |nodes| ==> nodes[i].id != nodes[j].id
    ensures |NodeIds(Ready(nodes))| == |Ready(nodes)|
    decreases nodes
  {
    if nodes != [] {
      var rest := Ready(nodes[1..]);
      ReadyDistinct(nodes[1..]);
      ReadyMembers(nodes[1..]);
      forall n | n in rest ensures n.id != nodes[0].id {
        var i :| 0 <= i < |nodes| - 1 && nodes[1..][i] == n;
      }
      hide NodeIds;
      OneMoreNode(nodes[0], rest);
    }
  }

  lemma OneMoreNode(n: Node, rest: seq<Node>)
    requires forall x :: x in rest ==> x.id != n.id
    ensures |NodeIds([n] + rest)| == |NodeIds(rest)| + 1
  {
    var ids, ids' := NodeIds(rest), NodeIds([n] + rest);
    assert forall x :: x in [n] + rest <==> x == n || x in rest;
    forall id ensures id in ids' <==> id == n.id || id in ids {
      if id in ids {
        var x :| x in rest && x.id == id;
      }
      assert n in [n] + rest;
    }
    hide NodeIds;
    assert n.id !in ids && ids' == ids + {n.id};
  }

  /** A listing of the nodes has each usable one once. */
  lemma UsableCount(m: map<string, Node>, nodes: seq<Node>)
    requires Keyed(m, NodeKey) && ListsValues(m, nodes, NodeKey)
    ensures |Ready(nodes)| == |UsableIds(m)|
  {
    ReadyMembers(nodes);
    forall i, j | 0 <= i < j < |nodes| ensures nodes[i].id != nodes[j].id {
      assert NodeKey(nodes[i]) != NodeKey(nodes[j]);
    }
    ReadyDistinct(nodes);
    forall id ensures id in NodeIds(Ready(nodes)) <==> id in UsableIds(m) {
      if id in NodeIds(Ready(nodes)) {
        var n :| n in Ready(nodes) && n.id == id;
        var i :| 0 <= i < |nodes| && nodes[i] == n;
        assert NodeKey(nodes[i]) in m;
      }
      if id in UsableIds(m) {
        assert NodeKey(m[id]) == id && m[id] in nodes && m[id] in Ready(nodes);
      }
    }
    assert NodeIds(Ready(nodes)) == UsableIds(m);
  }

  // ---- all passes over one job ----

  /** A listing of the job's allocations has each of them once, as it is. */
  lemma Listed(m: Allocations, jobId: string, allocs: seq<Allocation>)
    requires Keyed(m, AllocationKey) && ListsValues(OfJob(m, jobId), allocs, AllocationKey)
    ensures DistinctIds(allocs)
    ensures forall a :: a in allocs ==> a.id in m && m[a.id] == a && a.jobId == jobId
    ensures forall id :: id in m && m[id].jobId == jobId ==> m[id] in allocs && m[id].id == id
    ensures forall id :: id in Ids(allocs) <==> id in m && m[id].jobId == jobId
  {
    forall i, j | 0 <= i < j < |allocs| ensures allocs[i].id != allocs[j].id {
      assert AllocationKey(allocs[i]) != AllocationKey(allocs[j]);
    }
    forall a | a in allocs ensures a.id in m && m[a.id] == a && a.jobId == jobId {
      var i :| 0 <= i < |allocs| && allocs[i] == a;
      assert AllocationKey(allocs[i]) in OfJob(m, jobId);
    }
    forall id | id in m && m[id].jobId == jobId ensures m[id] in allocs && m[id].id == id {
      assert id in OfJob(m, jobId) && AllocationKey(m[id]) == id;
    }
  }

  /** Passes 1 and 2, both on one listing. */
  method CheckJob(ex: Executor, job: Job, nodeIds: set<string>, w: World)
    requires ex.store.Valid() && job.id in ex.store.jobs && ex.store.jobs[job.id] == job
    modifies ex.store`allocations, ex`running
    ensures Checkup(w, job, old(ex.store.allocations), old(ex.running), ex.store.allocations, ex.running, nodeIds)
  {
    hide CheckedAs, CheckedUp, Ids, HealthOf, Survived;
    ghost var m, r := ex.store.allocations, ex.running;
    var allocs := ex.store.ListAllocationsForJob(job.id);
    Listed(m, job.id, allocs);
    ReconcileHealth(ex, job, allocs, w);
    ghost var m1 := ex.store.allocations;
    ReconcileNodeLiveness(ex, allocs, nodeIds);
    forall id | id in m && m[id].jobId == job.id
      ensures CheckedUp(w, job, m[id], r, ex.store.allocations[id], ex.running, nodeIds)
    {
      assert CheckedAs(w, job.groups, job, r, m[id], m1, ex.running);
      ChecksMeet(w, job, r, m[id], m1, ex.running, ex.store.allocations[id], nodeIds);
    }
  }

  lemma ChecksMeet(w: World, job: Job, r: Tracks, a: Allocation, m1: Allocations, r1: Tracks, b: Allocation,
                   nodeIds: set<string>)
    requires CheckedAs(w, job.groups, job, r, a, m1, r1) && b == Survived(a, m1[a.id], nodeIds)
    ensures CheckedUp(w, job, a, r, b, r1, nodeIds)
  {
    hide HealthOf, Survived;
  }

  /** The drift pass is due and sees another spec. */
  ghost predicate Drifts(config: Config, tick: nat, job: Job, f: Flakes)
    requires config.Valid()
  {
    config.DriftDue(tick, job) && Drifted(job, f).Some?
  }

  /** The tick's drift pass leaves the job's groups as they are. */
  ghost predicate GroupsKept(config: Config, tick: nat, job: Job, f: Flakes)
    requires config.Valid()
  {
    Drifts(config, tick, job, f) ==> Drifted(job, f).value.groups == job.groups
  }

  /** A tick's passes on the job itself leave the record of one that is not dead with the spec its
      flake has drifted to, under the next version, when the drift pass is due for it: every
      so many ticks, for service jobs. Any other record stays. */
  ghost predicate RecordAfter(config: Config, tick: nat, f: Flakes, was: Job, now: Job)
    requires config.Valid()
  {
    if was.status != JobDead && config.driftDetection && tick % config.reevalEveryN == 0 && was.jobType == Service
      && Drifted(was, f).Some?
    then
      var spec := Drifted(was, f).value;
      TakesOver(was, now, spec, f.hash(spec), was.version + 1)
    else now == was
  }

  ghost predicate OnlyJob(jobs: map<string, Job>, jobs': map<string, Job>, id: string) {
    jobs'.Keys == jobs.Keys && forall k :: k in jobs && k != id ==> jobs'[k] == jobs[k]
  }

  /** Restarts stay bounded and every allocation of the job meets its fate. */
  ghost predicate OwnStep(w: World, job: Job, m: Allocations, r: Tracks, m': Allocations, r': Tracks) {
    && (Bounded(job.groups, job.id, m, r) ==> Bounded(job.groups, job.id, m', r'))
    && (forall id :: id in m && m[id].jobId == job.id ==> id in m' && Fate(w, job.groups, m[id], r, m'[id], r'))
  }

  lemma OwnFromPasses(w: World, job: Job, m: Allocations, r: Tracks, m1: Allocations, r1: Tracks, m2: Allocations,
                      r2: Tracks, nodeIds: set<string>)
    requires Keyed(m, AllocationKey) && Checkup(w, job, m, r, m1, r1, nodeIds)
    requires Advances(m1, m2, job.id, nodeIds) && TracksAdvance(w, job.groups, m1, r1, m2, r2)
    ensures OwnStep(w, job, m, r, m2, r2)
  {
    hide Checkup, Fate, Bounded, Advances, TracksAdvance;
    if Bounded(job.groups, job.id, m, r) {
      CheckupBounded(w, job, m, r, m1, r1, nodeIds);
      AdvancesBounded(w, job.groups, m1, r1, m2, r2, job.id, nodeIds);
    }
    forall id | id in m && m[id].jobId == job.id ensures id in m2 && Fate(w, job.groups, m[id], r, m2[id], r2) {
      MeetsFate(w, job, m, r, m1, r1, m2, r2, nodeIds, id);
    }
  }

  /** A pass that advances, after those before it. */
  lemma ThenAdvancesAside(w: World, groups: seq<TaskGroup>, m: Allocations, r: Tracks, m1: Allocations, r1: Tracks,
                          m2: Allocations, r2: Tracks, jobId: string, nodeIds: set<string>)
    requires JobStep(m, m1, jobId, nodeIds) && Aside(w, m, r, m1, r1, jobId)
    requires Advances(m1, m2, jobId, nodeIds) && TracksAdvance(w, groups, m1, r1, m2, r2)
    ensures JobStep(m, m2, jobId, nodeIds) && Aside(w, m, r, m2, r2, jobId)
  {
    hide Aside, TracksAdvance, OnKnownNode, Moves;
    ThenAdvances(m, m1, m2, jobId, nodeIds);
    AdvancesAside(w, groups, m1, r1, m2, r2, jobId, nodeIds);
    hide Quiet, IsNew;
    AsideJoin(w, m, r, m1, r1, m2, r2, jobId);
  }

  /** Passes 1 to 3 of the loop body; `m1` and `r1` are what the first two leave. */
  method CheckAndCount(ex: Executor, job: Job, nodes: seq<Node>, nodeIds: set<string>, w: World, ghost f: Flakes)
    returns (ghost m1: Allocations, ghost r1: Tracks)
    requires ex.store.Valid() && job.id in ex.store.jobs && ex.store.jobs[job.id] == job
    requires ListsValues(ex.store.nodes, nodes, NodeKey) && nodeIds == ex.store.nodes.Keys
    modifies ex.store`allocations, ex`running
    ensures ex.store.Valid()
    ensures Checkup(w, job, old(ex.store.allocations), old(ex.running), m1, r1, nodeIds)
    ensures Advances(m1, ex.store.allocations, job.id, nodeIds)
            && TracksAdvance(w, job.groups, m1, r1, ex.store.allocations, ex.running)
    ensures JobStep(old(ex.store.allocations), ex.store.allocations, job.id, nodeIds)
            && Aside(w, old(ex.store.allocations), old(ex.running), ex.store.allocations, ex.running, job.id)
    ensures NoneNewer(old(ex.store.allocations), job.id, job.version) ==>
              NoneNewer(ex.store.allocations, job.id, job.version)
    ensures CountSettles(w, job, old(ex.store.allocations), old(ex.running), ex.store.allocations,
                         UsableIds(ex.store.nodes))
    ensures CountReadies(w, job, f, old(ex.store.allocations), old(ex.running), ex.store.allocations, ex.running)
  {
    hide Checkup, Advances, TracksAdvance, JobStep, Aside, Ready, NodeIds, Drifted, AllNew, CanSettle, CanRoll,
         AtDesired, UsableIds, DistinctGroups, CanBalanceAll, AllBalanced, CanUpdate, NoneNewer, AllPlacedFairly;
    ghost var m, r := ex.store.allocations, ex.running;
    CheckJob(ex, job, nodeIds, w);
    m1, r1 := ex.store.allocations, ex.running;
    CheckupStep(w, job, m, r, m1, r1, nodeIds);
    CheckupAside(w, job, m, r, m1, r1, nodeIds);
    if CanSettle(w, m, r, job) {
      SettleAfterCheckup(w, job, m, r, m1, r1, nodeIds, |Ready(nodes)|);
    }
    ghost var listed := ReconcileCount(ex, job, nodes, w);
    ghost var m2, r2 := ex.store.allocations, ex.running;
    ReadyListed(ex.store.nodes, nodes);
    UsableCount(ex.store.nodes, nodes);
    AdvancesWiden(m1, m2, job.id, NodeIds(Ready(nodes)), nodeIds);
    if NoneNewer(m, job.id, job.version) {
      NoneNewerAfterCount(w, job, m, r, m1, r1, m2, nodeIds, Ready(nodes), listed);
    }
    ReadyToRoll(w, job, f, m, r, m1, r1, m2, r2, nodeIds, Ready(nodes), listed);
    ThenAdvancesAside(w, job.groups, m, r, m1, r1, m2, r2, job.id, nodeIds);
  }

  /** The count pass reaches the desired numbers. */
  ghost predicate CountSettles(w: World, job: Job, m: Allocations, r: Tracks, m2: Allocations, usable: set<string>) {
    job.status == JobRunning && DistinctGroups(job.groups) && usable != {} && CanSettle(w, m, r, job) ==>
      AtDesired(m2, job, |usable|)
  }

  /** It leaves an update to the spec of the flake able to go through. */
  ghost predicate CountReadies(w: World, job: Job, f: Flakes, m: Allocations, r: Tracks, m2: Allocations, r2: Tracks) {
    CanSettle(w, m, r, job) && Drifted(job, f).Some? && CanRoll(w, m, r, job, Drifted(job, f).value.groups) ==>
      && CanUpdate(w, Drifted(job, f).value.groups, m2, r2, job.id, Drifted(job, f).value.groups)
      && NoneNewer(m2, job.id, job.version)
  }

  /** The body of the tick's loop over jobs that are not dead. */
  method ReconcileJob(ex: Executor, config: Config, tick: nat, job: Job, nodes: seq<Node>, nodeIds: set<string>,
                      w: World, f: Flakes)
    requires ex.store.Valid() && config.Valid()
    requires ListsValues(ex.store.nodes, nodes, NodeKey) && nodeIds == ex.store.nodes.Keys
    requires job.id in ex.store.jobs && ex.store.jobs[job.id] == job
    modifies ex.store`jobs, ex.store`allocations, ex`running
    ensures ex.store.Valid()
    ensures JobStep(old(ex.store.allocations), ex.store.allocations, job.id, nodeIds)
    ensures Aside(w, old(ex.store.allocations), old(ex.running), ex.store.allocations, ex.running, job.id)
    ensures OnlyJob(old(ex.store.jobs), ex.store.jobs, job.id)
    ensures job.status != JobDead ==> RecordAfter(config, tick, f, job, ex.store.jobs[job.id])
    ensures NoneNewer(old(ex.store.allocations), job.id, job.version) ==>
              NoneNewer(ex.store.allocations, job.id, ex.store.jobs[job.id].version)
    ensures GroupsKept(config, tick, job, f) ==>
              OwnStep(w, job, old(ex.store.allocations), old(ex.running), ex.store.allocations, ex.running)
    ensures Arrives(config, tick, w, f, job, old(ex.store.allocations), old(ex.running), ex.store.allocations,
                    UsableIds(ex.store.nodes))
  {
    hide Checkup, Advances, TracksAdvance, JobStep, OwnStep, Aside, Ready, NodeIds, Updated, Drifted, AllNew;
    hide AllInPlace, Outdated, CanSettle, CanRoll, AtDesired, UsableIds, DistinctGroups, CanBalanceAll, AllBalanced,
         CanUpdate, NoneNewer, RolledOver, NeverFewer, Arrives, AllPlacedFairly, TakesOver, RecordAfter, JobsUpdated,
         GroupsKept, StepByStep;
    ghost var m, r := ex.store.allocations, ex.running;
    ghost var m1, r1 := CheckAndCount(ex, job, nodes, nodeIds, w, f);
    ghost var m2, r2, usable := ex.store.allocations, ex.running, UsableIds(ex.store.nodes);
    if config.driftDetection && tick % config.reevalEveryN == 0 && job.jobType == Service {
      ghost var trace, before, nodes' := ReconcileDrift(ex, job, f, w);
      ghost var groups := GroupsIn(ex.store.jobs, job.id);
      ThenAdvancesAside(w, groups, m, r, m2, r2, ex.store.allocations, ex.running, job.id, nodeIds);
      RecordOfDrift(config, tick, old(ex.store.jobs), job, f, ex.store.jobs);
      if GroupsKept(config, tick, job, f) {
        assert groups == job.groups by { KeptGroups(config, tick, old(ex.store.jobs), job, f, ex.store.jobs); }
        AdvancesTransitive(m1, m2, ex.store.allocations, job.id, nodeIds);
        TracksTransitive(w, groups, m1, r1, m2, r2, ex.store.allocations, ex.running, job.id, nodeIds);
        OwnFromPasses(w, job, m, r, m1, r1, ex.store.allocations, ex.running, nodeIds);
      }
      SpecGroups(old(ex.store.jobs), job, f, ex.store.jobs);
    } else {
      OwnFromPasses(w, job, m, r, m1, r1, m2, r2, nodeIds);
      RecordStays(config, tick, job, f);
    }
    Arrived(config, tick, w, f, job, m, r, m2, ex.store.allocations, usable);
  }

  /** The record the drift pass leaves. */
  lemma RecordOfDrift(config: Config, tick: nat, jobs: map<string, Job>, job: Job, f: Flakes, jobs': map<string, Job>)
    requires config.Valid() && job.id in jobs && jobs[job.id] == job
    requires config.driftDetection && tick % config.reevalEveryN == 0 && job.jobType == Service
    requires Drifted(job, f).None? ==> jobs' == jobs
    requires Drifted(job, f).Some? ==>
               && jobs'.Keys == jobs.Keys && (forall id :: id in jobs && id != job.id ==> jobs'[id] == jobs[id])
               && var spec := Drifted(job, f).value;
                  job.id in jobs' && TakesOver(job, jobs'[job.id], spec, f.hash(spec), job.version + 1)
    ensures OnlyJob(jobs, jobs', job.id) && (job.status != JobDead ==> RecordAfter(config, tick, f, job, jobs'[job.id]))
    ensures jobs'[job.id].version == if Drifted(job, f).Some? then job.version + 1 else job.version
  {
    hide Drifted;
  }

  lemma RecordStays(config: Config, tick: nat, job: Job, f: Flakes)
    requires config.Valid() && !(config.driftDetection && tick % config.reevalEveryN == 0 && job.jobType == Service)
    ensures RecordAfter(config, tick, f, job, job) && !Drifts(config, tick, job, f)
  {}

  lemma KeptGroups(config: Config, tick: nat, jobs: map<string, Job>, job: Job, f: Flakes, jobs': map<string, Job>)
    requires config.Valid() && GroupsKept(config, tick, job, f) && job.id in jobs && jobs[job.id] == job
    requires config.driftDetection && tick % config.reevalEveryN == 0 && job.jobType == Service
    requires if Drifted(job, f).None? then jobs' == jobs else jobs' == JobsUpdated(jobs, job, Drifted(job, f).value, f)
    ensures GroupsIn(jobs', job.id) == job.groups
  {
    hide Drifted;
    SameGroups(jobs, job, f, jobs');
  }

  lemma SpecGroups(jobs: map<string, Job>, job: Job, f: Flakes, jobs': map<string, Job>)
    requires job.id in jobs && (Drifted(job, f).Some? ==> jobs' == JobsUpdated(jobs, job, Drifted(job, f).value, f))
    ensures Drifted(job, f).Some? ==> GroupsIn(jobs', job.id) == Drifted(job, f).value.groups
  {}

  lemma ReadyToRoll(w: World, job: Job, f: Flakes, m: Allocations, r: Tracks, m1: Allocations, r1: Tracks,
                    m2: Allocations, r2: Tracks, nodeIds: set<string>, ready: seq<Node>, listed: seq<Allocation>)
    requires Keyed(m, AllocationKey) && Checkup(w, job, m, r, m1, r1, nodeIds)
    requires Advances(m1, m2, job.id, nodeIds) && TracksAdvance(w, job.groups, m1, r1, m2, r2)
             && AllNew(m1, m2, job, ready, listed)
    ensures CanSettle(w, m, r, job) && Drifted(job, f).Some? && CanRoll(w, m, r, job, Drifted(job, f).value.groups) ==>
              && CanUpdate(w, Drifted(job, f).value.groups, m2, r2, job.id, Drifted(job, f).value.groups)
              && NoneNewer(m2, job.id, job.version)
  {
    hide Checkup, Advances, TracksAdvance, AllNew, CanSettle, CanUpdate, NoneNewer, Drifted;
    if CanSettle(w, m, r, job) && Drifted(job, f).Some? && CanRoll(w, m, r, job, Drifted(job, f).value.groups) {
      RollAfterCount(w, job, m, r, m1, r1, m2, r2, nodeIds, Drifted(job, f).value.groups);
      NoneNewerAfterCount(w, job, m, r, m1, r1, m2, nodeIds, ready, listed);
    }
  }

  lemma Arrived(config: Config, tick: nat, w: World, f: Flakes, job: Job, m: Allocations, r: Tracks, m2: Allocations,
                m3: Allocations, usable: set<string>)
    requires config.Valid()
    requires job.status == JobRunning && DistinctGroups(job.groups) && usable != {} && CanSettle(w, m, r, job) ==>
               AtDesired(m2, job, |usable|)
    requires !Drifts(config, tick, job, f) ==> m3 == m2
    requires Drifts(config, tick, job, f) && usable != {} && CanSettle(w, m, r, job)
             && CanRoll(w, m, r, job, Drifted(job, f).value.groups) ==>
               RolledOver(m2, m3, job, Drifted(job, f).value)
    ensures Arrives(config, tick, w, f, job, m, r, m3, usable)
  {
    hide ActiveIds, CanSettle, CanRoll, Desired, DistinctGroups;
  }

  lemma SameGroups(jobs: map<string, Job>, job: Job, f: Flakes, jobs': map<string, Job>)
    requires job.id in jobs && jobs[job.id] == job
    requires if Drifted(job, f).None? then jobs' == jobs else jobs' == JobsUpdated(jobs, job, Drifted(job, f).value, f)
    requires Drifted(job, f).Some? ==> Drifted(job, f).value.groups == job.groups
    ensures GroupsIn(jobs', job.id) == job.groups
  {}
}

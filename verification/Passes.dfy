/** What every pass of a reconciler tick does to the allocations of one job, and the
    counting of active allocations. */
module Passes {
  import opened Common
  import opened Domain
  import opened StateStore
  import opened Executor

  type Allocations = map<Uuid, Allocation>

  /** The same allocation later: a terminal one stays terminal. */
  ghost predicate Moves(a: Allocation, b: Allocation) {
    SameIdentity(a, b) && b.taskStates.Keys == a.taskStates.Keys && (a.IsTerminal() ==> b.IsTerminal())
  }

  /** As Moves, and no restart is counted: it is stopped or left alone. */
  ghost predicate Quiet(a: Allocation, b: Allocation) {
    Moves(a, b) && KeepsRestarts(a, b) && (b == a || b.IsTerminal())
  }

  /** A pass over job `jobId`: other jobs' allocations are untouched, this job's only
      move on, and new ones are this job's, on one of the given nodes, with no restarts. */
  ghost predicate Advances(m: Allocations, m': Allocations, jobId: string, nodeIds: set<string>) {
    && (forall id :: id in m ==> id in m' && Quiet(m[id], m'[id]))
    && (forall id :: id in m && m[id].jobId != jobId ==> m'[id] == m[id])
    && (forall id :: id in m' && id !in m ==> IsNew(m'[id], id, jobId, nodeIds))
  }

  ghost predicate IsNew(a: Allocation, id: Uuid, jobId: string, nodeIds: set<string>) {
    a.id == id && a.jobId == jobId && a.nodeId in nodeIds && forall t :: Restarts(a, t) == 0
  }

  lemma AdvancesReflexive(m: Allocations, jobId: string, nodeIds: set<string>)
    ensures Advances(m, m, jobId, nodeIds)
  {}

  lemma QuietTransitive(a: Allocation, b: Allocation, c: Allocation)
    requires Quiet(a, b) && Quiet(b, c)
    ensures Quiet(a, c)
  {}

  lemma AdvancesTransitive(m: Allocations, m': Allocations, m'': Allocations, jobId: string, nodeIds: set<string>)
    requires Advances(m, m', jobId, nodeIds) && Advances(m', m'', jobId, nodeIds)
    ensures Advances(m, m'', jobId, nodeIds)
  {
    forall id | id in m ensures id in m'' && Quiet(m[id], m''[id]) {
      QuietTransitive(m[id], m'[id], m''[id]);
    }
    forall id | id in m'' && id !in m ensures IsNew(m''[id], id, jobId, nodeIds) {
      if id in m' {
        assert IsNew(m'[id], id, jobId, nodeIds) && Quiet(m'[id], m''[id]);
      }
    }
  }

  lemma AdvancesKeyed(m: Allocations, m': Allocations, jobId: string, nodeIds: set<string>)
    requires Advances(m, m', jobId, nodeIds) && Keyed(m, AllocationKey)
    ensures Keyed(m', AllocationKey)
  {
    forall k | k in m' ensures AllocationKey(m'[k]) == k {
      if k in m {
        assert Quiet(m[k], m'[k]);
      } else {
        assert IsNew(m'[k], k, jobId, nodeIds);
      }
    }
  }

  // ---- running tasks ----

  ghost predicate DistinctTasks(tasks: seq<RunningTask>) {
    forall i, j :: 0 <= i < j < |tasks| ==> tasks[i].taskName != tasks[j].taskName
  }

  /** The tasks of every group have distinct names. */
  ghost predicate DistinctSpecs(groups: seq<TaskGroup>) {
    forall g :: g in groups ==> forall i, j :: 0 <= i < j < |g.tasks| ==> g.tasks[i].name != g.tasks[j].name
  }

  type Tracks = map<Uuid, seq<RunningTask>>

  /** A new allocation's tasks, as distinct as the groups they come from; all have started. */
  ghost predicate NewTrack(w: World, groups: seq<TaskGroup>, m': Allocations, r': Tracks, id: Uuid)
    requires id in r'
  {
    id in m' && (DistinctSpecs(groups) ==> DistinctTasks(r'[id])) && DriversOf(w, r'[id])
  }

  /** What the executor tracks for an allocation of `m` is kept or dropped, never changed;
      what it starts to track is as distinct as the specs; and an allocation whose drivers
      all exist is dropped only by being stopped. */
  ghost predicate TracksAdvance(w: World, groups: seq<TaskGroup>, m: Allocations, r: Tracks, m': Allocations,
                                r': Tracks)
  {
    && (forall id :: id in r' && id in m ==> id in r && r'[id] == r[id])
    && (forall id :: id in r' && id !in m ==> (id in r && r'[id] == r[id]) || NewTrack(w, groups, m', r', id))
    && (forall id :: id in r && id in m && id !in r' && DriversOf(w, r[id]) ==> id in m' && m'[id].IsTerminal())
  }

  lemma TracksReflexive(w: World, groups: seq<TaskGroup>, m: Allocations, r: Tracks)
    ensures TracksAdvance(w, groups, m, r, m, r)
  {}

  lemma TracksTransitive(w: World, groups: seq<TaskGroup>, m: Allocations, r: Tracks, m': Allocations, r': Tracks,
                         m'': Allocations, r'': Tracks, jobId: string, nodeIds: set<string>)
    requires Advances(m, m', jobId, nodeIds) && Advances(m', m'', jobId, nodeIds)
    requires TracksAdvance(w, groups, m, r, m', r') && TracksAdvance(w, groups, m', r', m'', r'')
    ensures TracksAdvance(w, groups, m, r, m'', r'')
  {
    hide DistinctSpecs, DistinctTasks, DriversOf, Advances, NewTrack;
    forall id | id in r && id in m && id !in r'' && DriversOf(w, r[id]) ensures id in m'' && m''[id].IsTerminal() {
      DroppedEnds(w, groups, m, r, m', r', m'', r'', jobId, nodeIds, id);
    }
    forall id | id in r'' && id !in m ensures (id in r && r''[id] == r[id]) || NewTrack(w, groups, m'', r'', id) {
      KeptOrNew(w, groups, m, r, m', r', m'', r'', jobId, nodeIds, id);
    }
    assert m.Keys <= m'.Keys by { AdvancesOnly(m, m', jobId, nodeIds); }
  }

  lemma AdvancesOnly(m: Allocations, m': Allocations, jobId: string, nodeIds: set<string>)
    requires Advances(m, m', jobId, nodeIds)
    ensures m.Keys <= m'.Keys
  {}

  lemma DroppedEnds(w: World, groups: seq<TaskGroup>, m: Allocations, r: Tracks, m': Allocations, r': Tracks,
                    m'': Allocations, r'': Tracks, jobId: string, nodeIds: set<string>, id: Uuid)
    requires Advances(m, m', jobId, nodeIds) && Advances(m', m'', jobId, nodeIds)
    requires TracksAdvance(w, groups, m, r, m', r') && TracksAdvance(w, groups, m', r', m'', r'')
    requires id in r && id in m && id !in r'' && DriversOf(w, r[id])
    ensures id in m'' && m''[id].IsTerminal()
  {
    hide DriversOf, NewTrack, IsNew, SameIdentity, KeepsRestarts;
    assert Quiet(m[id], m'[id]) && Quiet(m'[id], m''[id]);
  }

  lemma KeptOrNew(w: World, groups: seq<TaskGroup>, m: Allocations, r: Tracks, m': Allocations, r': Tracks,
                  m'': Allocations, r'': Tracks, jobId: string, nodeIds: set<string>, id: Uuid)
    requires Advances(m, m', jobId, nodeIds) && Advances(m', m'', jobId, nodeIds)
    requires TracksAdvance(w, groups, m, r, m', r') && TracksAdvance(w, groups, m', r', m'', r'')
    requires id in r'' && id !in m
    ensures (id in r && r''[id] == r[id]) || NewTrack(w, groups, m'', r'', id)
  {
    AdvancesOnly(m', m'', jobId, nodeIds);
    hide Advances, DriversOf, DistinctSpecs, DistinctTasks;
  }

  lemma TracksDrop(w: World, groups: seq<TaskGroup>, m: Allocations, r: Tracks, m': Allocations, id: Uuid)
    requires DriversOf(w, TasksOf(r, id)) && id in m ==> id in m' && m'[id].IsTerminal()
    ensures TracksAdvance(w, groups, m, r, m', r - {id})
  {}

  lemma StartedDistinct(w: World, jobs: map<string, Job>, a: Allocation)
    requires GroupOf(jobs, a).Some?
    ensures DistinctSpecs(GroupsIn(jobs, a.jobId)) ==> DistinctTasks(Tracking(GroupOf(jobs, a).value.tasks))
    ensures Startable(w, jobs, a) ==> DriversOf(w, Tracking(GroupOf(jobs, a).value.tasks))
  {
    var g := GroupOf(jobs, a).value;
    assert g in GroupsIn(jobs, a.jobId);
  }

  // ---- active allocations ----

  function ActiveIds(m: Allocations, jobId: string, group: string): set<Uuid> {
    set id | id in m && m[id].jobId == jobId && m[id].groupName == group && m[id].IsActive()
  }

  /** The active allocations of the group in a listing, in list order. */
  function ActiveOf(allocs: seq<Allocation>, group: string): (r: seq<Allocation>)
    ensures |r| <= |allocs|
  {
    if allocs == [] then []
    else if allocs[0].groupName == group && allocs[0].IsActive() then [allocs[0]] + ActiveOf(allocs[1..], group)
    else ActiveOf(allocs[1..], group)
  }

  function Ids(allocs: seq<Allocation>): set<Uuid> {
    set a | a in allocs :: a.id
  }

  ghost predicate DistinctIds(allocs: seq<Allocation>) {
    forall i, j :: 0 <= i < j < |allocs| ==> allocs[i].id != allocs[j].id
  }

  lemma {:induction false} ActiveOfMembers(allocs: seq<Allocation>, group: string)
    ensures forall a :: a in ActiveOf(allocs, group) <==> a in allocs && a.groupName == group && a.IsActive()
    decreases allocs
  {
    if allocs != [] {
      ActiveOfMembers(allocs[1..], group);
      assert forall a :: a in allocs <==> a == allocs[0] || a in allocs[1..];
    }
  }

  lemma {:induction false} ActiveOfDistinct(allocs: seq<Allocation>, group: string)
    requires DistinctIds(allocs)
    ensures DistinctIds(ActiveOf(allocs, group))
    decreases allocs
  {
    if allocs != [] {
      var rest := allocs[1..];
      ActiveOfDistinct(rest, group);
      ActiveOfMembers(rest, group);
      var r := ActiveOf(rest, group);
      forall i | 0 <= i < |r| ensures r[i].id != allocs[0].id {
        assert r[i] in rest;
      }
    }
  }

  lemma {:induction false} DistinctCount(allocs: seq<Allocation>)
    requires DistinctIds(allocs)
    ensures |Ids(allocs)| == |allocs|
    decreases allocs
  {
    if allocs != [] {
      var n := |allocs| - 1;
      DistinctCount(allocs[..n]);
      assert Ids(allocs) == Ids(allocs[..n]) + {allocs[n].id};
      assert allocs[n].id !in Ids(allocs[..n]);
    }
  }

  /** A listing of the job's allocations sees exactly the active ones. */
  lemma ListingIsActive(m: Allocations, jobId: string, group: string, allocs: seq<Allocation>)
    requires Keyed(m, AllocationKey) && ListsValues(OfJob(m, jobId), allocs, AllocationKey)
    ensures Ids(ActiveOf(allocs, group)) == ActiveIds(m, jobId, group)
    ensures |ActiveOf(allocs, group)| == |ActiveIds(m, jobId, group)| && DistinctIds(ActiveOf(allocs, group))
    ensures forall a :: a in ActiveOf(allocs, group) ==> a.id in m && m[a.id] == a
  {
    ActiveOfMembers(allocs, group);
    ActiveOfDistinct(allocs, group);
    DistinctCount(ActiveOf(allocs, group));
    var r := ActiveOf(allocs, group);
    forall id ensures id in Ids(r) <==> id in ActiveIds(m, jobId, group) {
      if id in ActiveIds(m, jobId, group) {
        assert id in OfJob(m, jobId);
        assert m[id] in allocs && m[id].id == id;
        assert m[id] in r;
      }
    }
  }

  // ---- fresh ids ----

  lemma {:induction false} UpperBound(s: set<Uuid>) returns (b: Uuid)
    ensures forall x :: x in s ==> x < b
    decreases s
  {
    b := 0;
    if s != {} {
      var x :| x in s;
      b := UpperBound(s - {x});
      assert forall y :: y in s ==> y == x || y in s - {x};
      if x >= b {
        b := x + 1;
      }
    }
  }

  lemma FreshExists(s: set<Uuid>)
    ensures exists id: Uuid :: id !in s
  {
    var b := UpperBound(s);
    assert b !in s;
  }

  /** A new allocation of the group; its random id is one that is not in use. */
  method MakeAllocation(store: Store, job: Job, group: TaskGroup, nodeId: string, version: nat, now: Time)
    returns (a: Allocation)
    ensures a.id !in store.allocations && a.jobId == job.id && a.groupName == group.name && a.nodeId == nodeId
    ensures a.state == Pending && a.jobVersion == version && a.taskStates == NewTaskStates(group.tasks)
    ensures a.createdAt == now
  {
    FreshExists(store.allocations.Keys);
    var id: Uuid :| id !in store.allocations;
    a := Allocation(id, job.id, group.name, nodeId, Pending, now, NewTaskStates(group.tasks), version);
  }

  // ---- the effect of one start or stop on the counts ----

  /** Placing and starting a new allocation. */
  method PlaceAndStart(ex: Executor, a: Allocation, w: World, ghost nodeIds: set<string>) returns (ok: bool)
    requires a.id !in ex.store.allocations && a.state == Pending && a.nodeId in nodeIds
    requires forall t :: Restarts(a, t) == 0
    modifies ex.store`allocations, ex`running
    ensures ok <==> Startable(w, ex.store.jobs, a)
    ensures ex.store.allocations.Keys == old(ex.store.allocations).Keys + {a.id}
    ensures forall id :: id in old(ex.store.allocations) ==> ex.store.allocations[id] == old(ex.store.allocations)[id]
    ensures IsNew(ex.store.allocations[a.id], a.id, a.jobId, nodeIds) && SameIdentity(a, ex.store.allocations[a.id])
    ensures ex.store.allocations[a.id].taskStates.Keys == a.taskStates.Keys
    ensures ex.store.allocations[a.id].state ==
              if ok then Running else if RefusedStart(w, GroupOf(ex.store.jobs, a), a.id) then Failed else Pending
    ensures TracksAdvance(w, GroupsIn(ex.store.jobs, a.jobId), old(ex.store.allocations), old(ex.running),
                          ex.store.allocations, ex.running)
  {
    ex.store.PutAllocation(a);
    ok := ex.StartAllocation(a, w);
    if GroupOf(ex.store.jobs, a).Some? {
      StartKeeps(w, a.id, a, GroupOf(ex.store.jobs, a).value.tasks);
      StartedDistinct(w, ex.store.jobs, a);
    }
    assert TracksAdvance(w, GroupsIn(ex.store.jobs, a.jobId), old(ex.store.allocations), old(ex.running),
                         ex.store.allocations, ex.running) by {
      hide DistinctSpecs, DistinctTasks, DriversOf;
    }
  }

  lemma PlacedAdvances(m: Allocations, m': Allocations, a: Allocation, nodeIds: set<string>)
    requires a.id !in m && m'.Keys == m.Keys + {a.id}
    requires forall id :: id in m ==> m'[id] == m[id]
    requires IsNew(m'[a.id], a.id, a.jobId, nodeIds)
    ensures Advances(m, m', a.jobId, nodeIds)
  {}

  lemma PlacedActive(m: Allocations, m': Allocations, a: Allocation, jobId: string, group: string)
    requires a.id !in m && m'.Keys == m.Keys + {a.id}
    requires forall id :: id in m ==> m'[id] == m[id]
    requires SameIdentity(a, m'[a.id])
    ensures ActiveIds(m', jobId, group) ==
              ActiveIds(m, jobId, group)
              + if a.jobId == jobId && a.groupName == group && m'[a.id].IsActive() then {a.id} else {}
  {}

  lemma StoppedQuiet(a: Allocation, now: Time)
    ensures Quiet(a, Stopped(a, now)) && Stopped(a, now).IsTerminal()
  {}

  lemma StopAdvances(m: Allocations, id: Uuid, now: Time, jobId: string, nodeIds: set<string>)
    requires id in m && m[id].jobId == jobId
    ensures Advances(m, m[id := Stopped(m[id], now)], jobId, nodeIds)
  {
    StoppedQuiet(m[id], now);
  }

  lemma StopActive(m: Allocations, id: Uuid, now: Time, jobId: string, group: string)
    requires id in m
    ensures ActiveIds(m[id := Stopped(m[id], now)], jobId, group) == ActiveIds(m, jobId, group) - {id}
  {}

  // ---- what a pass asks of the drivers ----

  /** No driver refuses to start a new allocation of the group. */
  ghost predicate NoRefusal(w: World, groups: seq<TaskGroup>, group: string, m: Allocations) {
    forall id :: id !in m ==> !RefusedStart(w, FindGroup(groups, group), id)
  }

  /** The drivers exist that whatever is tracked for these allocations runs under. */
  ghost predicate Stoppable(w: World, r: Tracks, ids: set<Uuid>) {
    forall id :: id in ids ==> DriversOf(w, TasksOf(r, id))
  }

  /** What a stop of each of these brings to an end. */
  ghost function Endable(w: World, r: Tracks, ids: set<Uuid>): set<Uuid> {
    set id | id in ids && DriversOf(w, TasksOf(r, id))
  }

  /** What is tracked for them later in a pass needs no other drivers. */
  lemma StaysStoppable(w: World, groups: seq<TaskGroup>, m: Allocations, r: Tracks, m': Allocations, r': Tracks,
                       ids: set<Uuid>)
    requires TracksAdvance(w, groups, m, r, m', r') && ids <= m.Keys && Stoppable(w, r, ids)
    ensures Stoppable(w, r', ids)
  {
    hide DistinctSpecs, DistinctTasks;
    forall id | id in ids ensures DriversOf(w, TasksOf(r', id)) {
      assert id in m && DriversOf(w, TasksOf(r, id));
    }
  }
}

/** The count pass (src/domain/reconciler.rs): brings every group of a running job to
    its desired number of active allocations. */
module CountPass {
  import opened Common
  import opened Domain
  import opened StateStore
  import opened Executor
  import opened Passes
  import opened Placement

  /** A system job wants one allocation of the group for each of the `n` usable nodes. */
  ghost function Desired(job: Job, group: TaskGroup, n: nat): nat {
    if job.jobType.System? then n else group.count
  }

  /** Non-terminal allocations of the group on the node, in the listing. */
  function Load(allocs: seq<Allocation>, nodeId: string, group: string): nat {
    if allocs == [] then 0
    else Load(allocs[..|allocs| - 1], nodeId, group)
         + (var a := allocs[|allocs| - 1]; if a.nodeId == nodeId && !a.IsTerminal() && a.groupName == group then 1
            else 0)
  }

  /** The first node with the fewest allocations of the group. */
  method LeastLoaded(ready: seq<Node>, allocs: seq<Allocation>, group: string) returns (n: Node)
    requires ready != []
    ensures forall k :: 0 <= k < |ready| ==> Load(allocs, n.id, group) <= Load(allocs, ready[k].id, group)
    ensures exists i :: 0 <= i < |ready| && ready[i] == n
                        && forall k :: 0 <= k < i ==> Load(allocs, n.id, group) < Load(allocs, ready[k].id, group)
  {
    n := ready[0];
    ghost var at := 0;
    for i := 1 to |ready|
      invariant 0 <= at < i && ready[at] == n
      invariant forall k :: 0 <= k < i ==> Load(allocs, n.id, group) <= Load(allocs, ready[k].id, group)
      invariant forall k :: 0 <= k < at ==> Load(allocs, n.id, group) < Load(allocs, ready[k].id, group)
    {
      if Load(allocs, ready[i].id, group) < Load(allocs, n.id, group) {
        n := ready[i];
        at := i;
      }
    }
  }

  ghost predicate NewestFirst(allocs: seq<Allocation>) {
    forall i, j :: 0 <= i < j < |allocs| ==> allocs[i].createdAt >= allocs[j].createdAt
  }

  /** Inserts behind all that are at least as new, so equal times keep their order. */
  function Insert(a: Allocation, sorted: seq<Allocation>): (r: seq<Allocation>)
    requires NewestFirst(sorted)
    ensures NewestFirst(r) && |r| == |sorted| + 1
    ensures forall x :: x in r <==> x == a || x in sorted
  {
    if sorted == [] then [a]
    else if sorted[0].createdAt >= a.createdAt then
      var rest := Insert(a, sorted[1..]);
      assert forall x :: x in sorted <==> x == sorted[0] || x in sorted[1..];
      assert forall j :: 0 <= j < |rest| ==> rest[j] in rest;
      assert forall k :: 0 <= k < |sorted[1..]| ==> sorted[1..][k] == sorted[k + 1];
      [sorted[0]] + rest
    else [a] + sorted
  }

  /** Those created at this time, in order. */
  ghost function CreatedAt(allocs: seq<Allocation>, t: Time): seq<Allocation> {
    if allocs == [] then []
    else (if allocs[0].createdAt == t then [allocs[0]] else []) + CreatedAt(allocs[1..], t)
  }

  lemma {:induction false} CreatedAtEnd(allocs: seq<Allocation>, a: Allocation, t: Time)
    ensures CreatedAt(allocs + [a], t) == CreatedAt(allocs, t) + if a.createdAt == t then [a] else []
    decreases allocs
  {
    if allocs == [] {
      assert [a][1..] == [];
    } else {
      CreatedAtEnd(allocs[1..], a, t);
      assert (allocs + [a])[1..] == allocs[1..] + [a];
    }
  }

  lemma {:induction false} NoneCreatedAt(allocs: seq<Allocation>, t: Time)
    requires forall i :: 0 <= i < |allocs| ==> allocs[i].createdAt != t
    ensures CreatedAt(allocs, t) == []
    decreases allocs
  {
    if allocs != [] {
      NoneCreatedAt(allocs[1..], t);
    }
  }

  lemma {:induction false} InsertKeepsOrder(a: Allocation, sorted: seq<Allocation>, t: Time)
    requires NewestFirst(sorted)
    ensures CreatedAt(Insert(a, sorted), t) == CreatedAt(sorted, t) + if a.createdAt == t then [a] else []
    decreases sorted
  {
    if sorted == [] {
      assert [a][1..] == [];
    } else if sorted[0].createdAt >= a.createdAt {
      InsertKeepsOrder(a, sorted[1..], t);
    } else {
      assert ([a] + sorted)[1..] == sorted;
      if a.createdAt == t {
        NoneCreatedAt(sorted, t);
      }
    }
  }

  method SortNewestFirst(allocs: seq<Allocation>) returns (r: seq<Allocation>)
    requires DistinctIds(allocs)
    ensures NewestFirst(r) && |r| == |allocs| && DistinctIds(r)
    ensures forall x :: x in r <==> x in allocs
    ensures forall t :: CreatedAt(r, t) == CreatedAt(allocs, t)
  {
    r := [];
    for i := 0 to |allocs|
      invariant NewestFirst(r) && |r| == i
      invariant forall x :: x in r <==> x in allocs[..i]
      invariant forall t :: CreatedAt(r, t) == CreatedAt(allocs[..i], t)
    {
      assert allocs[..i + 1] == allocs[..i] + [allocs[i]];
      forall t: Time ensures CreatedAt(Insert(allocs[i], r), t) == CreatedAt(allocs[..i + 1], t) {
        InsertKeepsOrder(allocs[i], r, t);
        CreatedAtEnd(allocs[..i], allocs[i], t);
      }
      assert forall x :: x in allocs[..i + 1] <==> x in allocs[..i] || x == allocs[i];
      r := Insert(allocs[i], r);
    }
    assert allocs[..|allocs|] == allocs;
    SameMembersDistinct(allocs, r);
  }

  lemma SameMembersDistinct(xs: seq<Allocation>, ys: seq<Allocation>)
    requires DistinctIds(xs) && |xs| == |ys| && forall x :: x in ys <==> x in xs
    ensures DistinctIds(ys)
  {
    DistinctCount(xs);
    assert Ids(xs) == Ids(ys);
    FullCountDistinct(ys);
  }

  lemma {:induction false} FullCountDistinct(ys: seq<Allocation>)
    requires |Ids(ys)| == |ys|
    ensures DistinctIds(ys)
    decreases ys
  {
    if ys != [] {
      var n := |ys| - 1;
      var init := ys[..n];
      assert Ids(ys) == Ids(init) + {ys[n].id};
      IdsAtMost(init);
      FullCountDistinct(init);
      assert ys[n].id !in Ids(init);
    }
  }

  lemma {:induction false} IdsAtMost(ys: seq<Allocation>)
    ensures |Ids(ys)| <= |ys|
    decreases ys
  {
    if ys != [] {
      var n := |ys| - 1;
      IdsAtMost(ys[..n]);
      assert Ids(ys) == Ids(ys[..n]) + {ys[n].id};
    }
  }

  function NodeIds(nodes: seq<Node>): set<string> {
    set n | n in nodes :: n.id
  }

  /** Other groups keep their allocations as they are, and gain no active one. */
  ghost predicate OthersKeep(m: Allocations, m': Allocations, jobId: string, group: string) {
    && (forall id :: id in m && m[id].groupName != group ==> id in m' && m'[id] == m[id])
    && (forall g :: g != group ==> ActiveIds(m', jobId, g) == ActiveIds(m, jobId, g))
  }

  /** A new allocation of the group for the job as it is, on a node that had the fewest of
      the group in the listing. */
  ghost predicate Replacement(a: Allocation, job: Job, group: TaskGroup, ready: seq<Node>, allocs: seq<Allocation>) {
    && a.groupName == group.name && a.jobVersion == job.version && a.taskStates.Keys == NewTaskStates(group.tasks).Keys
    && forall n :: n in ready ==> Load(allocs, a.nodeId, group.name) <= Load(allocs, n.id, group.name)
  }

  ghost predicate NewOnes(m: Allocations, m': Allocations, job: Job, group: TaskGroup, ready: seq<Node>,
                          allocs: seq<Allocation>)
  {
    forall id :: id in m' && id !in m ==> Replacement(m'[id], job, group, ready, allocs)
  }

  /** Whatever is new is a replacement for some group of the job. */
  ghost predicate AllNew(m: Allocations, m': Allocations, job: Job, ready: seq<Node>, allocs: seq<Allocation>) {
    forall id :: id in m' && id !in m ==> exists g :: g in job.groups && Replacement(m'[id], job, g, ready, allocs)
  }

  lemma NoneNew(m: Allocations, m': Allocations, job: Job, group: TaskGroup, ready: seq<Node>, allocs: seq<Allocation>)
    requires m'.Keys == m.Keys
    ensures NewOnes(m, m', job, group, ready, allocs) && AllNew(m, m', job, ready, allocs)
  {}

  lemma ReplacementMoves(a: Allocation, b: Allocation, job: Job, group: TaskGroup, ready: seq<Node>,
                         allocs: seq<Allocation>)
    requires Quiet(a, b) && Replacement(a, job, group, ready, allocs)
    ensures Replacement(b, job, group, ready, allocs)
  {
    hide Load;
  }

  lemma NewOnesJoin(m: Allocations, m1: Allocations, m2: Allocations, job: Job, group: TaskGroup, ready: seq<Node>,
                    allocs: seq<Allocation>, nodeIds: set<string>)
    requires NewOnes(m, m1, job, group, ready, allocs) && NewOnes(m1, m2, job, group, ready, allocs)
             && Advances(m1, m2, job.id, nodeIds)
    ensures NewOnes(m, m2, job, group, ready, allocs)
  {
    hide Replacement;
    forall id | id in m2 && id !in m ensures Replacement(m2[id], job, group, ready, allocs) {
      if id in m1 {
        assert Quiet(m1[id], m2[id]);
        ReplacementMoves(m1[id], m2[id], job, group, ready, allocs);
      }
    }
  }

  lemma AllNewJoin(m: Allocations, m1: Allocations, m2: Allocations, job: Job, group: TaskGroup, ready: seq<Node>,
                   allocs: seq<Allocation>, nodeIds: set<string>)
    requires AllNew(m, m1, job, ready, allocs) && NewOnes(m1, m2, job, group, ready, allocs)
             && Advances(m1, m2, job.id, nodeIds)
    requires group in job.groups
    ensures AllNew(m, m2, job, ready, allocs)
  {
    hide Replacement;
    forall id | id in m2 && id !in m ensures exists g :: g in job.groups && Replacement(m2[id], job, g, ready, allocs) {
      if id in m1 {
        assert Quiet(m1[id], m2[id]);
        var g :| g in job.groups && Replacement(m1[id], job, g, ready, allocs);
        ReplacementMoves(m1[id], m2[id], job, g, ready, allocs);
      }
    }
  }

  /** Creates and starts `deficit` allocations. */
  method Create(ex: Executor, job: Job, group: TaskGroup, ready: seq<Node>, allocs: seq<Allocation>, deficit: nat,
                w: World)
    requires ready != []
    modifies ex.store`allocations, ex`running
    ensures Advances(old(ex.store.allocations), ex.store.allocations, job.id, NodeIds(ready))
    ensures OthersKeep(old(ex.store.allocations), ex.store.allocations, job.id, group.name)
    ensures ActiveIds(old(ex.store.allocations), job.id, group.name) <=
              ActiveIds(ex.store.allocations, job.id, group.name)
    ensures |ActiveIds(ex.store.allocations, job.id, group.name)| <=
              |ActiveIds(old(ex.store.allocations), job.id, group.name)| + deficit
    ensures |ActiveIds(ex.store.allocations, job.id, group.name)| ==
              |ActiveIds(old(ex.store.allocations), job.id, group.name)| + deficit
            <==> NoneRefused(w, GroupsIn(ex.store.jobs, job.id), group.name, old(ex.store.allocations),
                             ex.store.allocations)
    ensures NewOnes(old(ex.store.allocations), ex.store.allocations, job, group, ready, allocs)
    ensures deficit == 0 ==> ex.store.allocations == old(ex.store.allocations) && ex.running == old(ex.running)
    ensures TracksAdvance(w, GroupsIn(ex.store.jobs, job.id), old(ex.store.allocations), old(ex.running),
                          ex.store.allocations, ex.running)
  {
    hide IsNew, Advances, Quiet, TracksAdvance, NewOnes, NoneRefused;
    AdvancesReflexive(ex.store.allocations, job.id, NodeIds(ready));
    StartNone(w, GroupsIn(ex.store.jobs, job.id), group.name, ex.store.allocations);
    TracksReflexive(w, GroupsIn(ex.store.jobs, job.id), ex.store.allocations, ex.running);
    NoneNew(ex.store.allocations, ex.store.allocations, job, group, ready, allocs);
    for i := 0 to deficit
      invariant Advances(old(ex.store.allocations), ex.store.allocations, job.id, NodeIds(ready))
      invariant OthersKeep(old(ex.store.allocations), ex.store.allocations, job.id, group.name)
      invariant ActiveIds(old(ex.store.allocations), job.id, group.name) <=
                  ActiveIds(ex.store.allocations, job.id, group.name)
      invariant |ActiveIds(ex.store.allocations, job.id, group.name)| <=
                  |ActiveIds(old(ex.store.allocations), job.id, group.name)| + i
      invariant |ActiveIds(ex.store.allocations, job.id, group.name)| ==
                  |ActiveIds(old(ex.store.allocations), job.id, group.name)| + i
                <==> NoneRefused(w, GroupsIn(ex.store.jobs, job.id), group.name, old(ex.store.allocations),
                                 ex.store.allocations)
      invariant NewOnes(old(ex.store.allocations), ex.store.allocations, job, group, ready, allocs)
      invariant i == 0 ==> ex.store.allocations == old(ex.store.allocations) && ex.running == old(ex.running)
      invariant TracksAdvance(w, GroupsIn(ex.store.jobs, job.id), old(ex.store.allocations), old(ex.running),
                              ex.store.allocations, ex.running)
    {
      CreateOne(ex, job, group, ready, allocs, w, old(ex.store.allocations), old(ex.running), i);
    }
  }

  /** No driver refused the start of one that is new. */
  ghost predicate NoneRefused(w: World, groups: seq<TaskGroup>, group: string, m: Allocations, m': Allocations) {
    forall id :: id in m' && id !in m ==> !RefusedStart(w, FindGroup(groups, group), id)
  }

  lemma StartNone(w: World, groups: seq<TaskGroup>, group: string, m: Allocations)
    ensures NoneRefused(w, groups, group, m, m)
  {}

  lemma StartOneMore(w: World, groups: seq<TaskGroup>, group: string, m: Allocations, m1: Allocations, m2: Allocations,
                     id: Uuid)
    requires m.Keys <= m1.Keys && id !in m1 && m2.Keys == m1.Keys + {id}
    ensures NoneRefused(w, groups, group, m, m2) <==>
              NoneRefused(w, groups, group, m, m1) && !RefusedStart(w, FindGroup(groups, group), id)
  {
    hide RefusedStart;
  }

  method CreateOne(ex: Executor, job: Job, group: TaskGroup, ready: seq<Node>, allocs: seq<Allocation>, w: World,
                   ghost first: Allocations, ghost tracks: Tracks, ghost i: nat)
    requires ready != [] && Advances(first, ex.store.allocations, job.id, NodeIds(ready))
    requires NewOnes(first, ex.store.allocations, job, group, ready, allocs)
    requires TracksAdvance(w, GroupsIn(ex.store.jobs, job.id), first, tracks, ex.store.allocations, ex.running)
    modifies ex.store`allocations, ex`running
    ensures Advances(first, ex.store.allocations, job.id, NodeIds(ready))
    ensures NewOnes(first, ex.store.allocations, job, group, ready, allocs)
    ensures TracksAdvance(w, GroupsIn(ex.store.jobs, job.id), first, tracks, ex.store.allocations, ex.running)
    ensures OthersKeep(old(ex.store.allocations), ex.store.allocations, job.id, group.name)
    ensures ActiveIds(old(ex.store.allocations), job.id, group.name) <=
              ActiveIds(ex.store.allocations, job.id, group.name)
    ensures |ActiveIds(ex.store.allocations, job.id, group.name)| <=
              |ActiveIds(old(ex.store.allocations), job.id, group.name)| + 1
    ensures |ActiveIds(ex.store.allocations, job.id, group.name)| ==
              |ActiveIds(old(ex.store.allocations), job.id, group.name)| + 1
            && NoneRefused(w, GroupsIn(ex.store.jobs, job.id), group.name, first, old(ex.store.allocations))
            <==> NoneRefused(w, GroupsIn(ex.store.jobs, job.id), group.name, first, ex.store.allocations)
  {
    hide IsNew, Advances, Quiet, ActiveIds, OthersKeep, Load, NodeIds, TracksAdvance, NewOnes, NoneRefused,
         RefusedStart;
    var node := LeastLoaded(ready, allocs, group.name);
    var a := MakeAllocation(ex.store, job, group, node.id, job.version, w.now);
    ghost var before, before' := ex.store.allocations, ex.running;
    assert a.nodeId in NodeIds(ready) by { IsNodeId(ready, node); }
    var ok := PlaceAndStart(ex, a, w, NodeIds(ready));
    ghost var after := ex.store.allocations;
    PlacedAdvances(before, after, a, NodeIds(ready));
    TracksTransitive(w, GroupsIn(ex.store.jobs, job.id), first, tracks, before, before', after, ex.running, job.id,
                     NodeIds(ready));
    AdvancesTransitive(first, before, after, job.id, NodeIds(ready));
    PlacedNew(before, after, a, node, job, group, ready, allocs);
    NewOnesJoin(first, before, after, job, group, ready, allocs, NodeIds(ready));
    PlacedCounts(before, after, a, group.name);
    assert first.Keys <= before.Keys by { AdvancesOnly(first, before, job.id, NodeIds(ready)); }
    StartOneMore(w, GroupsIn(ex.store.jobs, job.id), group.name, first, before, after, a.id);
    assert ok ==> !RefusedStart(w, GroupOf(ex.store.jobs, a), a.id) by { StartsUnrefused(w, ex.store.jobs, a); }
  }

  lemma StartsUnrefused(w: World, jobs: map<string, Job>, a: Allocation)
    ensures Startable(w, jobs, a) ==> !RefusedStart(w, GroupOf(jobs, a), a.id)
  {}

  lemma PlacedNew(m: Allocations, m': Allocations, a: Allocation, node: Node, job: Job, group: TaskGroup,
                  ready: seq<Node>, allocs: seq<Allocation>)
    requires a.id !in m && m'.Keys == m.Keys + {a.id} && a.id == m'[a.id].id
    requires SameIdentity(a, m'[a.id]) && m'[a.id].taskStates.Keys == a.taskStates.Keys
    requires a.groupName == group.name && a.jobVersion == job.version && a.taskStates == NewTaskStates(group.tasks)
             && a.nodeId == node.id
    requires forall k :: 0 <= k < |ready| ==> Load(allocs, node.id, group.name) <= Load(allocs, ready[k].id, group.name)
    ensures NewOnes(m, m', job, group, ready, allocs)
  {
    hide Load;
  }

  lemma IsNodeId(nodes: seq<Node>, n: Node)
    requires n in nodes
    ensures n.id in NodeIds(nodes)
  {}

  lemma PlacedCounts(m: Allocations, m': Allocations, a: Allocation, group: string)
    requires a.groupName == group && a.id !in m && m'.Keys == m.Keys + {a.id}
    requires forall id :: id in m ==> m'[id] == m[id]
    requires SameIdentity(a, m'[a.id])
    ensures OthersKeep(m, m', a.jobId, group)
    ensures ActiveIds(m, a.jobId, group) <= ActiveIds(m', a.jobId, group)
    ensures |ActiveIds(m', a.jobId, group)| == |ActiveIds(m, a.jobId, group)| + if m'[a.id].IsActive() then 1 else 0
  {
    hide ActiveIds, SameIdentity, OthersKeep;
    PlacedOthers(m, m', a, group);
    PlacedActive(m, m', a, a.jobId, group);
    NotYetActive(m, a.id, a.jobId, group);
  }

  lemma PlacedOthers(m: Allocations, m': Allocations, a: Allocation, group: string)
    requires a.groupName == group && a.id !in m && m'.Keys == m.Keys + {a.id}
    requires forall id :: id in m ==> m'[id] == m[id]
    requires SameIdentity(a, m'[a.id])
    ensures OthersKeep(m, m', a.jobId, group)
  {
    hide ActiveIds, SameIdentity;
    forall g | g != group ensures ActiveIds(m', a.jobId, g) == ActiveIds(m, a.jobId, g) {
      PlacedActive(m, m', a, a.jobId, g);
    }
  }

  lemma NotYetActive(m: Allocations, id: Uuid, jobId: string, group: string)
    requires id !in m
    ensures id !in ActiveIds(m, jobId, group)
  {}

  /** Each is in the store, perhaps in another state by now, and belongs to the group. */
  ghost predicate AllInGroup(m: Allocations, allocs: seq<Allocation>, jobId: string, group: string) {
    forall a :: a in allocs ==> a.id in m && SameIdentity(a, m[a.id]) && a.jobId == jobId && a.groupName == group
  }

  /** Stops one allocation of the group, after what has changed since `m`. */
  method StopOne(ex: Executor, job: Job, group: string, id: Uuid, w: World, ghost nodeIds: set<string>,
                 ghost m: Allocations, ghost r: Tracks)
    requires id in ex.store.allocations
    requires ex.store.allocations[id].jobId == job.id && ex.store.allocations[id].groupName == group
    requires Advances(m, ex.store.allocations, job.id, nodeIds)
    requires TracksAdvance(w, GroupsIn(ex.store.jobs, job.id), m, r, ex.store.allocations, ex.running)
    modifies ex.store`allocations, ex`running
    ensures Advances(m, ex.store.allocations, job.id, nodeIds)
    ensures TracksAdvance(w, GroupsIn(ex.store.jobs, job.id), m, r, ex.store.allocations, ex.running)
    ensures ex.store.allocations.Keys == old(ex.store.allocations).Keys
    ensures forall k :: k in old(ex.store.allocations) ==>
              SameIdentity(old(ex.store.allocations)[k], ex.store.allocations[k])
    ensures OthersKeep(old(ex.store.allocations), ex.store.allocations, job.id, group)
    ensures ActiveIds(ex.store.allocations, job.id, group) ==
              ActiveIds(old(ex.store.allocations), job.id, group)
              - if DriversOf(w, TasksOf(old(ex.running), id)) then {id} else {}
    ensures ex.running == old(ex.running) - {id}
  {
    hide IsNew, Advances, Quiet, TracksAdvance, ActiveIds, OthersKeep, DriversOf;
    ghost var groups, before, before' := GroupsIn(ex.store.jobs, job.id), ex.store.allocations, ex.running;
    var ok := ex.StopAllocation(id, w);
    TracksDrop(w, groups, before, before', ex.store.allocations, id);
    if ok {
      StopAdvances(before, id, w.now, job.id, nodeIds);
      AdvancesTransitive(m, before, ex.store.allocations, job.id, nodeIds);
      StopActive(before, id, w.now, job.id, group);
      StopOthers(before, id, w.now, job.id, group);
    } else {
      AdvancesReflexive(before, job.id, nodeIds);
      OthersKeepReflexive(before, job.id, group);
    }
    TracksTransitive(w, groups, m, r, before, before', ex.store.allocations, ex.running, job.id, nodeIds);
  }

  lemma StopOthers(m: Allocations, id: Uuid, now: Time, jobId: string, group: string)
    requires id in m && m[id].groupName == group
    ensures OthersKeep(m, m[id := Stopped(m[id], now)], jobId, group)
  {
    hide ActiveIds;
    forall g | g != group ensures ActiveIds(m[id := Stopped(m[id], now)], jobId, g) == ActiveIds(m, jobId, g) {
      StopActive(m, id, now, jobId, g);
      NotInOtherGroups(m, id, jobId, group);
    }
  }

  /** Stops the first `excess` of the sorted allocations: active no longer are exactly those
      whose drivers exist. */
  method StopNewest(ex: Executor, job: Job, group: TaskGroup, sorted: seq<Allocation>, excess: nat, w: World,
                    ghost nodeIds: set<string>)
    requires excess <= |sorted| && DistinctIds(sorted)
    requires AllInGroup(ex.store.allocations, sorted, job.id, group.name)
    modifies ex.store`allocations, ex`running
    ensures Advances(old(ex.store.allocations), ex.store.allocations, job.id, nodeIds)
    ensures ex.store.allocations.Keys == old(ex.store.allocations).Keys
    ensures OthersKeep(old(ex.store.allocations), ex.store.allocations, job.id, group.name)
    ensures TracksAdvance(w, GroupsIn(ex.store.jobs, job.id), old(ex.store.allocations), old(ex.running),
                          ex.store.allocations, ex.running)
    ensures ActiveIds(ex.store.allocations, job.id, group.name) ==
              ActiveIds(old(ex.store.allocations), job.id, group.name)
              - Endable(w, old(ex.running), Ids(sorted[..excess]))
  {
    hide IsNew, Advances, Quiet, TracksAdvance, ActiveIds, OthersKeep, Ids, DriversOf, DistinctIds;
    ghost var m, r := ex.store.allocations, ex.running;
    TracksReflexive(w, GroupsIn(ex.store.jobs, job.id), m, r);
    AdvancesReflexive(m, job.id, nodeIds);
    OthersKeepReflexive(m, job.id, group.name);
    assert Ids(sorted[..0]) == {} by { NoIds(sorted); }
    for k := 0 to excess
      invariant Advances(m, ex.store.allocations, job.id, nodeIds)
      invariant OthersKeep(m, ex.store.allocations, job.id, group.name)
      invariant ex.store.allocations.Keys == m.Keys
      invariant AllInGroup(ex.store.allocations, sorted, job.id, group.name)
      invariant TracksAdvance(w, GroupsIn(ex.store.jobs, job.id), m, r, ex.store.allocations, ex.running)
      invariant ActiveIds(ex.store.allocations, job.id, group.name) ==
                  ActiveIds(m, job.id, group.name) - Endable(w, r, Ids(sorted[..k]))
      invariant ex.running == r - Ids(sorted[..k])
    {
      ghost var before := ex.store.allocations;
      assert sorted[k] in sorted;
      OneMoreId(sorted, k);
      CutIndex(sorted, k, k);
      EndOneMore(w, r, Ids(sorted[..k]), sorted[k].id);
      StopOne(ex, job, group.name, sorted[k].id, w, nodeIds, m, r);
      OthersKeepJoin(m, before, ex.store.allocations, job.id, group.name);
    }
  }

  lemma EndOneMore(w: World, r: Tracks, ids: set<Uuid>, id: Uuid)
    ensures Endable(w, r, ids + {id}) ==
              Endable(w, r, ids) + if DriversOf(w, TasksOf(r, id)) then {id} else {}
    ensures id !in ids ==> TasksOf(r - ids, id) == TasksOf(r, id)
    ensures r - (ids + {id}) == (r - ids) - {id}
  {
    hide DriversOf;
  }

  lemma NoIds(allocs: seq<Allocation>)
    ensures Ids(allocs[..0]) == {}
  {}

  lemma OneMoreId(allocs: seq<Allocation>, k: nat)
    requires k < |allocs|
    ensures Ids(allocs[..k + 1]) == Ids(allocs[..k]) + {allocs[k].id}
  {
    assert allocs[..k + 1] == allocs[..k] + [allocs[k]];
  }

  lemma OthersKeepJoin(m: Allocations, m1: Allocations, m2: Allocations, jobId: string, group: string)
    requires OthersKeep(m, m1, jobId, group) && OthersKeep(m1, m2, jobId, group)
    ensures OthersKeep(m, m2, jobId, group)
  {
    hide ActiveIds;
  }

  lemma NotInOtherGroups(m: Allocations, id: Uuid, jobId: string, group: string)
    requires id in m && m[id].groupName == group
    ensures forall g :: g != group ==> ActiveIds(m, jobId, g) - {id} == ActiveIds(m, jobId, g)
  {}

  // ---- one group ----

  /** The listing shows allocations of the store, perhaps in an earlier state. */
  ghost predicate ListsGroup(m: Allocations, jobId: string, group: string, allocs: seq<Allocation>) {
    DistinctIds(ActiveOf(allocs, group)) && AllInGroup(m, ActiveOf(allocs, group), jobId, group)
  }

  /** Of this group it still shows exactly the active ones. */
  ghost predicate UpToDate(m: Allocations, jobId: string, group: string, allocs: seq<Allocation>) {
    var r := ActiveOf(allocs, group);
    Ids(r) == ActiveIds(m, jobId, group) && |r| == |ActiveIds(m, jobId, group)|
  }

  /** Everything stopped is at least as new as everything kept. */
  ghost predicate StoppedNewest(m: Allocations, was: set<Uuid>, now: set<Uuid>) {
    && now <= was && was <= m.Keys
    && forall s, k :: s in was - now && k in now ==> m[s].createdAt >= m[k].createdAt
  }

  /** The drivers do what the pass may ask of them for this group: where it has too few, no
      new start is refused; where it has too many, the drivers of what it runs exist. */
  ghost predicate CanBalance(w: World, groups: seq<TaskGroup>, m: Allocations, r: Tracks, job: Job, group: TaskGroup,
                             n: nat)
  {
    var active := ActiveIds(m, job.id, group.name);
    && (|active| < Desired(job, group, n) ==> NoRefusal(w, groups, group.name, m))
    && (|active| > Desired(job, group, n) ==> Stoppable(w, r, active))
  }

  /** What the pass promises for one group when the drivers do what they are asked. */
  ghost predicate Balanced(m: Allocations, m': Allocations, jobId: string, group: string, desired: nat) {
    var was, now := ActiveIds(m, jobId, group), ActiveIds(m', jobId, group);
    && |now| == desired
    && (|was| <= desired ==> was <= now)
    && (|was| >= desired ==> StoppedNewest(m, was, now))
  }

  method CountGroup(ex: Executor, job: Job, group: TaskGroup, ready: seq<Node>, allocs: seq<Allocation>, w: World)
    requires ready != [] && ListsGroup(ex.store.allocations, job.id, group.name, allocs)
    modifies ex.store`allocations, ex`running
    ensures Advances(old(ex.store.allocations), ex.store.allocations, job.id, NodeIds(ready))
    ensures NewOnes(old(ex.store.allocations), ex.store.allocations, job, group, ready, allocs)
    ensures OthersKeep(old(ex.store.allocations), ex.store.allocations, job.id, group.name)
    ensures UpToDate(old(ex.store.allocations), job.id, group.name, allocs)
            && CanBalance(w, GroupsIn(ex.store.jobs, job.id), old(ex.store.allocations), old(ex.running), job, group,
                          |ready|) ==>
              Balanced(old(ex.store.allocations), ex.store.allocations, job.id, group.name,
                       if job.jobType == System then |ready| else group.count)
    ensures && UpToDate(old(ex.store.allocations), job.id, group.name, allocs)
            && |ActiveIds(old(ex.store.allocations), job.id, group.name)| ==
                 (if job.jobType == System then |ready| else group.count) ==>
              ex.store.allocations == old(ex.store.allocations) && ex.running == old(ex.running)
    ensures TracksAdvance(w, GroupsIn(ex.store.jobs, job.id), old(ex.store.allocations), old(ex.running),
                          ex.store.allocations, ex.running)
  {
    hide Advances, IsNew, Quiet, OthersKeep, ActiveOf, NewestFirst, TracksAdvance, NewOnes, RefusedStart, DriversOf,
         Endable, ActiveIds, Ids, AllInGroup;
    TracksReflexive(w, GroupsIn(ex.store.jobs, job.id), ex.store.allocations, ex.running);
    var desired := if job.jobType == System then |ready| else group.count;
    var active := ActiveOf(allocs, group.name);
    if |active| < desired {
      Create(ex, job, group, ready, allocs, desired - |active|, w);
    } else if |active| > desired {
      ghost var r := ex.running;
      ghost var cut := StopExcess(ex, job, group, active, desired, w, NodeIds(ready));
      AllEnd(w, r, Ids(active), cut);
      NoneNew(old(ex.store.allocations), ex.store.allocations, job, group, ready, allocs);
    } else {
      NoneNew(ex.store.allocations, ex.store.allocations, job, group, ready, allocs);
      AdvancesReflexive(ex.store.allocations, job.id, NodeIds(ready));
      OthersKeepReflexive(ex.store.allocations, job.id, group.name);
      AlreadyBalanced(ex.store.allocations, job.id, group.name);
    }
  }

  lemma AlreadyBalanced(m: Allocations, jobId: string, group: string)
    ensures Balanced(m, m, jobId, group, |ActiveIds(m, jobId, group)|)
  {}

  /** When every stop ends its allocation, those set out to be stopped are. */
  lemma AllEnd(w: World, r: Tracks, was: set<Uuid>, cut: set<Uuid>)
    requires cut <= was
    ensures Stoppable(w, r, was) ==> Stoppable(w, r, cut) && Endable(w, r, cut) == cut
  {
    hide DriversOf;
  }

  lemma OthersKeepReflexive(m: Allocations, jobId: string, group: string)
    ensures OthersKeep(m, m, jobId, group)
  {}

  /** Stops the newest active allocations, `cut`, down to the desired number: it is reached
      exactly when the drivers exist of all that these run. */
  method StopExcess(ex: Executor, job: Job, group: TaskGroup, active: seq<Allocation>, desired: nat, w: World,
                    ghost nodeIds: set<string>)
    returns (ghost cut: set<Uuid>)
    requires desired < |active| && DistinctIds(active)
    requires AllInGroup(ex.store.allocations, active, job.id, group.name)
    modifies ex.store`allocations, ex`running
    ensures Advances(old(ex.store.allocations), ex.store.allocations, job.id, nodeIds)
    ensures ex.store.allocations.Keys == old(ex.store.allocations).Keys
    ensures OthersKeep(old(ex.store.allocations), ex.store.allocations, job.id, group.name)
    ensures cut <= Ids(active) && |Ids(active) - cut| == desired
            && StoppedNewest(old(ex.store.allocations), Ids(active), Ids(active) - cut)
    ensures Ids(active) == ActiveIds(old(ex.store.allocations), job.id, group.name) ==>
              && ActiveIds(ex.store.allocations, job.id, group.name) == Ids(active) - Endable(w, old(ex.running), cut)
              && (|ActiveIds(ex.store.allocations, job.id, group.name)| == desired <==>
                  Stoppable(w, old(ex.running), cut))
    ensures TracksAdvance(w, GroupsIn(ex.store.jobs, job.id), old(ex.store.allocations), old(ex.running),
                          ex.store.allocations, ex.running)
  {
    hide TracksAdvance, Advances, OthersKeep, NewestFirst, StoppedNewest, ActiveIds, AllInGroup, Ids, DistinctIds,
         Stoppable, Endable;
    var sorted := SortNewestFirst(active);
    SameMembers(ex.store.allocations, active, sorted, job.id, group.name);
    CutNewest(ex.store.allocations, sorted, |active| - desired, job.id, group.name);
    cut := Ids(sorted[..|active| - desired]);
    EndAll(w, ex.running, Ids(active), cut);
    StopNewest(ex, job, group, sorted, |active| - desired, w, nodeIds);
  }

  /** As many are left as were to be left exactly when every stop ends its allocation. */
  lemma EndAll(w: World, r: Tracks, was: set<Uuid>, cut: set<Uuid>)
    requires cut <= was
    ensures |was - Endable(w, r, cut)| == |was - cut| <==> Stoppable(w, r, cut)
  {
    hide DriversOf;
    var ended := Endable(w, r, cut);
    assert ended <= cut && (Stoppable(w, r, cut) <==> cut <= ended);
    hide Endable, Stoppable;
    LeftOver(was, cut, ended);
  }

  lemma LeftOver(was: set<Uuid>, cut: set<Uuid>, ended: set<Uuid>)
    requires ended <= cut <= was
    ensures |was - ended| == |was - cut| <==> cut <= ended
  {
    assert was - ended == (was - cut) + (cut - ended);
    assert cut - ended == {} <==> cut <= ended;
  }

  lemma SameMembers(m: Allocations, xs: seq<Allocation>, ys: seq<Allocation>, jobId: string, group: string)
    requires AllInGroup(m, xs, jobId, group) && forall x :: x in ys <==> x in xs
    ensures AllInGroup(m, ys, jobId, group) && Ids(ys) == Ids(xs)
  {}

  lemma CutIndex(sorted: seq<Allocation>, n: nat, j: nat)
    requires DistinctIds(sorted) && n <= |sorted| && j < |sorted|
    ensures sorted[j].id in Ids(sorted[..n]) <==> j < n
  {
    if j < n {
      assert sorted[..n][j] == sorted[j];
    }
  }

  /** Cutting the first `n` of a list sorted newest first removes the newest `n`. */
  lemma CutNewest(m: Allocations, sorted: seq<Allocation>, n: nat, jobId: string, group: string)
    requires NewestFirst(sorted) && DistinctIds(sorted) && n <= |sorted|
    requires AllInGroup(m, sorted, jobId, group)
    ensures Ids(sorted[..n]) <= Ids(sorted) && |Ids(sorted) - Ids(sorted[..n])| == |sorted| - n
    ensures StoppedNewest(m, Ids(sorted), Ids(sorted) - Ids(sorted[..n]))
  {
    CutCount(sorted, n);
    var kept := Ids(sorted) - Ids(sorted[..n]);
    forall s, k | s in Ids(sorted) - kept && k in kept ensures m[s].createdAt >= m[k].createdAt {
      var i := IndexOf(sorted, s);
      var j := IndexOf(sorted, k);
      CutIndex(sorted, n, i);
      CutIndex(sorted, n, j);
    }
  }

  lemma IndexOf(sorted: seq<Allocation>, id: Uuid) returns (i: nat)
    requires id in Ids(sorted)
    ensures i < |sorted| && sorted[i].id == id && sorted[i] in sorted
  {
    var a :| a in sorted && a.id == id;
    i :| i < |sorted| && sorted[i] == a;
  }

  lemma CutCount(sorted: seq<Allocation>, n: nat)
    requires DistinctIds(sorted) && n <= |sorted|
    ensures Ids(sorted[..n]) <= Ids(sorted) && |Ids(sorted) - Ids(sorted[..n])| == |sorted| - n
  {
    DistinctCount(sorted);
    DistinctCount(sorted[..n]);
    assert Ids(sorted[..n]) <= Ids(sorted);
    assert (Ids(sorted) - Ids(sorted[..n])) + Ids(sorted[..n]) == Ids(sorted);
  }

  // ---- the whole pass ----

  ghost predicate DistinctGroups(groups: seq<TaskGroup>) {
    forall i, j :: 0 <= i < j < |groups| ==> groups[i].name != groups[j].name
  }

  ghost predicate AllBalanced(m: Allocations, m': Allocations, job: Job, n: nat, upTo: nat) {
    forall i :: 0 <= i < upTo && i < |job.groups| ==>
      Balanced(m, m', job.id, job.groups[i].name, Desired(job, job.groups[i], n))
  }

  /** Every group has as many active allocations as it should: a service or batch job its
      count, a system job one for each of the `n` usable nodes. */
  ghost predicate AtDesired(m: Allocations, job: Job, n: nat) {
    forall i :: 0 <= i < |job.groups| ==>
        |ActiveIds(m, job.id, job.groups[i].name)| == if job.jobType == System then n else job.groups[i].count
  }

  /** The unfinished allocations of the group on the node. */
  ghost function UnfinishedOn(m: Allocations, jobId: string, group: string, nodeId: string): set<Uuid> {
    set id | id in m && m[id].jobId == jobId && m[id].groupName == group && m[id].nodeId == nodeId
             && (m[id].state == Pending || m[id].state == Running)
  }

  /** A new allocation of a group of the job, with the job's version and an entry for each of
      the group's tasks, on a node on which no usable node had fewer of the group in `m`. */
  ghost predicate PlacedFairly(m: Allocations, a: Allocation, job: Job, g: TaskGroup, nodes: seq<Node>) {
    && g in job.groups && a.groupName == g.name && a.jobVersion == job.version
    && (forall n :: n in a.taskStates <==> exists i :: 0 <= i < |g.tasks| && g.tasks[i].name == n)
    && forall n :: n in nodes && n.status == NodeReady && n.eligible ==>
         |UnfinishedOn(m, job.id, g.name, a.nodeId)| <= |UnfinishedOn(m, job.id, g.name, n.id)|
  }

  ghost predicate AllPlacedFairly(m: Allocations, m': Allocations, job: Job, nodes: seq<Node>) {
    forall id :: id in m' && id !in m ==> exists g :: PlacedFairly(m, m'[id], job, g, nodes)
  }

  function LoadIds(allocs: seq<Allocation>, nodeId: string, group: string): set<Uuid> {
    set a | a in allocs && a.nodeId == nodeId && !a.IsTerminal() && a.groupName == group :: a.id
  }

  lemma {:induction false} LoadCounts(allocs: seq<Allocation>, nodeId: string, group: string)
    requires DistinctIds(allocs)
    ensures Load(allocs, nodeId, group) == |LoadIds(allocs, nodeId, group)|
    decreases allocs
  {
    if allocs != [] {
      var k := |allocs| - 1;
      var init, last := allocs[..k], allocs[k];
      LoadCounts(init, nodeId, group);
      LoadIdsStep(init, last, nodeId, group);
      assert allocs == init + [last];
    }
  }

  lemma LoadIdsStep(init: seq<Allocation>, last: Allocation, nodeId: string, group: string)
    requires forall a :: a in init ==> a.id != last.id
    ensures |LoadIds(init + [last], nodeId, group)| ==
              |LoadIds(init, nodeId, group)|
              + if last.nodeId == nodeId && !last.IsTerminal() && last.groupName == group then 1 else 0
  {
    var here := last.nodeId == nodeId && !last.IsTerminal() && last.groupName == group;
    var ids, ids' := LoadIds(init, nodeId, group), LoadIds(init + [last], nodeId, group);
    assert forall a :: a in init + [last] <==> a in init || a == last;
    forall id ensures id in ids' <==> id in ids || (here && id == last.id) {
      if id in ids {
        var a :| a in init && a.nodeId == nodeId && !a.IsTerminal() && a.groupName == group && a.id == id;
      }
      if here && id == last.id {
        assert last in init + [last];
      }
    }
    assert last.id !in ids;
    hide LoadIds;
    assert ids' == if here then ids + {last.id} else ids;
  }

  /** The load in a listing of the job is what the store holds. */
  lemma LoadIsUnfinished(m: Allocations, jobId: string, allocs: seq<Allocation>, nodeId: string, group: string)
    requires Keyed(m, AllocationKey) && ListsValues(OfJob(m, jobId), allocs, AllocationKey)
    ensures Load(allocs, nodeId, group) == |UnfinishedOn(m, jobId, group, nodeId)|
  {
    forall i, j | 0 <= i < j < |allocs| ensures allocs[i].id != allocs[j].id {
      assert AllocationKey(allocs[i]) != AllocationKey(allocs[j]);
    }
    LoadCounts(allocs, nodeId, group);
    var ids, held := LoadIds(allocs, nodeId, group), UnfinishedOn(m, jobId, group, nodeId);
    forall id ensures id in ids <==> id in held {
      if id in ids {
        var i :| 0 <= i < |allocs| && allocs[i].id == id && allocs[i].nodeId == nodeId && !allocs[i].IsTerminal()
                 && allocs[i].groupName == group;
        assert AllocationKey(allocs[i]) in OfJob(m, jobId);
      }
      if id in held {
        assert id in OfJob(m, jobId) && m[id] in allocs && AllocationKey(m[id]) == id;
      }
    }
    assert ids == held;
  }

  lemma NewPlacedFairly(m: Allocations, m': Allocations, job: Job, nodes: seq<Node>, allocs: seq<Allocation>)
    requires Keyed(m, AllocationKey) && ListsValues(OfJob(m, job.id), allocs, AllocationKey)
    requires AllNew(m, m', job, Ready(nodes), allocs)
    ensures AllPlacedFairly(m, m', job, nodes)
  {
    hide Load, UnfinishedOn;
    ReadyMembers(nodes);
    forall id | id in m' && id !in m ensures exists g :: PlacedFairly(m, m'[id], job, g, nodes) {
      var g :| g in job.groups && Replacement(m'[id], job, g, Ready(nodes), allocs);
      LoadIsUnfinished(m, job.id, allocs, m'[id].nodeId, g.name);
      forall n | n in nodes && n.status == NodeReady && n.eligible
        ensures |UnfinishedOn(m, job.id, g.name, m'[id].nodeId)| <= |UnfinishedOn(m, job.id, g.name, n.id)|
      {
        LoadIsUnfinished(m, job.id, allocs, n.id, g.name);
      }
      assert PlacedFairly(m, m'[id], job, g, nodes);
    }
  }

  ghost predicate CanBalanceAll(w: World, groups: seq<TaskGroup>, m: Allocations, r: Tracks, job: Job, n: nat) {
    forall i :: 0 <= i < |job.groups| ==> CanBalance(w, groups, m, r, job, job.groups[i], n)
  }

  /** `reconcile_count`. */
  method ReconcileCount(ex: Executor, job: Job, nodes: seq<Node>, w: World) returns (ghost listed: seq<Allocation>)
    requires ex.store.Valid()
    modifies ex.store`allocations, ex`running
    ensures ex.store.Valid()
    ensures Advances(old(ex.store.allocations), ex.store.allocations, job.id, NodeIds(Ready(nodes)))
    ensures job.status == JobRunning && Ready(nodes) != [] ==>
              ListsValues(OfJob(old(ex.store.allocations), job.id), listed, AllocationKey)
    ensures AllNew(old(ex.store.allocations), ex.store.allocations, job, Ready(nodes), listed)
    ensures AllPlacedFairly(old(ex.store.allocations), ex.store.allocations, job, nodes)
    ensures job.status == JobRunning && Ready(nodes) != [] && DistinctGroups(job.groups)
            && CanBalanceAll(w, GroupsIn(ex.store.jobs, job.id), old(ex.store.allocations), old(ex.running), job,
                             |Ready(nodes)|) ==>
              && AllBalanced(old(ex.store.allocations), ex.store.allocations, job, |Ready(nodes)|, |job.groups|)
              && AtDesired(ex.store.allocations, job, |Ready(nodes)|)
    ensures || job.status != JobRunning || Ready(nodes) == []
            || AtDesired(old(ex.store.allocations), job, |Ready(nodes)|) ==>
              ex.store.allocations == old(ex.store.allocations) && ex.running == old(ex.running)
    ensures TracksAdvance(w, GroupsIn(ex.store.jobs, job.id), old(ex.store.allocations), old(ex.running),
                          ex.store.allocations, ex.running)
  {
    hide AllNew, NewOnes, TracksAdvance, Advances, IsNew, Quiet, Balanced, ActiveIds, ListsGroup, UpToDate, CanBalance,
         Ready, Keyed, PlacedFairly;
    var ready := Ready(nodes);
    AdvancesReflexive(ex.store.allocations, job.id, NodeIds(ready));
    TracksReflexive(w, GroupsIn(ex.store.jobs, job.id), ex.store.allocations, ex.running);
    listed := [];
    NothingNew(ex.store.allocations, job, ready, listed);
    if job.status != JobRunning || ready == [] {
      return;
    }
    var allocs := ex.store.ListAllocationsForJob(job.id);
    ghost var m := ex.store.allocations;
    listed := allocs;
    NothingNew(m, job, ready, listed);
    forall g ensures ListsGroup(m, job.id, g, allocs) && UpToDate(m, job.id, g, allocs) {
      ListingShowsGroup(m, job.id, g, allocs);
    }
    for i := 0 to |job.groups|
      invariant Advances(m, ex.store.allocations, job.id, NodeIds(ready))
      invariant AllNew(m, ex.store.allocations, job, ready, allocs)
      invariant TracksAdvance(w, GroupsIn(ex.store.jobs, job.id), m, old(ex.running), ex.store.allocations, ex.running)
      invariant CanBalanceAll(w, GroupsIn(ex.store.jobs, job.id), m, old(ex.running), job, |ready|)
                && DistinctGroups(job.groups) ==>
                  AllBalanced(m, ex.store.allocations, job, |ready|, i)
      invariant AtDesired(m, job, |ready|) ==> ex.store.allocations == m && ex.running == old(ex.running)
      invariant DistinctGroups(job.groups) ==> forall j :: i <= j < |job.groups| ==>
                  ActiveIds(ex.store.allocations, job.id, job.groups[j].name) ==
                      ActiveIds(m, job.id, job.groups[j].name)
    {
      ghost var before, before', g := ex.store.allocations, ex.running, job.groups[i].name;
      ListingKept(m, before, job.id, g, allocs, NodeIds(ready));
      if ActiveIds(before, job.id, g) == ActiveIds(m, job.id, g) {
        SameActiveUpToDate(m, before, job.id, g, allocs);
        StillBalances(w, GroupsIn(ex.store.jobs, job.id), m, old(ex.running), before, before', job, job.groups[i],
                      |ready|, NodeIds(ready));
      }
      CountGroup(ex, job, job.groups[i], ready, allocs, w);
      TracksTransitive(w, GroupsIn(ex.store.jobs, job.id), m, old(ex.running), before, before', ex.store.allocations,
                       ex.running, job.id, NodeIds(ready));
      AllNewJoin(m, before, ex.store.allocations, job, job.groups[i], ready, allocs, NodeIds(ready));
      AdvancesTransitive(m, before, ex.store.allocations, job.id, NodeIds(ready));
      if DistinctGroups(job.groups) {
        GroupDone(m, before, ex.store.allocations, job, |ready|, i, NodeIds(ready));
      }
    }
    KeyedAfter(m, ex.store.allocations, job.id, NodeIds(ready));
    NewPlacedFairly(m, ex.store.allocations, job, nodes, allocs);
    BalancedAtDesired(m, ex.store.allocations, job, |ready|);
  }

  lemma StillBalances(w: World, groups: seq<TaskGroup>, m: Allocations, r: Tracks, m': Allocations, r': Tracks,
                      job: Job, group: TaskGroup, n: nat, nodeIds: set<string>)
    requires Advances(m, m', job.id, nodeIds) && TracksAdvance(w, groups, m, r, m', r')
    requires ActiveIds(m', job.id, group.name) == ActiveIds(m, job.id, group.name)
    ensures CanBalance(w, groups, m, r, job, group, n) ==> CanBalance(w, groups, m', r', job, group, n)
  {
    var active := ActiveIds(m, job.id, group.name);
    assert active <= m.Keys;
    AdvancesOnly(m, m', job.id, nodeIds);
    hide ActiveIds, Advances, TracksAdvance, RefusedStart, Stoppable;
    if Stoppable(w, r, active) {
      StaysStoppable(w, groups, m, r, m', r', active);
    }
  }

  lemma NothingNew(m: Allocations, job: Job, ready: seq<Node>, allocs: seq<Allocation>)
    ensures AllNew(m, m, job, ready, allocs)
  {}

  lemma KeyedAfter(m: Allocations, m': Allocations, jobId: string, nodeIds: set<string>)
    requires Advances(m, m', jobId, nodeIds) && Keyed(m, AllocationKey)
    ensures Keyed(m', AllocationKey)
  {
    AdvancesKeyed(m, m', jobId, nodeIds);
  }

  lemma BalancedAtDesired(m: Allocations, m': Allocations, job: Job, n: nat)
    ensures AllBalanced(m, m', job, n, |job.groups|) ==> AtDesired(m', job, n)
  {}

  lemma ListingShowsGroup(m: Allocations, jobId: string, group: string, allocs: seq<Allocation>)
    requires Keyed(m, AllocationKey) && ListsValues(OfJob(m, jobId), allocs, AllocationKey)
    ensures ListsGroup(m, jobId, group, allocs) && UpToDate(m, jobId, group, allocs)
  {
    ListingIsActive(m, jobId, group, allocs);
    ActiveOfMembers(allocs, group);
  }

  lemma ListingKept(m: Allocations, m': Allocations, jobId: string, group: string, allocs: seq<Allocation>,
                    nodeIds: set<string>)
    requires ListsGroup(m, jobId, group, allocs) && Advances(m, m', jobId, nodeIds)
    ensures ListsGroup(m', jobId, group, allocs)
  {
    hide ActiveOf, DistinctIds;
    forall a | a in ActiveOf(allocs, group) ensures SameIdentity(a, m'[a.id]) {
      assert Quiet(m[a.id], m'[a.id]);
    }
  }

  lemma SameActiveUpToDate(m: Allocations, m': Allocations, jobId: string, group: string, allocs: seq<Allocation>)
    requires UpToDate(m, jobId, group, allocs) && ActiveIds(m', jobId, group) == ActiveIds(m, jobId, group)
    ensures UpToDate(m', jobId, group, allocs)
  {}

  lemma BalanceKept(m: Allocations, before: Allocations, after: Allocations, jobId: string, group: string, desired: nat)
    requires ActiveIds(before, jobId, group) == ActiveIds(after, jobId, group)
    ensures Balanced(m, before, jobId, group, desired) ==> Balanced(m, after, jobId, group, desired)
  {}

  lemma BalanceFromStart(m: Allocations, before: Allocations, after: Allocations, jobId: string, group: string,
                         desired: nat, nodeIds: set<string>)
    requires Advances(m, before, jobId, nodeIds)
    requires ActiveIds(before, jobId, group) == ActiveIds(m, jobId, group)
    ensures Balanced(before, after, jobId, group, desired) ==> Balanced(m, after, jobId, group, desired)
  {
    var was := ActiveIds(m, jobId, group);
    assert was <= m.Keys;
    hide ActiveIds;
    assert forall id :: id in was ==> Quiet(m[id], before[id]);
  }

  /** After group `i` the later groups are as they were, and the earlier ones stay
      balanced. */
  lemma GroupDone(m: Allocations, before: Allocations, after: Allocations, job: Job, n: nat, i: nat,
                  nodeIds: set<string>)
    requires i < |job.groups| && DistinctGroups(job.groups)
    requires OthersKeep(before, after, job.id, job.groups[i].name)
    requires forall j :: i <= j < |job.groups| ==>
               ActiveIds(before, job.id, job.groups[j].name) == ActiveIds(m, job.id, job.groups[j].name)
    requires Advances(m, before, job.id, nodeIds)
    ensures forall j :: i < j < |job.groups| ==>
              ActiveIds(after, job.id, job.groups[j].name) == ActiveIds(m, job.id, job.groups[j].name)
    ensures
      && AllBalanced(m, before, job, n, i)
      && Balanced(before, after, job.id, job.groups[i].name, Desired(job, job.groups[i], n))
      ==> AllBalanced(m, after, job, n, i + 1)
  {
    hide Balanced, ActiveIds, Advances;
    var g := job.groups[i].name;
    BalanceFromStart(m, before, after, job.id, g, Desired(job, job.groups[i], n), nodeIds);
    forall j | 0 <= j < i
      ensures Balanced(m, before, job.id, job.groups[j].name, Desired(job, job.groups[j], n)) ==>
                Balanced(m, after, job.id, job.groups[j].name, Desired(job, job.groups[j], n))
    {
      BalanceKept(m, before, after, job.id, job.groups[j].name, Desired(job, job.groups[j], n));
    }
  }
}

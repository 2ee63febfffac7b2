/** The drift pass (src/domain/reconciler.rs): when the flake evaluates to another spec,
    a rolling update starts the new allocations before it stops the old ones. */
module DriftPass {
  import opened Common
  import opened Domain
  import opened StateStore
  import opened Executor
  import opened Passes
  import opened Placement
  import opened CountPass

  /** The flake reference of the first Nix task, over all groups in order. */
  function FlakeOfTasks(tasks: seq<Task>): Option<string> {
    if tasks == [] then None
    else if tasks[0].config.NixConfig? then Some(tasks[0].config.flakeRef)
    else FlakeOfTasks(tasks[1..])
  }

  function FlakeOf(groups: seq<TaskGroup>): Option<string> {
    if groups == [] then None
    else if FlakeOfTasks(groups[0].tasks).Some? then FlakeOfTasks(groups[0].tasks)
    else FlakeOf(groups[1..])
  }

  /** The outside of the pass: what a job's flake evaluates to, and the hash of a spec. */
  datatype Flakes = Flakes(eval: (string, string) -> Option<JobSpec>, hash: JobSpec -> string)

  /** The new spec, when there is one and its hash differs from the job's. */
  function Drifted(job: Job, f: Flakes): Option<JobSpec> {
    var flake := FlakeOf(job.groups);
    if flake.None? then None
    else
      var spec := f.eval(flake.value, job.id);
      if spec.None? || f.hash(spec.value) == (if job.specHash.Some? then job.specHash.value else "") then None
      else spec
  }

  // ---- when a job drifts ----

  ghost predicate NixAt(groups: seq<TaskGroup>, g: nat, t: nat) {
    g < |groups| && t < |groups[g].tasks| && groups[g].tasks[t].config.NixConfig?
  }

  /** Over all groups in order this is the first Nix task. */
  ghost predicate FirstNix(groups: seq<TaskGroup>, g: nat, t: nat) {
    && NixAt(groups, g, t)
    && forall h: nat, u: nat :: NixAt(groups, h, u) ==> g < h || (g == h && t <= u)
  }

  lemma {:induction false} FlakeOfTasksIs(tasks: seq<Task>, t: nat)
    requires t < |tasks| && tasks[t].config.NixConfig? && forall u :: 0 <= u < t ==> !tasks[u].config.NixConfig?
    ensures FlakeOfTasks(tasks) == Some(tasks[t].config.flakeRef)
    decreases t
  {
    if t > 0 {
      FlakeOfTasksIs(tasks[1..], t - 1);
    }
  }

  lemma {:induction false} NoFlakeInTasks(tasks: seq<Task>)
    requires forall u :: 0 <= u < |tasks| ==> !tasks[u].config.NixConfig?
    ensures FlakeOfTasks(tasks) == None
    decreases tasks
  {
    if tasks != [] {
      NoFlakeInTasks(tasks[1..]);
    }
  }

  lemma {:induction false} FlakeOfIs(groups: seq<TaskGroup>, g: nat, t: nat)
    requires FirstNix(groups, g, t)
    ensures FlakeOf(groups) == Some(groups[g].tasks[t].config.flakeRef)
    decreases g
  {
    if g == 0 {
      forall u: nat | u < t ensures !groups[0].tasks[u].config.NixConfig? {
        assert !NixAt(groups, 0, u);
      }
      FlakeOfTasksIs(groups[0].tasks, t);
    } else {
      forall u: nat | u < |groups[0].tasks| ensures !groups[0].tasks[u].config.NixConfig? {
        assert !NixAt(groups, 0, u);
      }
      NoFlakeInTasks(groups[0].tasks);
      forall h: nat, u: nat | NixAt(groups[1..], h, u) ensures g - 1 < h || (g - 1 == h && t <= u) {
        assert NixAt(groups, h + 1, u);
      }
      FlakeOfIs(groups[1..], g - 1, t);
    }
  }

  lemma {:induction false} FlakeIsSomewhere(groups: seq<TaskGroup>) returns (g: nat, t: nat)
    requires FlakeOf(groups).Some?
    ensures FirstNix(groups, g, t)
    decreases groups
  {
    if FlakeOfTasks(groups[0].tasks).Some? {
      g := 0;
      t := FirstInTasks(groups[0].tasks);
    } else {
      var h: nat;
      h, t := FlakeIsSomewhere(groups[1..]);
      g := h + 1;
      forall u: nat | NixAt(groups, 0, u) ensures false {
        SomeFlakeInTasks(groups[0].tasks, u);
      }
      forall k: nat, u: nat | NixAt(groups, k, u) ensures g < k || (g == k && t <= u) {
        assert k > 0;
        assert NixAt(groups[1..], k - 1, u);
      }
    }
  }

  lemma {:induction false} FirstInTasks(tasks: seq<Task>) returns (t: nat)
    requires FlakeOfTasks(tasks).Some?
    ensures t < |tasks| && tasks[t].config.NixConfig? && forall u :: 0 <= u < t ==> !tasks[u].config.NixConfig?
    decreases tasks
  {
    if tasks[0].config.NixConfig? {
      t := 0;
    } else {
      var u := FirstInTasks(tasks[1..]);
      t := u + 1;
    }
  }

  lemma {:induction false} SomeFlakeInTasks(tasks: seq<Task>, u: nat)
    requires u < |tasks| && tasks[u].config.NixConfig?
    ensures FlakeOfTasks(tasks).Some?
    decreases u
  {
    if u > 0 {
      SomeFlakeInTasks(tasks[1..], u - 1);
    }
  }

  /** Its first Nix task is there, and its flake evaluates to this spec with another hash than the
      one on record, the empty one standing for none. */
  ghost predicate DriftsAt(job: Job, f: Flakes, spec: JobSpec, g: nat, t: nat) {
    && FirstNix(job.groups, g, t) && NixAt(job.groups, g, t)
    && f.eval(job.groups[g].tasks[t].config.flakeRef, job.id) == Some(spec)
    && job.specHash != Some(f.hash(spec)) && !(job.specHash == None && f.hash(spec) == "")
  }

  /** A job drifts to `spec` if and only if the flake of its first Nix task evaluates to it and
      its hash is another than the one on record. */
  lemma DriftedIff(job: Job, f: Flakes, spec: JobSpec)
    ensures Drifted(job, f) == Some(spec) <==>
              exists g: nat, t: nat :: DriftsAt(job, f, spec, g, t)
  {
    hide FlakeOf, FirstNix;
    if Drifted(job, f) == Some(spec) {
      var g, t := FlakeIsSomewhere(job.groups);
      FlakeOfIs(job.groups, g, t);
      FirstIsNix(job.groups, g, t);
      assert DriftsAt(job, f, spec, g, t);
    }
    if g: nat, t: nat :| DriftsAt(job, f, spec, g, t) {
      FlakeOfIs(job.groups, g, t);
    }
  }

  lemma FirstIsNix(groups: seq<TaskGroup>, g: nat, t: nat)
    requires FirstNix(groups, g, t)
    ensures NixAt(groups, g, t)
  {}

  /** The record takes over the spec's content under this hash and version; everything else of
      the job stays. */
  ghost predicate TakesOver(was: Job, now: Job, spec: JobSpec, hash: string, version: nat) {
    && now.groups == spec.groups && now.constraints == spec.constraints && now.meta == spec.meta
    && now.specHash == Some(hash) && now.version == version
    && now.id == was.id && now.jobType == was.jobType && now.status == was.status && now.submittedAt == was.submittedAt
  }

  function Updated(j: Job, spec: JobSpec, hash: string, version: nat): Job {
    j.(groups := spec.groups, constraints := spec.constraints, meta := spec.meta, specHash := Some(hash),
       version := version)
  }

  /** The active allocations of an earlier version, in list order. */
  function Outdated(allocs: seq<Allocation>, version: nat): seq<Allocation> {
    if allocs == [] then []
    else if allocs[0].jobVersion < version && allocs[0].IsActive() then [allocs[0]] + Outdated(allocs[1..], version)
    else Outdated(allocs[1..], version)
  }

  ghost predicate Survives(groups: seq<TaskGroup>, group: string) {
    FindGroup(groups, group).Some?
  }

  function CountIn(allocs: seq<Allocation>, group: string): nat {
    if allocs == [] then 0
    else CountIn(allocs[..|allocs| - 1], group) + if allocs[|allocs| - 1].groupName == group then 1 else 0
  }

  /** Active allocations that were created after `m`. */
  function NewActive(m: Allocations, now: Allocations, jobId: string, group: string): set<Uuid> {
    ActiveIds(now, jobId, group) - m.Keys
  }

  // ---- creating the replacements ----

  /** Old allocations are as they were; every new one has the new version; each group
      that survives has one new active allocation for each of the first `i` outdated ones. */
  ghost predicate Replaced(m: Allocations, now: Allocations, jobId: string, groups: seq<TaskGroup>, version: nat,
                           olds: seq<Allocation>, i: nat)
    requires i <= |olds|
  {
    && (forall id :: id in m ==> id in now && now[id] == m[id])
    && (forall id :: id in now && id !in m ==> now[id].jobVersion == version)
    && (forall g :: |NewActive(m, now, jobId, g)| == if Survives(groups, g) then CountIn(olds[..i], g) else 0)
  }

  lemma NothingReplaced(m: Allocations, jobId: string, groups: seq<TaskGroup>, version: nat, olds: seq<Allocation>)
    ensures Replaced(m, m, jobId, groups, version, olds, 0)
  {
    assert forall g :: NewActive(m, m, jobId, g) == {};
    assert olds[..0] == [];
  }

  lemma CountInStep(olds: seq<Allocation>, i: nat, g: string)
    requires i < |olds|
    ensures CountIn(olds[..i + 1], g) == CountIn(olds[..i], g) + if olds[i].groupName == g then 1 else 0
  {
    assert olds[..i + 1][..i] == olds[..i];
  }

  lemma SkippedGroup(m: Allocations, now: Allocations, jobId: string, groups: seq<TaskGroup>, version: nat,
                     olds: seq<Allocation>, i: nat)
    requires i < |olds| && Replaced(m, now, jobId, groups, version, olds, i) && !Survives(groups, olds[i].groupName)
    ensures Replaced(m, now, jobId, groups, version, olds, i + 1)
  {
    hide NewActive, CountIn, Survives;
    forall g ensures |NewActive(m, now, jobId, g)| == if Survives(groups, g) then CountIn(olds[..i + 1], g) else 0 {
      CountInStep(olds, i, g);
    }
  }

  lemma ReplacedOne(m: Allocations, now: Allocations, now': Allocations, jobId: string, groups: seq<TaskGroup>,
                    version: nat, olds: seq<Allocation>, i: nat, a: Allocation)
    requires i < |olds| && Replaced(m, now, jobId, groups, version, olds, i) && Survives(groups, olds[i].groupName)
    requires a.id !in now && now'.Keys == now.Keys + {a.id} && forall id :: id in now ==> now'[id] == now[id]
    requires SameIdentity(a, now'[a.id]) && a.jobId == jobId && a.groupName == olds[i].groupName
             && a.jobVersion == version
    requires now'[a.id].IsActive()
    ensures Replaced(m, now', jobId, groups, version, olds, i + 1)
  {
    hide CountIn, Survives, NewActive, SameIdentity;
    assert forall id :: id in m ==> id in now;
    forall g ensures |NewActive(m, now', jobId, g)| == if Survives(groups, g) then CountIn(olds[..i + 1], g) else 0 {
      CountInStep(olds, i, g);
      NewActiveStep(m, now, now', jobId, a, g);
    }
    assert now'[a.id].jobVersion == version by { SameVersion(a, now'[a.id]); }
  }

  lemma SameVersion(a: Allocation, b: Allocation)
    requires SameIdentity(a, b)
    ensures b.jobVersion == a.jobVersion
  {}

  lemma NewActiveStep(m: Allocations, now: Allocations, now': Allocations, jobId: string, a: Allocation, g: string)
    requires a.id !in m && a.id !in now && now'.Keys == now.Keys + {a.id} && forall id :: id in now ==>
               now'[id] == now[id]
    requires SameIdentity(a, now'[a.id]) && a.jobId == jobId && now'[a.id].IsActive()
    ensures |NewActive(m, now', jobId, g)| == |NewActive(m, now, jobId, g)| + if g == a.groupName then 1 else 0
  {
    hide ActiveIds, SameIdentity;
    PlacedActive(now, now', a, jobId, g);
    NotYetActive(now, a.id, jobId, g);
    if g == a.groupName {
      OneMore(ActiveIds(now, jobId, g), m.Keys, a.id);
    }
  }

  lemma OneMore(s: set<Uuid>, k: set<Uuid>, x: Uuid)
    requires x !in s && x !in k
    ensures |(s + {x}) - k| == |s - k| + 1
  {
    assert (s + {x}) - k == (s - k) + {x};
  }

  /** In each of these states no surviving group has fewer active allocations than in `m`. */
  ghost predicate NeverFewer(m: Allocations, trace: seq<Allocations>, jobId: string, groups: seq<TaskGroup>) {
    forall t, g :: t in trace && Survives(groups, g) ==> |ActiveIds(t, jobId, g)| >= |ActiveIds(m, jobId, g)|
  }

  /** At most the allocation `id` differs. */
  ghost predicate ChangesOnly(a: Allocations, b: Allocations, id: Uuid) {
    forall k :: k != id ==> (k in a <==> k in b) && (k in a ==> a[k] == b[k])
  }

  ghost predicate OneChange(a: Allocations, b: Allocations) {
    exists id: Uuid :: ChangesOnly(a, b, id)
  }

  function At(m: Allocations, trace: seq<Allocations>, i: nat): Allocations
    requires i <= |trace|
  {
    if i == 0 then m else trace[i - 1]
  }

  /** `trace` leads from `m` to `end`, one allocation at a time. */
  ghost predicate StepByStep(m: Allocations, trace: seq<Allocations>, end: Allocations) {
    && At(m, trace, |trace|) == end
    && forall i: nat :: i < |trace| ==> OneChange(At(m, trace, i), trace[i])
  }

  lemma StepsJoin(m: Allocations, t1: seq<Allocations>, mid: Allocations, t2: seq<Allocations>, end: Allocations)
    requires StepByStep(m, t1, mid) && StepByStep(mid, t2, end)
    ensures StepByStep(m, t1 + t2, end)
  {
    hide OneChange;
    var t := t1 + t2;
    forall i: nat | i < |t| ensures OneChange(At(m, t, i), t[i]) {
      if i < |t1| {
        assert At(m, t, i) == At(m, t1, i) && t[i] == t1[i];
      } else {
        assert At(m, t, i) == At(mid, t2, i - |t1|) && t[i] == t2[i - |t1|];
      }
    }
  }

  lemma OneStep(a: Allocations, b: Allocations, id: Uuid)
    requires ChangesOnly(a, b, id)
    ensures StepByStep(a, [b], b)
  {}

  lemma TwoSteps(a: Allocations, b: Allocations, c: Allocations, id: Uuid)
    requires ChangesOnly(a, b, id) && ChangesOnly(b, c, id)
    ensures StepByStep(a, [b, c], c)
  {
    OneStep(a, b, id);
    OneStep(b, c, id);
    StepsJoin(a, [b], b, [c], c);
    assert [b] + [c] == [b, c];
  }

  lemma NeverFewerStep(m: Allocations, trace: seq<Allocations>, t: Allocations, jobId: string, groups: seq<TaskGroup>)
    requires NeverFewer(m, trace, jobId, groups)
    requires forall g :: Survives(groups, g) ==> |ActiveIds(t, jobId, g)| >= |ActiveIds(m, jobId, g)|
    ensures NeverFewer(m, trace + [t], jobId, groups)
  {
    assert forall x :: x in trace + [t] <==> x in trace || x == t;
  }

  lemma {:induction false} SubsetCount(a: set<Uuid>, b: set<Uuid>)
    requires a <= b
    ensures |a| <= |b|
  {
    assert b == a + (b - a);
  }

  lemma MoreActive(m: Allocations, now: Allocations, jobId: string, g: string)
    requires forall id :: id in m ==> id in now && now[id] == m[id]
    ensures |ActiveIds(m, jobId, g)| <= |ActiveIds(now, jobId, g)|
  {
    SubsetCount(ActiveIds(m, jobId, g), ActiveIds(now, jobId, g));
  }

  /** The drivers do what the update may ask of them: for an active allocation of the job, no
      start of a replacement is refused, and the drivers of what it runs exist. `stored` are
      the job's groups by the store, `groups` those of the new spec. */
  ghost predicate CanUpdate(w: World, stored: seq<TaskGroup>, m: Allocations, r: Tracks, jobId: string,
                            groups: seq<TaskGroup>)
  {
    forall id :: id in m && m[id].jobId == jobId && m[id].IsActive() ==>
        CanReplace(w, stored, m, m[id].groupName, groups) && DriversOf(w, TasksOf(r, id))
  }

  ghost predicate CanReplace(w: World, stored: seq<TaskGroup>, m: Allocations, group: string, groups: seq<TaskGroup>) {
    Survives(groups, group) ==> NoRefusal(w, stored, group, m)
  }

  /** There is a node, and no start of a replacement is refused. */
  ghost predicate CanReplaceAll(w: World, stored: seq<TaskGroup>, m: Allocations, olds: seq<Allocation>,
                                groups: seq<TaskGroup>, ready: seq<Node>)
  {
    ready != [] && forall o :: o in olds ==> CanReplace(w, stored, m, o.groupName, groups)
  }

  /** The old node if it is still ready, else the first ready one. */
  method ReplacementNode(ready: seq<Node>, nodeId: string) returns (r: Option<string>)
    ensures r.None? <==> ready == []
    ensures r.Some? ==> r.value in NodeIds(ready) && (nodeId in NodeIds(ready) ==> r.value == nodeId)
    ensures r.Some? && nodeId !in NodeIds(ready) ==> r.value == ready[0].id
  {
    for i := 0 to |ready|
      invariant forall k :: 0 <= k < i ==> ready[k].id != nodeId
    {
      if ready[i].id == nodeId {
        assert ready[i] in ready;
        return Some(nodeId);
      }
    }
    if ready == [] {
      return None;
    }
    assert ready[0] in ready;
    r := Some(ready[0].id);
  }

  /** A replacement of `o`: same group, by the new spec, under the new version, and on the
      same node while that is ready. */
  ghost predicate InPlaceOf(a: Allocation, o: Allocation, groups: seq<TaskGroup>, ready: seq<Node>, version: nat) {
    && FindGroup(groups, o.groupName).Some? && a.groupName == o.groupName && a.jobVersion == version
    && a.taskStates.Keys == NewTaskStates(FindGroup(groups, o.groupName).value.tasks).Keys
    && (o.nodeId in NodeIds(ready) ==> a.nodeId == o.nodeId)
  }

  /** Whatever is new replaces one of the outdated. */
  ghost predicate AllInPlace(m: Allocations, m': Allocations, groups: seq<TaskGroup>, ready: seq<Node>, version: nat,
                             olds: seq<Allocation>)
  {
    forall id :: id in m' && id !in m ==> exists o :: o in olds && InPlaceOf(m'[id], o, groups, ready, version)
  }

  lemma NoneInPlace(m: Allocations, groups: seq<TaskGroup>, ready: seq<Node>, version: nat, olds: seq<Allocation>)
    ensures AllInPlace(m, m, groups, ready, version, olds)
  {}

  lemma OneInPlace(m: Allocations, now: Allocations, now': Allocations, groups: seq<TaskGroup>, ready: seq<Node>,
                   version: nat, olds: seq<Allocation>, a: Allocation, o: Allocation)
    requires AllInPlace(m, now, groups, ready, version, olds) && o in olds && InPlaceOf(a, o, groups, ready, version)
    requires a.id !in now && now'.Keys == now.Keys + {a.id} && forall id :: id in now ==> now'[id] == now[id]
    requires SameIdentity(a, now'[a.id]) && now'[a.id].taskStates.Keys == a.taskStates.Keys
    ensures AllInPlace(m, now', groups, ready, version, olds)
  {
    hide NodeIds;
    assert InPlaceOf(now'[a.id], o, groups, ready, version);
    hide InPlaceOf;
  }

  lemma StillInPlace(m: Allocations, now: Allocations, now': Allocations, groups: seq<TaskGroup>, ready: seq<Node>,
                     version: nat, olds: seq<Allocation>, jobId: string, nodeIds: set<string>)
    requires AllInPlace(m, now, groups, ready, version, olds) && now'.Keys == now.Keys
             && Advances(now, now', jobId, nodeIds)
    ensures AllInPlace(m, now', groups, ready, version, olds)
  {
    hide NodeIds, FindGroup;
    forall id | id in now' && id !in m ensures exists o :: o in olds && InPlaceOf(now'[id], o, groups, ready, version) {
      var o :| o in olds && InPlaceOf(now[id], o, groups, ready, version);
      assert Quiet(now[id], now'[id]);
      assert InPlaceOf(now'[id], o, groups, ready, version);
    }
  }

  method CreateReplacements(ex: Executor, job: Job, spec: JobSpec, version: nat, olds: seq<Allocation>,
                            ready: seq<Node>, w: World)
    returns (ghost trace: seq<Allocations>)
    modifies ex.store`allocations, ex`running
    ensures Advances(old(ex.store.allocations), ex.store.allocations, job.id, NodeIds(ready))
    ensures TracksAdvance(w, GroupsIn(ex.store.jobs, job.id), old(ex.store.allocations), old(ex.running),
                          ex.store.allocations, ex.running)
    ensures StepByStep(old(ex.store.allocations), trace, ex.store.allocations)
    ensures AllInPlace(old(ex.store.allocations), ex.store.allocations, spec.groups, ready, version, olds)
    ensures CanReplaceAll(w, GroupsIn(ex.store.jobs, job.id), old(ex.store.allocations), olds, spec.groups, ready) ==>
              && Replaced(old(ex.store.allocations), ex.store.allocations, job.id, spec.groups, version, olds, |olds|)
              && NeverFewer(old(ex.store.allocations), trace, job.id, spec.groups)
  {
    hide TracksAdvance, Advances, IsNew, Quiet, Replaced, NeverFewer, StepByStep, AllInPlace;
    ghost var m, r := ex.store.allocations, ex.running;
    TracksReflexive(w, GroupsIn(ex.store.jobs, job.id), m, r);
    trace := [];
    NoSteps(m);
    NoneInPlace(m, spec.groups, ready, version, olds);
    AdvancesReflexive(m, job.id, NodeIds(ready));
    NothingReplaced(m, job.id, spec.groups, version, olds);
    NoTrace(m, job.id, spec.groups);
    for i := 0 to |olds|
      invariant Advances(m, ex.store.allocations, job.id, NodeIds(ready))
      invariant TracksAdvance(w, GroupsIn(ex.store.jobs, job.id), m, r, ex.store.allocations, ex.running)
      invariant StepByStep(m, trace, ex.store.allocations)
      invariant AllInPlace(m, ex.store.allocations, spec.groups, ready, version, olds)
      invariant CanReplaceAll(w, GroupsIn(ex.store.jobs, job.id), m, olds, spec.groups, ready) ==>
                  && Replaced(m, ex.store.allocations, job.id, spec.groups, version, olds, i)
                  && NeverFewer(m, trace, job.id, spec.groups)
    {
      var found := FindGroup(spec.groups, olds[i].groupName);
      if found.None? {
        if CanReplaceAll(w, GroupsIn(ex.store.jobs, job.id), m, olds, spec.groups, ready) {
          SkippedGroup(m, ex.store.allocations, job.id, spec.groups, version, olds, i);
        }
        continue;
      }
      var nodeId := ReplacementNode(ready, olds[i].nodeId);
      if nodeId.None? {
        continue;
      }
      ghost var before := ex.store.allocations;
      ghost var steps := ReplaceOne(ex, job, spec, found.value, nodeId.value, version, olds, i, ready, w, m, r);
      StepsJoin(m, trace, before, steps, ex.store.allocations);
      trace := trace + steps;
      if CanReplaceAll(w, GroupsIn(ex.store.jobs, job.id), m, olds, spec.groups, ready) {
        TraceGrows(m, trace[..|trace| - |steps|], steps, job.id, spec.groups);
        assert trace[..|trace| - |steps|] + steps == trace;
      }
    }
  }

  lemma NoSteps(m: Allocations)
    ensures StepByStep(m, [], m)
  {}

  lemma NoTrace(m: Allocations, jobId: string, groups: seq<TaskGroup>)
    ensures NeverFewer(m, [], jobId, groups)
  {}

  lemma TraceGrows(m: Allocations, trace: seq<Allocations>, steps: seq<Allocations>, jobId: string,
                   groups: seq<TaskGroup>)
    requires NeverFewer(m, trace, jobId, groups) && NeverFewer(m, steps, jobId, groups)
    ensures NeverFewer(m, trace + steps, jobId, groups)
  {
    assert forall x :: x in trace + steps <==> x in trace || x in steps;
  }

  /** Places and starts the replacement of one outdated allocation; `steps` are the states
      after the placing and after the start. */
  method ReplaceOne(ex: Executor, job: Job, spec: JobSpec, group: TaskGroup, nodeId: string, version: nat,
                    ghost olds: seq<Allocation>, ghost i: nat, ghost ready: seq<Node>, w: World, ghost m: Allocations,
                    ghost r: Tracks)
    returns (ghost steps: seq<Allocations>)
    requires i < |olds| && FindGroup(spec.groups, olds[i].groupName) == Some(group) && nodeId in NodeIds(ready)
    requires olds[i].nodeId in NodeIds(ready) ==> nodeId == olds[i].nodeId
    requires AllInPlace(m, ex.store.allocations, spec.groups, ready, version, olds)
    requires TracksAdvance(w, GroupsIn(ex.store.jobs, job.id), m, r, ex.store.allocations, ex.running)
    requires Advances(m, ex.store.allocations, job.id, NodeIds(ready))
    modifies ex.store`allocations, ex`running
    ensures Advances(m, ex.store.allocations, job.id, NodeIds(ready))
    ensures TracksAdvance(w, GroupsIn(ex.store.jobs, job.id), m, r, ex.store.allocations, ex.running)
    ensures StepByStep(old(ex.store.allocations), steps, ex.store.allocations)
    ensures AllInPlace(m, ex.store.allocations, spec.groups, ready, version, olds)
    ensures CanReplaceAll(w, GroupsIn(ex.store.jobs, job.id), m, olds, spec.groups, ready)
            && Replaced(m, old(ex.store.allocations), job.id, spec.groups, version, olds, i) ==>
              && Replaced(m, ex.store.allocations, job.id, spec.groups, version, olds, i + 1)
              && NeverFewer(m, steps, job.id, spec.groups)
  {
    hide TracksAdvance, Advances, IsNew, Quiet, Replaced, NeverFewer, ActiveIds, NodeIds, StepByStep, AllInPlace;
    var a := MakeAllocation(ex.store, job, group, nodeId, version, w.now);
    ghost var before, before' := ex.store.allocations, ex.running;
    var ok := PlaceAndStart(ex, a, w, NodeIds(ready));
    ghost var placed, after := before[a.id := a], ex.store.allocations;
    steps := [placed, after];
    OneInPlace(m, before, after, spec.groups, ready, version, olds, a, olds[i]);
    TwoSteps(before, placed, after, a.id);
    PlacedAdvances(before, after, a, NodeIds(ready));
    TracksTransitive(w, GroupsIn(ex.store.jobs, job.id), m, r, before, before', after, ex.running, job.id,
                     NodeIds(ready));
    AdvancesTransitive(m, before, after, job.id, NodeIds(ready));
    if CanReplaceAll(w, GroupsIn(ex.store.jobs, job.id), m, olds, spec.groups, ready)
       && Replaced(m, before, job.id, spec.groups, version, olds, i) {
      assert !RefusedStart(w, GroupOf(ex.store.jobs, a), a.id) by {
        AdvancesOnly(m, before, job.id, NodeIds(ready));
        NotRefused(w, GroupsIn(ex.store.jobs, job.id), m, olds, spec.groups, ready, i, a.id);
      }
      ReplacedOne(m, before, after, job.id, spec.groups, version, olds, i, a);
      ReplacedOne(m, before, placed, job.id, spec.groups, version, olds, i, a);
      StepsNeverFewer(m, placed, after, job.id, spec.groups, version, olds, i + 1);
    }
  }

  lemma NotRefused(w: World, stored: seq<TaskGroup>, m: Allocations, olds: seq<Allocation>, groups: seq<TaskGroup>,
                   ready: seq<Node>, i: nat, id: Uuid)
    requires CanReplaceAll(w, stored, m, olds, groups, ready) && i < |olds| && Survives(groups, olds[i].groupName)
    requires id !in m
    ensures !RefusedStart(w, FindGroup(stored, olds[i].groupName), id)
  {
    hide RefusedStart;
    assert CanReplace(w, stored, m, olds[i].groupName, groups);
  }

  lemma StepsNeverFewer(m: Allocations, t: Allocations, t': Allocations, jobId: string, groups: seq<TaskGroup>,
                        version: nat, olds: seq<Allocation>, i: nat)
    requires i <= |olds| && Replaced(m, t, jobId, groups, version, olds, i)
             && Replaced(m, t', jobId, groups, version, olds, i)
    ensures NeverFewer(m, [t, t'], jobId, groups)
  {
    forall g
      ensures |ActiveIds(t, jobId, g)| >= |ActiveIds(m, jobId, g)|
              && |ActiveIds(t', jobId, g)| >= |ActiveIds(m, jobId, g)|
    {
      MoreActive(m, t, jobId, g);
      MoreActive(m, t', jobId, g);
    }
  }

  // ---- stopping the outdated ones ----

  /** The new allocations run, and the first `k` outdated ones are no longer active. */
  ghost predicate Retired(m: Allocations, full: Allocations, now: Allocations, jobId: string, olds: seq<Allocation>,
                          k: nat)
    requires k <= |olds|
  {
    && now.Keys == full.Keys
    && (forall id :: id in now && id !in Ids(olds[..k]) ==> now[id] == full[id])
    && (forall id :: id in now && id in Ids(olds[..k]) ==> now[id].IsTerminal())
  }

  /** Every active allocation of `m` is among the outdated ones and has its replacement. */
  ghost predicate AllReplaced(m: Allocations, full: Allocations, jobId: string, groups: seq<TaskGroup>, version: nat,
                              olds: seq<Allocation>)
  {
    && Replaced(m, full, jobId, groups, version, olds, |olds|) && Ids(olds) <= m.Keys
    && (forall g :: CountIn(olds, g) == |ActiveIds(m, jobId, g)|)
    && (forall g, id :: id in ActiveIds(m, jobId, g) ==> id in Ids(olds))
  }

  lemma RetiredStep(m: Allocations, full: Allocations, now: Allocations, jobId: string, olds: seq<Allocation>, k: nat,
                    when: Time)
    requires k < |olds| && Retired(m, full, now, jobId, olds, k) && olds[k].id in now
    ensures Retired(m, full, now[olds[k].id := Stopped(now[olds[k].id], when)], jobId, olds, k + 1)
  {
    assert Ids(olds[..k + 1]) == Ids(olds[..k]) + {olds[k].id} by {
      assert olds[..k + 1] == olds[..k] + [olds[k]];
    }
  }

  /** Stopping outdated allocations never takes a surviving group below where it began. */
  lemma RetiredKeepsCount(m: Allocations, full: Allocations, now: Allocations, jobId: string, groups: seq<TaskGroup>,
                          version: nat, olds: seq<Allocation>, k: nat)
    requires k <= |olds| && Retired(m, full, now, jobId, olds, k)
    requires AllReplaced(m, full, jobId, groups, version, olds)
    ensures forall g :: Survives(groups, g) ==> |ActiveIds(now, jobId, g)| >= |ActiveIds(m, jobId, g)|
  {
    assert olds[..|olds|] == olds;
    assert Ids(olds[..k]) <= Ids(olds);
    forall g | Survives(groups, g) ensures |ActiveIds(now, jobId, g)| >= |ActiveIds(m, jobId, g)| {
      assert NewActive(m, full, jobId, g) <= ActiveIds(now, jobId, g);
      SubsetCount(NewActive(m, full, jobId, g), ActiveIds(now, jobId, g));
    }
  }

  method StopOutdated(ex: Executor, job: Job, spec: JobSpec, version: nat, olds: seq<Allocation>, w: World,
                      ghost m: Allocations, ghost nodeIds: set<string>) returns (ghost trace: seq<Allocations>)
    requires Ids(olds) <= ex.store.allocations.Keys
    requires forall a :: a in olds ==> ex.store.allocations[a.id].jobId == job.id
    modifies ex.store`allocations, ex`running
    ensures Advances(old(ex.store.allocations), ex.store.allocations, job.id, nodeIds)
    ensures ex.store.allocations.Keys == old(ex.store.allocations).Keys
    ensures TracksAdvance(w, GroupsIn(ex.store.jobs, job.id), old(ex.store.allocations), old(ex.running),
                          ex.store.allocations, ex.running)
    ensures StepByStep(old(ex.store.allocations), trace, ex.store.allocations)
    ensures Stoppable(w, old(ex.running), Ids(olds)) ==>
              Retired(m, old(ex.store.allocations), ex.store.allocations, job.id, olds, |olds|)
    ensures Stoppable(w, old(ex.running), Ids(olds))
            && AllReplaced(m, old(ex.store.allocations), job.id, spec.groups, version, olds) ==>
              NeverFewer(m, trace, job.id, spec.groups)
  {
    hide TracksAdvance, Advances, IsNew, Quiet, AllReplaced, NeverFewer, CountIn, ActiveIds, StepByStep, ChangesOnly,
         DriversOf;
    ghost var full, r := ex.store.allocations, ex.running;
    TracksReflexive(w, GroupsIn(ex.store.jobs, job.id), full, r);
    trace := [];
    NoSteps(full);
    AdvancesReflexive(full, job.id, nodeIds);
    NoTrace(m, job.id, spec.groups);
    for k := 0 to |olds|
      invariant Advances(full, ex.store.allocations, job.id, nodeIds)
      invariant ex.store.allocations.Keys == full.Keys
      invariant TracksAdvance(w, GroupsIn(ex.store.jobs, job.id), full, r, ex.store.allocations, ex.running)
      invariant StepByStep(full, trace, ex.store.allocations)
      invariant forall a :: a in olds ==> ex.store.allocations[a.id].jobId == job.id
      invariant forall id :: id in ex.running ==> id in r && ex.running[id] == r[id]
      invariant Stoppable(w, r, Ids(olds)) ==> Retired(m, full, ex.store.allocations, job.id, olds, k)
      invariant Stoppable(w, r, Ids(olds)) && AllReplaced(m, full, job.id, spec.groups, version, olds) ==>
                  NeverFewer(m, trace, job.id, spec.groups)
    {
      assert olds[k] in olds;
      ghost var before, before' := ex.store.allocations, ex.running;
      var ok := ex.StopAllocation(olds[k].id, w);
      if ok {
        StopAdvances(before, olds[k].id, w.now, job.id, nodeIds);
        AdvancesTransitive(full, before, ex.store.allocations, job.id, nodeIds);
      } else {
        AdvancesReflexive(before, job.id, nodeIds);
      }
      DropStep(w, GroupsIn(ex.store.jobs, job.id), full, r, before, before', ex.store.allocations, olds[k].id, job.id,
               nodeIds);
      if Stoppable(w, r, Ids(olds)) {
        assert olds[k].id in Ids(olds);
        assert ok by { StillStoppable(w, r, before', olds[k].id); }
        RetiredStep(m, full, before, job.id, olds, k, w.now);
        if AllReplaced(m, full, job.id, spec.groups, version, olds) {
          RetiredKeepsCount(m, full, ex.store.allocations, job.id, spec.groups, version, olds, k + 1);
          NeverFewerStep(m, trace, ex.store.allocations, job.id, spec.groups);
        }
      }
      StopChangesOne(before, olds[k].id, w.now);
      OneStep(before, ex.store.allocations, olds[k].id);
      StepsJoin(full, trace, before, [ex.store.allocations], ex.store.allocations);
      trace := trace + [ex.store.allocations];
    }
  }

  lemma StillStoppable(w: World, r: Tracks, r': Tracks, id: Uuid)
    requires DriversOf(w, TasksOf(r, id)) && (id in r' ==> id in r && r'[id] == r[id])
    ensures DriversOf(w, TasksOf(r', id))
  {}

  lemma DropStep(w: World, groups: seq<TaskGroup>, m: Allocations, r: Tracks, m1: Allocations, r1: Tracks,
                 m2: Allocations, id: Uuid, jobId: string, nodeIds: set<string>)
    requires Advances(m, m1, jobId, nodeIds) && Advances(m1, m2, jobId, nodeIds)
             && TracksAdvance(w, groups, m, r, m1, r1)
    requires DriversOf(w, TasksOf(r1, id)) && id in m1 ==> id in m2 && m2[id].IsTerminal()
    ensures TracksAdvance(w, groups, m, r, m2, r1 - {id})
  {
    hide TracksAdvance, Advances;
    TracksDrop(w, groups, m1, r1, m2, id);
    TracksTransitive(w, groups, m, r, m1, r1, m2, r1 - {id}, jobId, nodeIds);
  }

  lemma StopChangesOne(m: Allocations, id: Uuid, now: Time)
    requires id in m
    ensures ChangesOnly(m, m, id) && ChangesOnly(m, m[id := Stopped(m[id], now)], id)
  {}

  // ---- the whole pass ----

  /** No active allocation of the job is newer than the job. */
  ghost predicate NoneNewer(m: Allocations, jobId: string, version: nat) {
    forall id :: id in m && m[id].jobId == jobId && m[id].IsActive() ==> m[id].jobVersion <= version
  }

  /** The outcome of a rolling update to `spec`. */
  ghost predicate RolledOver(m: Allocations, m': Allocations, job: Job, spec: JobSpec) {
    && (forall g :: |ActiveIds(m', job.id, g)| == if Survives(spec.groups, g) then |ActiveIds(m, job.id, g)| else 0)
    && (forall id :: id in m' && m'[id].jobId == job.id && m'[id].IsActive() ==> m'[id].jobVersion == job.version + 1)
  }

  lemma {:induction false} OutdatedMembers(allocs: seq<Allocation>, version: nat)
    ensures forall a :: a in Outdated(allocs, version) <==> a in allocs && a.jobVersion < version && a.IsActive()
    decreases allocs
  {
    if allocs != [] {
      OutdatedMembers(allocs[1..], version);
      assert forall a :: a in allocs <==> a == allocs[0] || a in allocs[1..];
    }
  }

  /** When nothing active is newer than the job, the outdated ones are all the active
      ones, group by group. */
  lemma {:induction false} OutdatedIsActive(allocs: seq<Allocation>, version: nat, g: string)
    requires forall a :: a in allocs && a.IsActive() ==> a.jobVersion < version
    ensures CountFront(Outdated(allocs, version), g) == |ActiveOf(allocs, g)|
    decreases allocs
  {
    if allocs != [] {
      assert forall a :: a in allocs[1..] ==> a in allocs;
      assert allocs[0] in allocs;
      OutdatedIsActive(allocs[1..], version, g);
      var rest := Outdated(allocs[1..], version);
      assert ([allocs[0]] + rest)[1..] == rest;
    }
  }

  function CountFront(allocs: seq<Allocation>, group: string): nat {
    if allocs == [] then 0 else (if allocs[0].groupName == group then 1 else 0) + CountFront(allocs[1..], group)
  }

  lemma {:induction false} CountEitherEnd(allocs: seq<Allocation>, g: string)
    ensures CountFront(allocs, g) == CountIn(allocs, g)
    decreases |allocs|
  {
    if |allocs| == 1 {
      assert allocs[1..] == [] && allocs[..0] == [];
    } else if |allocs| > 1 {
      var n := |allocs| - 1;
      CountEitherEnd(allocs[1..], g);
      CountEitherEnd(allocs[..n], g);
      CountEitherEnd(allocs[1..][..n - 1], g);
      assert allocs[..n][1..] == allocs[1..][..n - 1];
      assert allocs[1..][n - 1] == allocs[n];
    }
  }

  lemma OutdatedCounts(m: Allocations, jobId: string, version: nat, allocs: seq<Allocation>)
    requires Keyed(m, AllocationKey) && ListsValues(OfJob(m, jobId), allocs, AllocationKey)
    ensures Ids(Outdated(allocs, version + 1)) <= m.Keys
    ensures forall a :: a in Outdated(allocs, version + 1) ==> m[a.id] == a && a.jobId == jobId && a.IsActive()
    ensures NoneNewer(m, jobId, version) ==>
              forall g :: CountIn(Outdated(allocs, version + 1), g) == |ActiveIds(m, jobId, g)|
    ensures NoneNewer(m, jobId, version) ==>
              forall g, id :: id in ActiveIds(m, jobId, g) ==> id in Ids(Outdated(allocs, version + 1))
  {
    var olds := Outdated(allocs, version + 1);
    OutdatedMembers(allocs, version + 1);
    if NoneNewer(m, jobId, version) {
      forall a | a in allocs && a.IsActive() ensures a.jobVersion < version + 1 {
        assert m[a.id] == a;
      }
      forall g ensures CountIn(olds, g) == |ActiveIds(m, jobId, g)| {
        OutdatedIsActive(allocs, version + 1, g);
        CountEitherEnd(olds, g);
        ListingIsActive(m, jobId, g, allocs);
      }
      forall g, id | id in ActiveIds(m, jobId, g) ensures id in Ids(olds) {
        assert id in OfJob(m, jobId) && m[id] in allocs && m[id] in olds;
      }
    }
  }

  /** With the replacements running and the outdated ones retired the update is done. */
  lemma RollOverDone(m: Allocations, full: Allocations, m': Allocations, job: Job, spec: JobSpec, olds: seq<Allocation>)
    requires AllReplaced(m, full, job.id, spec.groups, job.version + 1, olds)
    requires Retired(m, full, m', job.id, olds, |olds|)
    ensures RolledOver(m, m', job, spec)
  {
    assert olds[..|olds|] == olds;
    forall g ensures |ActiveIds(m', job.id, g)| == if Survives(spec.groups, g) then |ActiveIds(m, job.id, g)| else 0 {
      ActiveAreNew(m, full, m', job.id, olds, g);
    }
    forall id | id in m' && m'[id].jobId == job.id && m'[id].IsActive() ensures m'[id].jobVersion == job.version + 1 {
      ActiveAreNew(m, full, m', job.id, olds, m'[id].groupName);
      assert id in ActiveIds(m', job.id, m'[id].groupName);
    }
  }

  lemma ActiveAreNew(m: Allocations, full: Allocations, m': Allocations, jobId: string, olds: seq<Allocation>,
                     g: string)
    requires Retired(m, full, m', jobId, olds, |olds|) && Ids(olds) <= m.Keys
    requires forall id :: id in m ==> id in full && full[id] == m[id]
    requires forall id :: id in ActiveIds(m, jobId, g) ==> id in Ids(olds)
    ensures ActiveIds(m', jobId, g) == NewActive(m, full, jobId, g)
  {
    assert olds[..|olds|] == olds;
    forall id ensures id in ActiveIds(m', jobId, g) <==> id in NewActive(m, full, jobId, g) {}
  }

  /** The rolling update, once the job has the new spec. */
  method RollOver(ex: Executor, job: Job, spec: JobSpec, w: World)
    returns (ghost trace: seq<Allocations>, ghost listed: seq<Allocation>, ghost nodes: seq<Node>)
    requires ex.store.Valid()
    modifies ex.store`allocations, ex`running
    ensures ex.store.Valid()
    ensures Advances(old(ex.store.allocations), ex.store.allocations, job.id, ex.store.nodes.Keys)
    ensures TracksAdvance(w, GroupsIn(ex.store.jobs, job.id), old(ex.store.allocations), old(ex.running),
                          ex.store.allocations, ex.running)
    ensures StepByStep(old(ex.store.allocations), trace, ex.store.allocations)
    ensures ListsValues(OfJob(old(ex.store.allocations), job.id), listed, AllocationKey)
            && ListsValues(ex.store.nodes, nodes, NodeKey)
    ensures AllInPlace(old(ex.store.allocations), ex.store.allocations, spec.groups, Ready(nodes), job.version + 1,
                       Outdated(listed, job.version + 1))
    ensures && CanUpdate(w, GroupsIn(ex.store.jobs, job.id), old(ex.store.allocations), old(ex.running), job.id,
                         spec.groups)
            && Ready(nodes) != [] && NoneNewer(old(ex.store.allocations), job.id, job.version) ==>
              && RolledOver(old(ex.store.allocations), ex.store.allocations, job, spec)
              && NeverFewer(old(ex.store.allocations), trace, job.id, spec.groups)
  {
    hide TracksAdvance, Advances, IsNew, Quiet, Replaced, NeverFewer, Retired, ActiveIds, CountIn, RolledOver,
         NoneNewer;
    hide Ready, Outdated, Ids, FindGroup, StepByStep, AllInPlace, CanUpdate, ListsValues, Keyed, AllReplaced,
         CanReplaceAll, Stoppable;
    ghost var m, r := ex.store.allocations, ex.running;
    var version := job.version + 1;
    var allocs := ex.store.ListAllocationsForJob(job.id);
    var olds := Outdated(allocs, version);
    OutdatedCounts(m, job.id, job.version, allocs);
    var nodeList := ex.store.ListNodes();
    var ready := Ready(nodeList);
    listed, nodes := allocs, nodeList;
    ReadyListed(ex.store.nodes, nodeList);
    ghost var t1 := CreateReplacements(ex, job, spec, version, olds, ready, w);
    ghost var full, r1 := ex.store.allocations, ex.running;
    OldsRemain(m, full, job.id, NodeIds(ready), olds);
    ghost var t2 := StopOutdated(ex, job, spec, version, olds, w, m, NodeIds(ready));
    StillInPlace(m, full, ex.store.allocations, spec.groups, ready, version, olds, job.id, NodeIds(ready));
    trace := t1 + t2;
    StepsJoin(m, t1, full, t2, ex.store.allocations);
    TracksTransitive(w, GroupsIn(ex.store.jobs, job.id), m, r, full, r1, ex.store.allocations, ex.running, job.id,
                     NodeIds(ready));
    AdvancesTransitive(m, full, ex.store.allocations, job.id, NodeIds(ready));
    AdvancesWiden(m, ex.store.allocations, job.id, NodeIds(ready), ex.store.nodes.Keys);
    KeyedAfter(m, ex.store.allocations, job.id, NodeIds(ready));
    ghost var stored := GroupsIn(ex.store.jobs, job.id);
    if CanUpdate(w, stored, m, r, job.id, spec.groups) && ready != [] && NoneNewer(m, job.id, job.version) {
      AsksOfOutdated(w, stored, m, r, job.id, spec.groups, olds, ready);
      StaysStoppable(w, stored, m, r, full, r1, Ids(olds));
      AllReplacedWhen(m, full, job, spec, olds);
      TraceGrows(m, t1, t2, job.id, spec.groups);
      RollOverDone(m, full, ex.store.allocations, job, spec, olds);
    }
  }

  lemma AllReplacedWhen(m: Allocations, full: Allocations, job: Job, spec: JobSpec, olds: seq<Allocation>)
    requires Replaced(m, full, job.id, spec.groups, job.version + 1, olds, |olds|) && Ids(olds) <= m.Keys
    requires forall g :: CountIn(olds, g) == |ActiveIds(m, job.id, g)|
    requires forall g, id :: id in ActiveIds(m, job.id, g) ==> id in Ids(olds)
    ensures AllReplaced(m, full, job.id, spec.groups, job.version + 1, olds)
  {}

  /** What the update asks for the outdated allocations. */
  lemma AsksOfOutdated(w: World, stored: seq<TaskGroup>, m: Allocations, r: Tracks, jobId: string,
                       groups: seq<TaskGroup>, olds: seq<Allocation>, ready: seq<Node>)
    requires CanUpdate(w, stored, m, r, jobId, groups) && ready != [] && Ids(olds) <= m.Keys
    requires forall a :: a in olds ==> m[a.id] == a && a.jobId == jobId && a.IsActive()
    ensures CanReplaceAll(w, stored, m, olds, groups, ready) && Stoppable(w, r, Ids(olds))
  {
    hide CanReplace, DriversOf;
    forall o | o in olds ensures CanReplace(w, stored, m, o.groupName, groups) && DriversOf(w, TasksOf(r, o.id)) {
      assert o.id in Ids(olds) && m[o.id] == o;
    }
  }

  /** `reconcile_drift`. */
  method ReconcileDrift(ex: Executor, job: Job, f: Flakes, w: World)
    returns (ghost trace: seq<Allocations>, ghost listed: seq<Allocation>, ghost nodes: seq<Node>)
    requires ex.store.Valid()
    modifies ex.store`jobs, ex.store`allocations, ex`running
    ensures ex.store.Valid()
    ensures Advances(old(ex.store.allocations), ex.store.allocations, job.id, ex.store.nodes.Keys)
    ensures TracksAdvance(w, GroupsIn(ex.store.jobs, job.id), old(ex.store.allocations), old(ex.running),
                          ex.store.allocations, ex.running)
    ensures StepByStep(old(ex.store.allocations), trace, ex.store.allocations)
    ensures Drifted(job, f).None? ==>
              ex.store.jobs == old(ex.store.jobs) && ex.store.allocations == old(ex.store.allocations)
                  && ex.running == old(ex.running)
    ensures Drifted(job, f).Some? ==>
              ex.store.jobs == JobsUpdated(old(ex.store.jobs), job, Drifted(job, f).value, f)
    ensures Drifted(job, f).Some? ==>
              && ex.store.jobs.Keys == old(ex.store.jobs).Keys
              && (forall id :: id in ex.store.jobs && id != job.id ==> ex.store.jobs[id] == old(ex.store.jobs)[id])
              && (job.id in ex.store.jobs ==>
                    var spec := Drifted(job, f).value;
                    TakesOver(old(ex.store.jobs)[job.id], ex.store.jobs[job.id], spec, f.hash(spec), job.version + 1))
    ensures Drifted(job, f).Some? && NoneNewer(old(ex.store.allocations), job.id, job.version) ==>
              NoneNewer(ex.store.allocations, job.id, job.version + 1)
    ensures Drifted(job, f).Some? ==>
              && ListsValues(OfJob(old(ex.store.allocations), job.id), listed, AllocationKey)
                  && ListsValues(ex.store.nodes, nodes, NodeKey)
              && AllInPlace(old(ex.store.allocations), ex.store.allocations, Drifted(job, f).value.groups, Ready(nodes),
                            job.version + 1,
                            Outdated(listed, job.version + 1))
    ensures && Drifted(job, f).Some?
            && CanUpdate(w, GroupsIn(ex.store.jobs, job.id), old(ex.store.allocations), old(ex.running), job.id,
                         Drifted(job, f).value.groups)
            && UsableIds(ex.store.nodes) != {}
            && NoneNewer(old(ex.store.allocations), job.id, job.version) ==>
              && RolledOver(old(ex.store.allocations), ex.store.allocations, job, Drifted(job, f).value)
              && NeverFewer(old(ex.store.allocations), trace, job.id, Drifted(job, f).value.groups)
              && (job.id in ex.store.jobs ==>
                    forall id :: id in ex.store.allocations && ex.store.allocations[id].jobId == job.id
                                 && ex.store.allocations[id].IsActive() ==>
                        ex.store.allocations[id].jobVersion == ex.store.jobs[job.id].version)
  {
    hide TracksAdvance, Advances, NeverFewer, RolledOver, NoneNewer, Ready, Outdated, StepByStep, AllInPlace,
         ListsValues, CanUpdate;
    trace, listed, nodes := [], [], [];
    NoSteps(ex.store.allocations);
    TracksReflexive(w, GroupsIn(ex.store.jobs, job.id), ex.store.allocations, ex.running);
    AdvancesReflexive(ex.store.allocations, job.id, ex.store.nodes.Keys);
    var flake := FlakeOf(job.groups);
    if flake.None? {
      return;
    }
    var evaluated := f.eval(flake.value, job.id);
    if evaluated.None? {
      return;
    }
    var spec := evaluated.value;
    var hash := f.hash(spec);
    if hash == (if job.specHash.Some? then job.specHash.value else "") {
      return;
    }
    var _ := ex.store.UpdateJob(job.id, j => Updated(j, spec, hash, job.version + 1));
    JobsStayKeyed(old(ex.store.jobs), job.id, spec, hash, job.version + 1);
    trace, listed, nodes := RollOver(ex, job, spec, w);
    ReadyListed(ex.store.nodes, nodes);
    NoneNewerAfter(old(ex.store.allocations), ex.store.allocations, job, ex.store.nodes.Keys, spec.groups, Ready(nodes),
                   Outdated(listed, job.version + 1));
    VersionsMeet(old(ex.store.allocations), ex.store.allocations, job, spec);
  }

  lemma VersionsMeet(m: Allocations, m': Allocations, job: Job, spec: JobSpec)
    ensures RolledOver(m, m', job, spec) ==>
              forall id :: id in m' && m'[id].jobId == job.id && m'[id].IsActive() ==>
                  m'[id].jobVersion == job.version + 1
  {}

  /** After the update the job is again at least as new as everything active. */
  lemma NoneNewerAfter(m: Allocations, m': Allocations, job: Job, nodeIds: set<string>, groups: seq<TaskGroup>,
                       ready: seq<Node>, olds: seq<Allocation>)
    requires Advances(m, m', job.id, nodeIds) && AllInPlace(m, m', groups, ready, job.version + 1, olds)
    ensures NoneNewer(m, job.id, job.version) ==> NoneNewer(m', job.id, job.version + 1)
  {
    forall id | NoneNewer(m, job.id, job.version) && id in m' && m'[id].jobId == job.id && m'[id].IsActive()
      ensures m'[id].jobVersion <= job.version + 1
    {
      if id in m {
        assert Quiet(m[id], m'[id]);
      }
    }
  }

  /** The job with the new spec, under the next version. */
  function JobsUpdated(jobs: map<string, Job>, job: Job, spec: JobSpec, f: Flakes): map<string, Job> {
    if job.id in jobs then jobs[job.id := Updated(jobs[job.id], spec, f.hash(spec), job.version + 1)] else jobs
  }

  lemma JobsStayKeyed(jobs: map<string, Job>, id: string, spec: JobSpec, hash: string, version: nat)
    requires Keyed(jobs, JobKey)
    ensures Keyed(if id in jobs then jobs[id := Updated(jobs[id], spec, hash, version)] else jobs, JobKey)
  {}

  lemma OldsRemain(m: Allocations, full: Allocations, jobId: string, nodeIds: set<string>, olds: seq<Allocation>)
    requires Advances(m, full, jobId, nodeIds) && Ids(olds) <= m.Keys && forall a :: a in olds ==>
               m[a.id].jobId == jobId
    ensures Ids(olds) <= full.Keys && forall a :: a in olds ==> full[a.id].jobId == jobId
  {
    forall a | a in olds ensures a.id in full && full[a.id].jobId == jobId {
      assert a.id in Ids(olds);
      assert Quiet(m[a.id], full[a.id]);
    }
  }

  lemma AdvancesWiden(m: Allocations, m': Allocations, jobId: string, nodeIds: set<string>, wider: set<string>)
    requires Advances(m, m', jobId, nodeIds) && nodeIds <= wider
    ensures Advances(m, m', jobId, wider)
  {}

  /** The nodes that may be given work. */
  function UsableIds(nodes: map<string, Node>): set<string> {
    set id | id in nodes && nodes[id].status == NodeReady && nodes[id].eligible
  }

  /** The ready nodes of a listing are nodes of the store, and there is one when the
      store has a usable node. */
  lemma ReadyListed(m: map<string, Node>, nodes: seq<Node>)
    requires ListsValues(m, nodes, NodeKey)
    ensures NodeIds(Ready(nodes)) <= m.Keys
    ensures UsableIds(m) != {} ==> Ready(nodes) != []
  {
    ReadyMembers(nodes);
    forall id | id in NodeIds(Ready(nodes)) ensures id in m {
      var n :| n in Ready(nodes) && n.id == id;
      var i :| 0 <= i < |nodes| && nodes[i] == n;
      assert NodeKey(nodes[i]) in m;
    }
    if id :| id in UsableIds(m) {
      assert m[id] in nodes && m[id] in Ready(nodes);
    }
  }
}

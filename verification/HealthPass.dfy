/** The health and node-liveness passes (src/domain/reconciler.rs). */
module HealthPass {
  import opened Common
  import opened Domain
  import opened StateStore
  import opened Executor
  import opened Passes

  /** Restarts a policy allows: none under Never. */
  function Limit(p: RestartPolicy): nat {
    if p.mode.Never? then 0 else p.attempts
  }

  /** Decided from the allocation as it was listed: a task that exited with code 0 is not
      restarted on failure, one without a recorded code is. */
  predicate ShouldRestart(p: RestartPolicy, listed: Allocation, name: string) {
    var exit := if name in listed.taskStates then listed.taskStates[name].exitCode else None;
    match p.mode
    case Never => false
    case OnFailure => (exit.Some? ==> exit.value != 0) && Restarts(listed, name) < p.attempts
    case Always => Restarts(listed, name) < p.attempts
  }

  function MarkDead(a: Allocation, name: string, now: Time): Allocation {
    if name !in a.taskStates then a
    else a.(taskStates := a.taskStates[name := a.taskStates[name].(state := TaskDead, finishedAt := Some(now))])
  }

  /** What `restart_task` would start again. */
  function RestartTarget(groups: seq<TaskGroup>, a: Allocation, name: string): Option<Task> {
    var group := FindGroup(groups, a.groupName);
    if group.None? then None else FindTask(group.value.tasks, name)
  }

  datatype Health = Health(alloc: Allocation, tasks: seq<RunningTask>, allDead: bool)

  /** One turn of the inner loop. */
  function HealthStep(w: World, groups: seq<TaskGroup>, listed: Allocation, p: RestartPolicy, h: Health,
                      r: TaskReport): Health
  {
    if r.state != TaskDead then h.(allDead := false)
    else if ShouldRestart(p, listed, r.name) then
      var target := RestartTarget(groups, listed, r.name);
      if target.None? then h
      else if TaskStarts(w, listed.id, target.value) then
        Health(Restarted(h.alloc, r.name, w.handle(listed.id, r.name)),
               WithoutTask(h.tasks, r.name) + [RunningTask(r.name, target.value.driver)], false)
      else h.(tasks := WithoutTask(h.tasks, r.name))
    else if p.mode.Never? then h
    else h.(alloc := MarkDead(h.alloc, r.name, w.now))
  }

  function HealthFold(w: World, groups: seq<TaskGroup>, listed: Allocation, p: RestartPolicy, tasks: seq<RunningTask>,
                      reports: seq<TaskReport>, i: nat): Health
    requires i <= |reports|
  {
    if i == 0 then Health(listed, tasks, true)
    else HealthStep(w, groups, listed, p, HealthFold(w, groups, listed, p, tasks, reports, i - 1), reports[i - 1])
  }

  /** What the pass makes of one running, tracked allocation and its tasks. */
  function HealthOf(w: World, groups: seq<TaskGroup>, a: Allocation, p: RestartPolicy,
                    tasks: seq<RunningTask>): (Allocation, seq<RunningTask>)
  {
    var reports := Reports(w, a.id, tasks);
    var h := HealthFold(w, groups, a, p, tasks, reports, |reports|);
    (if h.allDead then SetState(h.alloc, Failed) else h.alloc, h.tasks)
  }

  /** One task report. The decision uses the allocation as listed, the writes go to the
      stored one. */
  method CheckTask(ex: Executor, listed: Allocation, p: RestartPolicy, r: TaskReport, w: World, ghost h: Health)
    returns (alive: bool)
    requires listed.id in ex.store.allocations && listed.id in ex.running
    requires SameIdentity(listed, ex.store.allocations[listed.id])
    requires h == Health(ex.store.allocations[listed.id], ex.running[listed.id], h.allDead)
    modifies ex.store`allocations, ex`running
    ensures OnlyAt(old(ex.store.allocations), ex.store.allocations, listed.id)
    ensures OnlyAt(old(ex.running), ex.running, listed.id)
    ensures SameIdentity(listed, ex.store.allocations[listed.id])
    ensures Health(ex.store.allocations[listed.id], ex.running[listed.id], h.allDead && !alive) ==
              HealthStep(w, GroupsIn(ex.store.jobs, listed.jobId), listed, p, h, r)
  {
    hide Restarted, MarkDead, ShouldRestart;
    var id := listed.id;
    if r.state != TaskDead {
      return true;
    }
    alive := false;
    if ShouldRestart(p, listed, r.name) {
      SameTarget(ex.store.jobs, ex.store.allocations, listed, r.name);
      RestartedIdentity(h.alloc, r.name, w.handle(id, r.name));
      alive := ex.RestartTask(id, r.name, w);
    } else if !p.mode.Never? {
      MarkedIdentity(h.alloc, r.name, w.now);
      var _ := ex.store.UpdateAllocation(id, a => MarkDead(a, r.name, w.now));
    }
  }

  /** The inner loop of `reconcile_health`, for an allocation that is in the store as listed. */
  method CheckAllocation(ex: Executor, listed: Allocation, p: RestartPolicy, reports: seq<TaskReport>, w: World)
    requires listed.id in ex.store.allocations && ex.store.allocations[listed.id] == listed && listed.id in ex.running
    requires reports == Reports(w, listed.id, ex.running[listed.id])
    modifies ex.store`allocations, ex`running
    ensures OnlyAt(old(ex.store.allocations), ex.store.allocations, listed.id)
    ensures OnlyAt(old(ex.running), ex.running, listed.id)
    ensures (ex.store.allocations[listed.id], ex.running[listed.id]) ==
              HealthOf(w, GroupsIn(ex.store.jobs, listed.jobId), listed, p, old(ex.running)[listed.id])
  {
    hide HealthFold, HealthStep, Reports;
    var allDead := true;
    var id := listed.id;
    ghost var tasks, groups := ex.running[id], GroupsIn(ex.store.jobs, listed.jobId);
    FoldNothing(w, groups, listed, p, tasks, reports);
    for i := 0 to |reports|
      invariant OnlyAt(old(ex.store.allocations), ex.store.allocations, id) && OnlyAt(old(ex.running), ex.running, id)
      invariant SameIdentity(listed, ex.store.allocations[id])
      invariant Health(ex.store.allocations[id], ex.running[id], allDead) ==
                  HealthFold(w, groups, listed, p, tasks, reports, i)
    {
      FoldStep(w, groups, listed, p, tasks, reports, i);
      var alive := CheckTask(ex, listed, p, reports[i], w, HealthFold(w, groups, listed, p, tasks, reports, i));
      if alive {
        allDead := false;
      }
    }
    if allDead {
      var _ := ex.store.UpdateAllocation(id, a => SetState(a, Failed));
    }
  }

  lemma FoldNothing(w: World, groups: seq<TaskGroup>, listed: Allocation, p: RestartPolicy, tasks: seq<RunningTask>,
                    reports: seq<TaskReport>)
    ensures HealthFold(w, groups, listed, p, tasks, reports, 0) == Health(listed, tasks, true)
  {}

  lemma FoldStep(w: World, groups: seq<TaskGroup>, listed: Allocation, p: RestartPolicy, tasks: seq<RunningTask>,
                 reports: seq<TaskReport>, i: nat)
    requires i < |reports|
    ensures HealthFold(w, groups, listed, p, tasks, reports, i + 1) ==
              HealthStep(w, groups, listed, p, HealthFold(w, groups, listed, p, tasks, reports, i), reports[i])
  {}

  lemma RestartedIdentity(a: Allocation, name: string, h: Handle)
    ensures SameIdentity(a, Restarted(a, name, h))
  {}

  lemma MarkedIdentity(a: Allocation, name: string, now: Time)
    ensures SameIdentity(a, MarkDead(a, name, now))
  {}

  lemma SameTarget(jobs: map<string, Job>, m: Allocations, listed: Allocation, name: string)
    requires listed.id in m && SameIdentity(listed, m[listed.id])
    ensures
      var target := RestartTarget(GroupsIn(jobs, listed.jobId), listed, name);
      && (RestartReaches(jobs, m, listed.id, name) <==> target.Some?)
      && (target.Some? ==> FindTask(GroupOf(jobs, m[listed.id]).value.tasks, name) == target)
  {}

  /** The allocations the pass looks into. */
  predicate Checked(job: Job, running: map<Uuid, seq<RunningTask>>, a: Allocation) {
    a.state == Running && a.id in running && FindGroup(job.groups, a.groupName).Some?
  }

  ghost predicate CheckedAs(w: World, groups: seq<TaskGroup>, job: Job, running: map<Uuid, seq<RunningTask>>,
                            a: Allocation, m': Allocations, running': map<Uuid, seq<RunningTask>>)
  {
    && a.id in m'
    && if Checked(job, running, a) then
         && a.id in running'
         && (m'[a.id], running'[a.id]) ==
             HealthOf(w, groups, a, FindGroup(job.groups, a.groupName).value.restartPolicy, running[a.id])
       else
         && m'[a.id] == a && (a.id in running <==> a.id in running')
         && (a.id in running ==> running'[a.id] == running[a.id])
  }

  /** `reconcile_health`: each running, tracked allocation of the listing goes through
      HealthOf, and nothing else changes. */
  method ReconcileHealth(ex: Executor, job: Job, allocs: seq<Allocation>, w: World)
    requires DistinctIds(allocs)
    requires forall a :: a in allocs ==>
               a.id in ex.store.allocations && ex.store.allocations[a.id] == a && a.jobId == job.id
    modifies ex.store`allocations, ex`running
    ensures ex.store.allocations.Keys == old(ex.store.allocations).Keys && ex.running.Keys == old(ex.running).Keys
    ensures forall a :: a in allocs ==>
              CheckedAs(w, GroupsIn(ex.store.jobs, job.id), job, old(ex.running), a, ex.store.allocations, ex.running)
    ensures forall id :: id in old(ex.store.allocations) && id !in Ids(allocs) ==>
              ex.store.allocations[id] == old(ex.store.allocations)[id]
    ensures forall id :: id in old(ex.running) && id !in Ids(allocs) ==> ex.running[id] == old(ex.running)[id]
  {
    hide CheckedAs, Ids, DistinctIds, Reports;
    var health := ex.CheckTaskHealth(w);
    ghost var m, running, groups := ex.store.allocations, ex.running, GroupsIn(ex.store.jobs, job.id);
    for i := 0 to |allocs|
      invariant ex.store.allocations.Keys == m.Keys && ex.running.Keys == running.Keys
      invariant forall j :: 0 <= j < i ==>
                  CheckedAs(w, groups, job, running, allocs[j], ex.store.allocations, ex.running)
      invariant forall id :: id in m && id !in Ids(allocs[..i]) ==> ex.store.allocations[id] == m[id]
      invariant forall id :: id in running && id !in Ids(allocs[..i]) ==> ex.running[id] == running[id]
    {
      var alloc := allocs[i];
      assert alloc in allocs;
      IdsStep(allocs, i);
      ghost var before, before' := ex.store.allocations, ex.running;
      if alloc.state == Running && alloc.id in health {
        var group := FindGroup(job.groups, alloc.groupName);
        if group.Some? {
          CheckAllocation(ex, alloc, group.value.restartPolicy, health[alloc.id], w);
        }
      }
      assert CheckedAs(w, groups, job, running, alloc, ex.store.allocations, ex.running) by {
        CheckedNow(w, groups, job, running, alloc, before, before', ex.store.allocations, ex.running);
      }
      forall j | 0 <= j < i ensures CheckedAs(w, groups, job, running, allocs[j], ex.store.allocations, ex.running) {
        CheckedBefore(w, groups, job, running, allocs, j, i, before, before', ex.store.allocations, ex.running);
      }
    }
    assert allocs[..|allocs|] == allocs;
    AllChecked(w, groups, job, running, allocs, ex.store.allocations, ex.running);
  }

  lemma IdsStep(allocs: seq<Allocation>, i: nat)
    requires i < |allocs| && DistinctIds(allocs)
    ensures Ids(allocs[..i + 1]) == Ids(allocs[..i]) + {allocs[i].id} && allocs[i].id !in Ids(allocs[..i])
  {
    assert allocs[..i + 1] == allocs[..i] + [allocs[i]];
  }

  lemma CheckedNow(w: World, groups: seq<TaskGroup>, job: Job, running: map<Uuid, seq<RunningTask>>, a: Allocation,
                   m: Allocations, r: map<Uuid, seq<RunningTask>>, m': Allocations, r': map<Uuid, seq<RunningTask>>)
    requires a.id in m && m[a.id] == a && r.Keys == running.Keys && (a.id in running ==> r[a.id] == running[a.id])
    requires m'.Keys == m.Keys && r'.Keys == r.Keys
    requires if Checked(job, running, a)
             then (m'[a.id], r'[a.id]) ==
                 HealthOf(w, groups, a, FindGroup(job.groups, a.groupName).value.restartPolicy, running[a.id])
             else m' == m && r' == r
    ensures CheckedAs(w, groups, job, running, a, m', r')
  {}

  lemma CheckedBefore(w: World, groups: seq<TaskGroup>, job: Job, running: map<Uuid, seq<RunningTask>>,
                      allocs: seq<Allocation>, j: nat, i: nat, m: Allocations, r: map<Uuid, seq<RunningTask>>,
                      m': Allocations, r': map<Uuid, seq<RunningTask>>)
    requires j < i < |allocs| && DistinctIds(allocs) && CheckedAs(w, groups, job, running, allocs[j], m, r)
    requires OnlyAt(m, m', allocs[i].id) && OnlyAt(r, r', allocs[i].id)
    ensures CheckedAs(w, groups, job, running, allocs[j], m', r')
  {
    hide HealthOf;
  }

  lemma AllChecked(w: World, groups: seq<TaskGroup>, job: Job, running: map<Uuid, seq<RunningTask>>,
                   allocs: seq<Allocation>, m': Allocations, running': map<Uuid, seq<RunningTask>>)
    requires forall j :: 0 <= j < |allocs| ==> CheckedAs(w, groups, job, running, allocs[j], m', running')
    ensures forall a :: a in allocs ==> CheckedAs(w, groups, job, running, a, m', running')
  {}

  // ---- what the fold does ----

  ghost predicate Restarting(w: World, groups: seq<TaskGroup>, listed: Allocation, p: RestartPolicy, r: TaskReport) {
    && r.state == TaskDead && ShouldRestart(p, listed, r.name)
    && RestartTarget(groups, listed, r.name).Some?
        && TaskStarts(w, listed.id, RestartTarget(groups, listed, r.name).value)
  }

  /** The allocation keeps its identity, its tasks and its state while it is checked. */
  lemma {:induction false} FoldKeeps(w: World, groups: seq<TaskGroup>, a: Allocation, p: RestartPolicy,
                                     tasks: seq<RunningTask>, reports: seq<TaskReport>, i: nat)
    requires i <= |reports|
    ensures
      var h := HealthFold(w, groups, a, p, tasks, reports, i);
      && SameIdentity(a, h.alloc) && h.alloc.state == a.state && h.alloc.taskStates.Keys == a.taskStates.Keys
      && (forall t :: t in a.taskStates ==> h.alloc.taskStates[t].exitCode == a.taskStates[t].exitCode)
  {
    if i > 0 {
      FoldKeeps(w, groups, a, p, tasks, reports, i - 1);
    }
  }

  /** It is failed exactly when every task is reported dead and none is restarted. */
  lemma {:induction false} FoldAllDead(w: World, groups: seq<TaskGroup>, a: Allocation, p: RestartPolicy,
                                       tasks: seq<RunningTask>, reports: seq<TaskReport>, i: nat)
    requires i <= |reports|
    ensures HealthFold(w, groups, a, p, tasks, reports, i).allDead <==>
              forall j :: 0 <= j < i ==> reports[j].state == TaskDead && !Restarting(w, groups, a, p, reports[j])
  {
    if i > 0 {
      FoldAllDead(w, groups, a, p, tasks, reports, i - 1);
    }
  }

  /** The driver is missing, or does not know the task, or says that it is dead. */
  ghost predicate SeenDead(w: World, id: Uuid, t: RunningTask) {
    !w.hasDriver(t.driver) || w.status(id, t.taskName).None? || w.status(id, t.taskName).value == TaskDead
  }

  /** By the listed allocation the policy still allows a restart: not under Never, not when the
      attempts are used up, and on failure only without a recorded exit code of 0. */
  ghost predicate Restartable(p: RestartPolicy, a: Allocation, name: string) {
    && p.mode != Never && 0 < p.attempts
    && (name in a.taskStates ==>
          && a.taskStates[name].restarts < p.attempts
          && !(p.mode == OnFailure && a.taskStates[name].exitCode == Some(0)))
  }

  /** The group still has a task of that name, its driver exists and starts it. */
  ghost predicate StartsAgain(w: World, groups: seq<TaskGroup>, a: Allocation, name: string) {
    var group := FindGroup(groups, a.groupName);
    && group.Some?
    && var task := FindTask(group.value.tasks, name);
       task.Some? && w.hasDriver(task.value.driver) && w.startOk(a.id, task.value.name)
  }

  lemma FailedIff(w: World, groups: seq<TaskGroup>, a: Allocation, p: RestartPolicy, tasks: seq<RunningTask>)
    requires a.state == Running
    ensures
      var a' := HealthOf(w, groups, a, p, tasks).0;
      && (a'.state == Failed <==>
            forall t :: t in tasks ==>
                SeenDead(w, a.id, t) && !(Restartable(p, a, t.taskName) && StartsAgain(w, groups, a, t.taskName)))
      && (a'.state == Failed || a'.state == Running)
      && SameIdentity(a, a') && a'.taskStates.Keys == a.taskStates.Keys
  {
    SameReports(w, groups, a, p);
    FailedIffReported(w, groups, a, p, tasks);
    hide SeenDead, Restartable, StartsAgain, HealthOf, ReportedState, Restarting, SameIdentity;
  }

  lemma SameReports(w: World, groups: seq<TaskGroup>, a: Allocation, p: RestartPolicy)
    ensures forall t :: SeenDead(w, a.id, t) <==> ReportedState(w, a.id, t) == TaskDead
    ensures forall name :: Restarting(w, groups, a, p, TaskReport(name, TaskDead)) <==>
              Restartable(p, a, name) && StartsAgain(w, groups, a, name)
  {}

  lemma FailedIffReported(w: World, groups: seq<TaskGroup>, a: Allocation, p: RestartPolicy, tasks: seq<RunningTask>)
    requires a.state == Running
    ensures
      var a' := HealthOf(w, groups, a, p, tasks).0;
      && (a'.state == Failed <==>
            forall t :: t in tasks ==> ReportedState(w, a.id, t) == TaskDead
                                       && !Restarting(w, groups, a, p, TaskReport(t.taskName, TaskDead)))
      && (a'.state == Failed || a'.state == Running)
      && SameIdentity(a, a') && a'.taskStates.Keys == a.taskStates.Keys
  {
    hide HealthFold, Restarting;
    var reports := Reports(w, a.id, tasks);
    FoldKeeps(w, groups, a, p, tasks, reports, |reports|);
    FoldAllDead(w, groups, a, p, tasks, reports, |reports|);
    forall t | t in tasks
      ensures exists j :: 0 <= j < |reports| && reports[j] == TaskReport(t.taskName, ReportedState(w, a.id, t))
    {
      var j :| 0 <= j < |tasks| && tasks[j] == t;
      assert reports[j] == TaskReport(t.taskName, ReportedState(w, a.id, t));
    }
  }

  ghost predicate DistinctReports(reports: seq<TaskReport>) {
    forall i, j :: 0 <= i < j < |reports| ==> reports[i].name != reports[j].name
  }

  /** With distinct names a task is restarted at most once, and only when the policy says so. */
  lemma {:induction false} FoldRestarts(w: World, groups: seq<TaskGroup>, a: Allocation, p: RestartPolicy,
                                        tasks: seq<RunningTask>, reports: seq<TaskReport>, i: nat, t: string)
    requires i <= |reports| && DistinctReports(reports)
    ensures
      var now := Restarts(HealthFold(w, groups, a, p, tasks, reports, i).alloc, t);
      && (now == Restarts(a, t) || (now == Restarts(a, t) + 1 && ShouldRestart(p, a, t)))
      && ((forall j :: 0 <= j < i ==> reports[j].name != t) ==> now == Restarts(a, t))
  {
    if i > 0 {
      FoldRestarts(w, groups, a, p, tasks, reports, i - 1, t);
    }
  }

  /** No pass takes a restart count above what the policy allows. */
  lemma RestartsStayBounded(w: World, groups: seq<TaskGroup>, a: Allocation, p: RestartPolicy, tasks: seq<RunningTask>,
                            t: string)
    requires DistinctTasks(tasks) && Restarts(a, t) <= if p.mode == Never then 0 else p.attempts
    ensures Restarts(HealthOf(w, groups, a, p, tasks).0, t) <= if p.mode == Never then 0 else p.attempts
  {
    hide HealthFold;
    var reports := Reports(w, a.id, tasks);
    FoldRestarts(w, groups, a, p, tasks, reports, |reports|, t);
  }

  lemma {:induction false} WithoutDistinct(tasks: seq<RunningTask>, name: string)
    requires DistinctTasks(tasks)
    ensures DistinctTasks(WithoutTask(tasks, name))
    decreases tasks
  {
    if tasks != [] {
      WithoutDistinct(tasks[1..], name);
      var r := WithoutTask(tasks[1..], name);
      forall k | 0 <= k < |r| ensures r[k] in tasks[1..] {
        assert r[k] in r;
      }
    }
  }

  lemma WithoutThenAdd(tasks: seq<RunningTask>, name: string, driver: string)
    requires DistinctTasks(tasks)
    ensures DistinctTasks(WithoutTask(tasks, name) + [RunningTask(name, driver)])
  {
    WithoutDistinct(tasks, name);
    var r := WithoutTask(tasks, name);
    forall k | 0 <= k < |r| ensures r[k].taskName != name {
      assert r[k] in r;
    }
  }

  lemma {:induction false} FoldDistinct(w: World, groups: seq<TaskGroup>, a: Allocation, p: RestartPolicy,
                                        tasks: seq<RunningTask>, reports: seq<TaskReport>, i: nat)
    requires i <= |reports| && DistinctTasks(tasks)
    ensures DistinctTasks(HealthFold(w, groups, a, p, tasks, reports, i).tasks)
  {
    if i > 0 {
      FoldDistinct(w, groups, a, p, tasks, reports, i - 1);
      var h := HealthFold(w, groups, a, p, tasks, reports, i - 1);
      var name := reports[i - 1].name;
      WithoutDistinct(h.tasks, name);
      if RestartTarget(groups, a, name).Some? {
        WithoutThenAdd(h.tasks, name, RestartTarget(groups, a, name).value.driver);
      }
    }
  }

  /** A restart brings in no driver that does not exist. */
  lemma {:induction false} FoldDrivers(w: World, groups: seq<TaskGroup>, a: Allocation, p: RestartPolicy,
                                       tasks: seq<RunningTask>, reports: seq<TaskReport>, i: nat)
    requires i <= |reports| && DriversOf(w, tasks)
    ensures DriversOf(w, HealthFold(w, groups, a, p, tasks, reports, i).tasks)
  {
    if i > 0 {
      FoldDrivers(w, groups, a, p, tasks, reports, i - 1);
    }
  }

  // ---- what a pass makes of one task ----

  /** The task's entry, and whether the executor still tracks it as `u`: a dead task is started
      again with one restart more, or given up by the executor when the start fails; left alone
      under Never or when it is gone from the spec; marked dead when no restart is left. */
  ghost predicate TaskDone(w: World, groups: seq<TaskGroup>, a: Allocation, p: RestartPolicy, u: RunningTask,
                           b: Allocation, tasks: seq<RunningTask>)
    requires u.taskName in a.taskStates && u.taskName in b.taskStates
  {
    var name := u.taskName;
    var was, now := a.taskStates[name], b.taskStates[name];
    var group := FindGroup(groups, a.groupName);
    var task := if group.Some? then FindTask(group.value.tasks, name) else None;
    if !SeenDead(w, a.id, u) || p.mode == Never || (Restartable(p, a, name) && task.None?) then now == was && u in tasks
    else if !Restartable(p, a, name) then now == was.(state := TaskDead, finishedAt := Some(w.now)) && u in tasks
    else if w.hasDriver(task.value.driver) && w.startOk(a.id, task.value.name) then
      && now == was.(state := TaskRunning, restarts := was.restarts + 1, pid := w.handle(a.id, name).pid,
                     startedAt := Some(w.handle(a.id, name).startedAt))
      && RunningTask(name, task.value.driver) in tasks
    else now == was && forall t :: t in tasks ==> t.taskName != name
  }

  /** Not yet reported on. */
  ghost predicate TaskWaits(a: Allocation, u: RunningTask, b: Allocation, tasks: seq<RunningTask>)
    requires u.taskName in a.taskStates && u.taskName in b.taskStates
  {
    b.taskStates[u.taskName] == a.taskStates[u.taskName] && u in tasks
  }

  lemma StepElsewhere(w: World, groups: seq<TaskGroup>, a: Allocation, p: RestartPolicy, h: Health, r: TaskReport,
                      name: string)
    requires r.name != name && name in h.alloc.taskStates
    ensures
      var h' := HealthStep(w, groups, a, p, h, r);
      && name in h'.alloc.taskStates && h'.alloc.taskStates[name] == h.alloc.taskStates[name]
      && forall t: RunningTask :: t.taskName == name ==> (t in h'.tasks <==> t in h.tasks)
  {
    hide ShouldRestart, RestartTarget;
  }

  lemma StepHere(w: World, groups: seq<TaskGroup>, a: Allocation, p: RestartPolicy, h: Health, u: RunningTask)
    requires u.taskName in a.taskStates && u.taskName in h.alloc.taskStates && TaskWaits(a, u, h.alloc, h.tasks)
    ensures
      var h' := HealthStep(w, groups, a, p, h, TaskReport(u.taskName, ReportedState(w, a.id, u)));
      u.taskName in h'.alloc.taskStates && TaskDone(w, groups, a, p, u, h'.alloc, h'.tasks)
  {}

  lemma {:induction false} FoldTask(w: World, groups: seq<TaskGroup>, a: Allocation, p: RestartPolicy,
                                    tasks: seq<RunningTask>, i: nat, j: nat)
    requires DistinctTasks(tasks) && i <= |tasks| && j < |tasks| && tasks[j].taskName in a.taskStates
    ensures
      var h := HealthFold(w, groups, a, p, tasks, Reports(w, a.id, tasks), i);
      && tasks[j].taskName in h.alloc.taskStates
      && (if i <= j then TaskWaits(a, tasks[j], h.alloc, h.tasks)
          else TaskDone(w, groups, a, p, tasks[j], h.alloc, h.tasks))
  {
    hide HealthStep, TaskDone, TaskWaits, ReportedState;
    var reports := Reports(w, a.id, tasks);
    if i == 0 {
      NoneReported(a, tasks[j], tasks);
    } else {
      FoldTask(w, groups, a, p, tasks, i - 1, j);
      var h := HealthFold(w, groups, a, p, tasks, reports, i - 1);
      if i - 1 == j {
        StepHere(w, groups, a, p, h, tasks[j]);
      } else {
        StepElsewhere(w, groups, a, p, h, reports[i - 1], tasks[j].taskName);
        StaysDone(w, groups, a, p, tasks[j], h, HealthStep(w, groups, a, p, h, reports[i - 1]));
      }
    }
  }

  lemma NoneReported(a: Allocation, u: RunningTask, tasks: seq<RunningTask>)
    requires u in tasks && u.taskName in a.taskStates
    ensures TaskWaits(a, u, a, tasks)
  {}

  lemma StaysDone(w: World, groups: seq<TaskGroup>, a: Allocation, p: RestartPolicy, u: RunningTask, h: Health,
                  h': Health)
    requires u.taskName in a.taskStates && u.taskName in h.alloc.taskStates && u.taskName in h'.alloc.taskStates
    requires h'.alloc.taskStates[u.taskName] == h.alloc.taskStates[u.taskName]
    requires forall t: RunningTask :: t.taskName == u.taskName ==> (t in h'.tasks <==> t in h.tasks)
    ensures TaskWaits(a, u, h.alloc, h.tasks) ==> TaskWaits(a, u, h'.alloc, h'.tasks)
    ensures TaskDone(w, groups, a, p, u, h.alloc, h.tasks) ==> TaskDone(w, groups, a, p, u, h'.alloc, h'.tasks)
  {
    hide SeenDead, Restartable;
  }

  /** With distinct names every tracked task that has an entry is dealt with on its own. */
  lemma EachTaskDone(w: World, groups: seq<TaskGroup>, a: Allocation, p: RestartPolicy, tasks: seq<RunningTask>,
                     u: RunningTask)
    requires DistinctTasks(tasks) && u in tasks && u.taskName in a.taskStates
    ensures
      var (b, tasks') := HealthOf(w, groups, a, p, tasks);
      u.taskName in b.taskStates && TaskDone(w, groups, a, p, u, b, tasks')
  {
    var j :| 0 <= j < |tasks| && tasks[j] == u;
    FoldTask(w, groups, a, p, tasks, |tasks|, j);
    hide HealthFold, SeenDead, Restartable;
  }

  // ---- what may ever run for an allocation ----

  function NameSet(tasks: seq<RunningTask>): set<string> {
    set t | t in tasks :: t.taskName
  }

  /** The tasks tracked, and each of them as its group's spec would start it again. */
  function Runnable(groups: seq<TaskGroup>, a: Allocation, tasks: seq<RunningTask>): set<RunningTask> {
    (set t | t in tasks)
    + set t | t in tasks && RestartTarget(groups, a, t.taskName).Some? ::
        RunningTask(t.taskName, RestartTarget(groups, a, t.taskName).value.driver)
  }

  ghost predicate RunsWithin(tasks: seq<RunningTask>, may: set<RunningTask>) {
    forall t :: t in tasks ==> t in may
  }

  ghost predicate RestartsWithin(groups: seq<TaskGroup>, a: Allocation, may: set<RunningTask>) {
    forall t :: t in may && RestartTarget(groups, a, t.taskName).Some? ==>
      RunningTask(t.taskName, RestartTarget(groups, a, t.taskName).value.driver) in may
  }

  lemma RunnableCloses(groups: seq<TaskGroup>, a: Allocation, tasks: seq<RunningTask>)
    ensures RunsWithin(tasks, Runnable(groups, a, tasks)) && RestartsWithin(groups, a, Runnable(groups, a, tasks))
  {
    hide RestartTarget;
    var may := Runnable(groups, a, tasks);
    forall t | t in may && RestartTarget(groups, a, t.taskName).Some?
      ensures RunningTask(t.taskName, RestartTarget(groups, a, t.taskName).value.driver) in may
    {
      var u :| u in tasks && u.taskName == t.taskName;
    }
  }

  lemma {:induction false} FoldWithin(w: World, groups: seq<TaskGroup>, a: Allocation, p: RestartPolicy,
                                      tasks: seq<RunningTask>, reports: seq<TaskReport>, i: nat, may: set<RunningTask>)
    requires i <= |reports| && RunsWithin(tasks, may) && RestartsWithin(groups, a, may)
    requires forall j :: 0 <= j < |reports| ==> reports[j].name in NameSet(tasks)
    ensures RunsWithin(HealthFold(w, groups, a, p, tasks, reports, i).tasks, may)
  {
    hide RestartTarget, ShouldRestart;
    if i > 0 {
      FoldWithin(w, groups, a, p, tasks, reports, i - 1, may);
      var t :| t in tasks && t.taskName == reports[i - 1].name;
      assert t in may;
    }
  }

  /** The health pass runs nothing else for it. */
  lemma HealthWithin(w: World, groups: seq<TaskGroup>, a: Allocation, p: RestartPolicy, tasks: seq<RunningTask>,
                     may: set<RunningTask>)
    requires RunsWithin(tasks, may) && RestartsWithin(groups, a, may)
    ensures RunsWithin(HealthOf(w, groups, a, p, tasks).1, may)
  {
    hide HealthFold;
    var reports := Reports(w, a.id, tasks);
    forall j | 0 <= j < |reports| ensures reports[j].name in NameSet(tasks) {
      assert tasks[j] in tasks;
    }
    FoldWithin(w, groups, a, p, tasks, reports, |reports|, may);
  }

  // ---- an allocation that keeps dying ----

  /** Every running task has its entry in the allocation, with no exit code recorded. */
  ghost predicate NoExitCodes(a: Allocation, tasks: seq<RunningTask>) {
    forall t :: t in tasks ==> t.taskName in a.taskStates && a.taskStates[t.taskName].exitCode.None?
  }

  /** Every task that could be restarted has been, at least `k` times. */
  ghost predicate Worn(groups: seq<TaskGroup>, a: Allocation, tasks: seq<RunningTask>, k: nat) {
    forall t :: t in tasks && RestartTarget(groups, a, t.taskName).Some? ==> Restarts(a, t.taskName) >= k
  }

  /** Had restarts to spare and a task to restart. */
  predicate Spare(groups: seq<TaskGroup>, a: Allocation, p: RestartPolicy, name: string) {
    ShouldRestart(p, a, name) && RestartTarget(groups, a, name).Some?
  }

  /** Halfway through the reports: restarts never go down, no new name is running, and a
      dead task with restarts to spare is either gone or has been restarted. */
  ghost predicate Wears(groups: seq<TaskGroup>, a: Allocation, p: RestartPolicy, tasks: seq<RunningTask>,
                        reports: seq<TaskReport>, i: nat, h: Health)
    requires i <= |reports|
  {
    && (forall t :: Restarts(h.alloc, t) >= Restarts(a, t))
    && (forall t :: t in h.tasks ==> t.taskName in NameSet(tasks))
    && (forall j, t :: 0 <= j < i && t in h.tasks && t.taskName == reports[j].name && reports[j].state == TaskDead
                       && Spare(groups, a, p, t.taskName) ==>
          Restarts(h.alloc, t.taskName) >= Restarts(a, t.taskName) + 1)
  }

  lemma WearsStep(w: World, groups: seq<TaskGroup>, a: Allocation, p: RestartPolicy, tasks: seq<RunningTask>,
                  reports: seq<TaskReport>, i: nat, h: Health)
    requires i < |reports| && Wears(groups, a, p, tasks, reports, i, h)
    requires reports[i].name in NameSet(tasks) && reports[i].name in a.taskStates
             && h.alloc.taskStates.Keys == a.taskStates.Keys
    ensures Wears(groups, a, p, tasks, reports, i + 1, HealthStep(w, groups, a, p, h, reports[i]))
  {
    hide NameSet, ShouldRestart, RestartTarget, TaskStarts;
    var h' := HealthStep(w, groups, a, p, h, reports[i]);
    assert forall t :: t in h'.tasks ==> t in h.tasks || t.taskName == reports[i].name;
    assert forall t :: Restarts(h'.alloc, t) >= Restarts(h.alloc, t);
  }

  lemma {:induction false} FoldWears(w: World, groups: seq<TaskGroup>, a: Allocation, p: RestartPolicy,
                                     tasks: seq<RunningTask>, reports: seq<TaskReport>, i: nat)
    requires i <= |reports| && forall j :: 0 <= j < |reports| ==>
               reports[j].name in NameSet(tasks) && reports[j].name in a.taskStates
    ensures Wears(groups, a, p, tasks, reports, i, HealthFold(w, groups, a, p, tasks, reports, i))
  {
    hide HealthStep;
    if i > 0 {
      FoldWears(w, groups, a, p, tasks, reports, i - 1);
      FoldKeeps(w, groups, a, p, tasks, reports, i - 1);
      hide Wears;
      WearsStep(w, groups, a, p, tasks, reports, i - 1, HealthFold(w, groups, a, p, tasks, reports, i - 1));
    }
  }

  ghost predicate AllReportedDead(w: World, a: Allocation, tasks: seq<RunningTask>) {
    forall t :: t in tasks ==> ReportedState(w, a.id, t) == TaskDead
  }

  /** One pass over a running allocation all of whose tasks are dead: either it fails, or
      every restartable task that is left has been restarted once more. */
  lemma OnePassWears(w: World, groups: seq<TaskGroup>, a: Allocation, p: RestartPolicy, tasks: seq<RunningTask>, k: nat)
    requires a.state == Running && NoExitCodes(a, tasks) && AllReportedDead(w, a, tasks)
    requires Worn(groups, a, tasks, k)
    ensures
      var (a', tasks') := HealthOf(w, groups, a, p, tasks);
      && SameIdentity(a, a') && NoExitCodes(a', tasks')
      && (a'.state == Running || a'.state == Failed)
      && (a'.state == Running ==> k < Limit(p) && Worn(groups, a', tasks', k + 1))
  {
    hide HealthFold, Reports;
    var reports := Reports(w, a.id, tasks);
    ReportsOf(w, a, tasks);
    FoldWears(w, groups, a, p, tasks, reports, |reports|);
    FoldKeeps(w, groups, a, p, tasks, reports, |reports|);
    FailedIffReported(w, groups, a, p, tasks);
    var h := HealthFold(w, groups, a, p, tasks, reports, |reports|);
    var (a', tasks') := HealthOf(w, groups, a, p, tasks);
    if a'.state == Running {
      SomeRestarted(w, groups, a, p, tasks, k);
      assert forall t :: Restarts(a', t) == Restarts(h.alloc, t);
      WornOnce(groups, a, p, tasks, reports, h, k);
    }
  }

  lemma ReportsOf(w: World, a: Allocation, tasks: seq<RunningTask>)
    requires NoExitCodes(a, tasks) && AllReportedDead(w, a, tasks)
    ensures
      var reports := Reports(w, a.id, tasks);
      && (forall j :: 0 <= j < |reports| ==>
          reports[j].name in NameSet(tasks) && reports[j].name in a.taskStates && reports[j].state == TaskDead)
      && (forall x :: x in NameSet(tasks) ==> exists j :: 0 <= j < |reports| && reports[j].name == x)
  {
    var reports := Reports(w, a.id, tasks);
    forall j | 0 <= j < |reports|
      ensures reports[j].name in NameSet(tasks) && reports[j].name in a.taskStates && reports[j].state == TaskDead
    {
      assert tasks[j] in tasks;
    }
    forall x | x in NameSet(tasks) ensures exists j :: 0 <= j < |reports| && reports[j].name == x {
      var t :| t in tasks && t.taskName == x;
      var j :| 0 <= j < |tasks| && tasks[j] == t;
      assert reports[j].name == x;
    }
  }

  /** A pass that does not fail the allocation restarted a task, so restarts were left. */
  lemma SomeRestarted(w: World, groups: seq<TaskGroup>, a: Allocation, p: RestartPolicy, tasks: seq<RunningTask>,
                      k: nat)
    requires a.state == Running && AllReportedDead(w, a, tasks) && Worn(groups, a, tasks, k)
    requires HealthOf(w, groups, a, p, tasks).0.state == Running
    ensures k < Limit(p)
  {
    hide HealthOf;
    FailedIffReported(w, groups, a, p, tasks);
    var t :| t in tasks && Restarting(w, groups, a, p, TaskReport(t.taskName, TaskDead));
    assert Restarts(a, t.taskName) >= k;
  }

  lemma WornOnce(groups: seq<TaskGroup>, a: Allocation, p: RestartPolicy, tasks: seq<RunningTask>,
                 reports: seq<TaskReport>, h: Health, k: nat)
    requires Worn(groups, a, tasks, k) && k < Limit(p) && SameIdentity(a, h.alloc) && NoExitCodes(a, tasks)
    requires Wears(groups, a, p, tasks, reports, |reports|, h)
    requires forall j :: 0 <= j < |reports| ==> reports[j].state == TaskDead
    requires forall x :: x in NameSet(tasks) ==> exists j :: 0 <= j < |reports| && reports[j].name == x
    ensures Worn(groups, h.alloc, h.tasks, k + 1)
  {
    forall t | t in h.tasks && RestartTarget(groups, h.alloc, t.taskName).Some?
      ensures Restarts(h.alloc, t.taskName) >= k + 1
    {
      var u :| u in tasks && u.taskName == t.taskName;
      assert Restarts(a, u.taskName) >= k;
      var j :| 0 <= j < |reports| && reports[j].name == t.taskName;
      if Restarts(a, t.taskName) == k {
        assert Spare(groups, a, p, t.taskName);
      }
    }
  }

  /** The health passes of successive ticks, each with its own drivers; a finished
      allocation is left alone. */
  function HealthRun(groups: seq<TaskGroup>, a: Allocation, p: RestartPolicy, tasks: seq<RunningTask>,
                     worlds: seq<World>): (Allocation, seq<RunningTask>)
  {
    if worlds == [] then (a, tasks)
    else
      var n := |worlds| - 1;
      var (a', tasks') := HealthRun(groups, a, p, tasks, worlds[..n]);
      if a'.state == Running then HealthOf(worlds[n], groups, a', p, tasks') else (a', tasks')
  }

  /** At every tick the tasks that are running are reported dead. */
  ghost predicate AlwaysDead(groups: seq<TaskGroup>, a: Allocation, p: RestartPolicy, tasks: seq<RunningTask>,
                             worlds: seq<World>)
  {
    forall i :: 0 <= i < |worlds| ==>
      AllReportedDead(worlds[i], a, HealthRun(groups, a, p, tasks, worlds[..i]).1)
  }

  lemma {:induction false} RunWears(groups: seq<TaskGroup>, a: Allocation, p: RestartPolicy, tasks: seq<RunningTask>,
                                    worlds: seq<World>)
    requires a.state == Running && NoExitCodes(a, tasks) && AlwaysDead(groups, a, p, tasks, worlds)
    ensures
      var (a', tasks') := HealthRun(groups, a, p, tasks, worlds);
      && SameIdentity(a, a') && NoExitCodes(a', tasks') && (a'.state == Running || a'.state == Failed)
      && (a'.state == Running ==> |worlds| <= Limit(p) && Worn(groups, a', tasks', |worlds|))
    decreases worlds
  {
    hide HealthOf, Worn, NoExitCodes;
    if worlds == [] {
      assert Worn(groups, a, tasks, 0) by { NeverWorn(groups, a, tasks); }
    } else {
      var n := |worlds| - 1;
      assert forall i :: 0 <= i < n ==> worlds[..n][..i] == worlds[..i];
      RunWears(groups, a, p, tasks, worlds[..n]);
      var (a', tasks') := HealthRun(groups, a, p, tasks, worlds[..n]);
      if a'.state == Running {
        OnePassWears(worlds[n], groups, a', p, tasks', n);
      }
    }
  }

  lemma NeverWorn(groups: seq<TaskGroup>, a: Allocation, tasks: seq<RunningTask>)
    ensures Worn(groups, a, tasks, 0)
  {}

  /** A running allocation whose tasks are dead at every tick, with no exit code recorded,
      is failed within attempts + 1 ticks, at the first one when restarts are off. */
  lemma FailsWithinAttempts(groups: seq<TaskGroup>, a: Allocation, p: RestartPolicy, tasks: seq<RunningTask>,
                            worlds: seq<World>)
    requires a.state == Running && NoExitCodes(a, tasks) && AlwaysDead(groups, a, p, tasks, worlds)
    requires |worlds| == 1 + if p.mode == Never then 0 else p.attempts
    ensures HealthRun(groups, a, p, tasks, worlds).0.state == Failed
  {
    hide HealthRun;
    RunWears(groups, a, p, tasks, worlds);
  }

  // ---- node liveness ----

  /** What the pass makes of a listed allocation that is stored as `now`. */
  function Survived(listed: Allocation, now: Allocation, nodeIds: set<string>): Allocation {
    if !listed.IsTerminal() && listed.nodeId !in nodeIds then SetState(now, Lost) else now
  }

  /** The first `i` of the listing are dealt with, and nothing else has changed. */
  ghost predicate LostSoFar(m: Allocations, m': Allocations, allocs: seq<Allocation>, nodeIds: set<string>, i: nat)
    requires i <= |allocs|
  {
    && m'.Keys == m.Keys
    && (forall j :: 0 <= j < i && allocs[j].id in m ==>
        m'[allocs[j].id] == Survived(allocs[j], m[allocs[j].id], nodeIds))
    && (forall id :: id in m && id !in Ids(allocs[..i]) ==> m'[id] == m[id])
  }

  lemma LostNothing(m: Allocations, allocs: seq<Allocation>, nodeIds: set<string>)
    ensures LostSoFar(m, m, allocs, nodeIds, 0)
  {}

  lemma LostStep(m: Allocations, m': Allocations, allocs: seq<Allocation>, nodeIds: set<string>, i: nat)
    requires i < |allocs| && DistinctIds(allocs) && LostSoFar(m, m', allocs, nodeIds, i)
    ensures
      var a := allocs[i];
      LostSoFar(m, if a.id in m' then m'[a.id := Survived(a, m'[a.id], nodeIds)] else m', allocs, nodeIds, i + 1)
  {
    IdsStep(allocs, i);
    hide Ids, Survived;
  }

  lemma LostAll(m: Allocations, m': Allocations, allocs: seq<Allocation>, nodeIds: set<string>)
    requires LostSoFar(m, m', allocs, nodeIds, |allocs|)
    ensures forall a :: a in allocs && a.id in m ==> m'[a.id] == Survived(a, m[a.id], nodeIds)
    ensures forall id :: id in m && id !in Ids(allocs) ==> m'[id] == m[id]
  {
    assert allocs[..|allocs|] == allocs;
  }

  /** `reconcile_node_liveness`: whatever the listing shows as unfinished on an unknown
      node is lost, even when the health pass has failed it meanwhile. */
  method ReconcileNodeLiveness(ex: Executor, allocs: seq<Allocation>, nodeIds: set<string>)
    requires DistinctIds(allocs)
    modifies ex.store`allocations
    ensures ex.store.allocations.Keys == old(ex.store.allocations).Keys
    ensures forall a :: a in allocs && a.id in old(ex.store.allocations) ==>
              var was, now := old(ex.store.allocations)[a.id], ex.store.allocations[a.id];
              && (a.state in {Pending, Running} && a.nodeId !in nodeIds ==>
                    now.state == Lost && now == was.(state := now.state))
              && (a.state !in {Pending, Running} || a.nodeId in nodeIds ==> now == was)
    ensures forall a :: a in allocs && a.id in old(ex.store.allocations) ==>
              ex.store.allocations[a.id] == Survived(a, old(ex.store.allocations)[a.id], nodeIds)
    ensures forall id :: id in old(ex.store.allocations) && id !in Ids(allocs) ==>
              ex.store.allocations[id] == old(ex.store.allocations)[id]
  {
    hide LostSoFar, DistinctIds, Ids;
    ghost var m := ex.store.allocations;
    LostNothing(m, allocs, nodeIds);
    for i := 0 to |allocs|
      invariant ex.store.allocations.Keys == m.Keys && LostSoFar(m, ex.store.allocations, allocs, nodeIds, i)
    {
      LostStep(m, ex.store.allocations, allocs, nodeIds, i);
      if allocs[i].IsTerminal() {
        assert allocs[i].id in m ==>
            ex.store.allocations[allocs[i].id := ex.store.allocations[allocs[i].id]] == ex.store.allocations;
        continue;
      }
      if allocs[i].nodeId !in nodeIds {
        var _ := ex.store.UpdateAllocation(allocs[i].id, a => SetState(a, Lost));
      } else {
        assert allocs[i].id in m ==>
            ex.store.allocations[allocs[i].id := ex.store.allocations[allocs[i].id]] == ex.store.allocations;
      }
    }
    LostAll(m, ex.store.allocations, allocs, nodeIds);
  }
}

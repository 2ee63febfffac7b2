/** The executor (src/client/executor.rs): starts, stops and restarts the tasks of an
    allocation. The drivers are an oracle. */
module Executor {
  import opened Common
  import opened Domain
  import opened StateStore

  datatype RunningTask = RunningTask(taskName: string, driver: string)

  /** What a driver reports of a process it has started. */
  datatype Handle = Handle(pid: Option<nat>, startedAt: Time)

  /** How the drivers behave during one call or tick: which exist, which starts succeed,
      what handle a start gives, what status a task reports (None when the status call
      fails), and the time. */
  datatype World = World(
    hasDriver: string -> bool,
    startOk: (Uuid, string) -> bool,
    handle: (Uuid, string) -> Handle,
    status: (Uuid, string) -> Option<TaskRunState>,
    now: Time)

  /** Everything about an allocation but its state and its tasks' states. */
  ghost predicate SameIdentity(a: Allocation, b: Allocation) {
    b == a.(state := b.state, taskStates := b.taskStates)
  }

  function Restarts(a: Allocation, task: string): nat {
    if task in a.taskStates then a.taskStates[task].restarts else 0
  }

  /** Same allocation, same tasks, and no restart counted. */
  ghost predicate KeepsRestarts(a: Allocation, b: Allocation) {
    SameIdentity(a, b) && b.taskStates.Keys == a.taskStates.Keys && forall t :: Restarts(b, t) == Restarts(a, t)
  }

  ghost predicate OnlyAt<V>(m: map<Uuid, V>, m': map<Uuid, V>, id: Uuid) {
    m'.Keys == m.Keys && forall k :: k in m && k != id ==> m'[k] == m[k]
  }

  function FindGroup(groups: seq<TaskGroup>, name: string): (r: Option<TaskGroup>)
    ensures r.Some? ==> r.value in groups && r.value.name == name
    ensures r.None? ==> forall g :: g in groups ==> g.name != name
  {
    if groups == [] then None
    else if groups[0].name == name then Some(groups[0])
    else FindGroup(groups[1..], name)
  }

  function FindTask(tasks: seq<Task>, name: string): (r: Option<Task>)
    ensures r.Some? ==> r.value in tasks && r.value.name == name
    ensures r.None? ==> forall t :: t in tasks ==> t.name != name
  {
    if tasks == [] then None
    else if tasks[0].name == name then Some(tasks[0])
    else FindTask(tasks[1..], name)
  }

  /** Where a name is given twice, the first group or task of that name is meant. */
  lemma {:induction false} FirstGroupFound(groups: seq<TaskGroup>, name: string, i: nat)
    requires i < |groups| && groups[i].name == name && forall j :: 0 <= j < i ==> groups[j].name != name
    ensures FindGroup(groups, name) == Some(groups[i])
    decreases i
  {
    if i > 0 {
      FirstGroupFound(groups[1..], name, i - 1);
    }
  }

  lemma {:induction false} FirstTaskFound(tasks: seq<Task>, name: string, i: nat)
    requires i < |tasks| && tasks[i].name == name && forall j :: 0 <= j < i ==> tasks[j].name != name
    ensures FindTask(tasks, name) == Some(tasks[i])
    decreases i
  {
    if i > 0 {
      FirstTaskFound(tasks[1..], name, i - 1);
    }
  }

  /** The groups of a job by the store, none when it is not there. */
  function GroupsIn(jobs: map<string, Job>, id: string): seq<TaskGroup> {
    if id in jobs then jobs[id].groups else []
  }

  /** The group an allocation belongs to, by the job as the store has it now. */
  function GroupOf(jobs: map<string, Job>, a: Allocation): Option<TaskGroup> {
    FindGroup(GroupsIn(jobs, a.jobId), a.groupName)
  }

  predicate TaskStarts(w: World, id: Uuid, task: Task) {
    w.hasDriver(task.driver) && w.startOk(id, task.name)
  }

  /** The first task that does not start, if any. */
  function FirstStuck(w: World, id: Uuid, tasks: seq<Task>): (r: Option<Task>)
    ensures r.None? <==> forall i :: 0 <= i < |tasks| ==> w.hasDriver(tasks[i].driver) && w.startOk(id, tasks[i].name)
  {
    if tasks == [] then None
    else if !TaskStarts(w, id, tasks[0]) then Some(tasks[0])
    else FirstStuck(w, id, tasks[1..])
  }

  /** A start that the driver refuses fails the allocation; one that never reaches a
      driver leaves it as it was. */
  predicate RefusedStart(w: World, group: Option<TaskGroup>, id: Uuid) {
    && group.Some? && FirstStuck(w, id, group.value.tasks).Some?
    && w.hasDriver(FirstStuck(w, id, group.value.tasks).value.driver)
  }

  /** Starting the allocation succeeds: its group is known and every task starts. */
  ghost predicate Startable(w: World, jobs: map<string, Job>, a: Allocation) {
    var g := GroupOf(jobs, a);
    g.Some? && forall i :: 0 <= i < |g.value.tasks| ==> TaskStarts(w, a.id, g.value.tasks[i])
  }

  function Started(a: Allocation, task: string, h: Handle): Allocation {
    if task !in a.taskStates then a
    else a.(taskStates :=
            a.taskStates[task :=
                         a.taskStates[task].(state := TaskRunning, pid := h.pid, startedAt := Some(h.startedAt))])
  }

  function StartFailed(a: Allocation, task: string): Allocation {
    if task !in a.taskStates then a.(state := Failed)
    else a.(state := Failed, taskStates := a.taskStates[task := a.taskStates[task].(state := TaskDead)])
  }

  function SetState(a: Allocation, s: AllocationState): Allocation { a.(state := s) }

  function Stopped(a: Allocation, now: Time): Allocation {
    a.(state := Complete,
       taskStates := map t | t in a.taskStates :: a.taskStates[t].(state := TaskDead, finishedAt := Some(now)))
  }

  /** The count goes up by one with every restart. */
  function Restarted(a: Allocation, task: string, h: Handle): Allocation {
    if task !in a.taskStates then a
    else
      var was := a.taskStates[task];
      a.(taskStates := a.taskStates[task :=
           was.(state := TaskRunning, pid := h.pid, startedAt := Some(h.startedAt), restarts := was.restarts + 1)])
  }

  /** What starting the tasks one after the other makes of the allocation. */
  function StartFrom(w: World, id: Uuid, a: Allocation, tasks: seq<Task>): Allocation
    decreases tasks
  {
    if tasks == [] then SetState(a, Running)
    else if !w.hasDriver(tasks[0].driver) then a
    else if !w.startOk(id, tasks[0].name) then StartFailed(a, tasks[0].name)
    else StartFrom(w, id, Started(a, tasks[0].name, w.handle(id, tasks[0].name)), tasks[1..])
  }

  function Tracking(tasks: seq<Task>): (r: seq<RunningTask>)
    ensures |r| == |tasks|
  {
    seq(|tasks|, i requires 0 <= i < |tasks| => RunningTask(tasks[i].name, tasks[i].driver))
  }

  /** An allocation that starts is running; one that a driver refuses has failed; one whose
      driver is missing keeps its state. No restart is counted. */
  lemma {:induction false} StartKeeps(w: World, id: Uuid, a: Allocation, tasks: seq<Task>)
    ensures KeepsRestarts(a, StartFrom(w, id, a, tasks))
    ensures
      var stuck := FirstStuck(w, id, tasks);
      StartFrom(w, id, a, tasks).state ==
        if stuck.None? then Running else if w.hasDriver(stuck.value.driver) then Failed else a.state
    decreases tasks
  {
    if tasks != [] {
      StartKeeps(w, id, Started(a, tasks[0].name, w.handle(id, tasks[0].name)), tasks[1..]);
    }
  }

  /** When every task starts, every task of the allocation is running afterwards. */
  lemma {:induction false} StartRuns(w: World, id: Uuid, a: Allocation, tasks: seq<Task>, name: string)
    requires FirstStuck(w, id, tasks).None? && name in a.taskStates
    requires a.taskStates[name].state == TaskRunning || exists i :: 0 <= i < |tasks| && tasks[i].name == name
    ensures name in StartFrom(w, id, a, tasks).taskStates
            && StartFrom(w, id, a, tasks).taskStates[name].state == TaskRunning
    decreases tasks
  {
    if tasks != [] {
      var next := Started(a, tasks[0].name, w.handle(id, tasks[0].name));
      if next.taskStates[name].state != TaskRunning {
        var i :| 0 <= i < |tasks| && tasks[i].name == name;
        assert tasks[1..][i - 1] == tasks[i];
      }
      StartRuns(w, id, next, tasks[1..], name);
    }
  }

  /** What one start leaves of the allocation, `k` being how many tasks start before the first
      that does not: a task that has started runs under its handle; one that a driver refuses
      is dead, and so is then the allocation; where a driver is missing everything stays. */
  lemma {:induction false} StartLeaves(w: World, id: Uuid, a: Allocation, tasks: seq<Task>, k: nat, name: string)
    requires k <= |tasks| && forall i :: 0 <= i < k ==> w.hasDriver(tasks[i].driver) && w.startOk(id, tasks[i].name)
    requires k < |tasks| ==> !(w.hasDriver(tasks[k].driver) && w.startOk(id, tasks[k].name))
    ensures
      var b := StartFrom(w, id, a, tasks);
      var refused := k < |tasks| && w.hasDriver(tasks[k].driver);
      && b == a.(state := b.state, taskStates := b.taskStates) && b.taskStates.Keys == a.taskStates.Keys
      && b.state == (if k == |tasks| then Running else if refused then Failed else a.state)
      && (name in a.taskStates ==>
            var was, now := a.taskStates[name], b.taskStates[name];
            && now.exitCode == was.exitCode && now.finishedAt == was.finishedAt && now.restarts == was.restarts
            && (if exists i :: 0 <= i < k && tasks[i].name == name
                then now.pid == w.handle(id, name).pid && now.startedAt == Some(w.handle(id, name).startedAt)
                else now.pid == was.pid && now.startedAt == was.startedAt)
            && now.state == (if refused && tasks[k].name == name then TaskDead
                             else if exists i :: 0 <= i < k && tasks[i].name == name then TaskRunning
                             else was.state))
    decreases tasks
  {
    if tasks != [] && k > 0 {
      var next := Started(a, tasks[0].name, w.handle(id, tasks[0].name));
      StartLeaves(w, id, next, tasks[1..], k - 1, name);
      assert forall i :: 0 <= i < k - 1 ==> tasks[1..][i] == tasks[i + 1];
      if i :| 0 <= i < k && tasks[i].name == name && i > 0 {
        assert tasks[1..][i - 1].name == name;
      }
    }
  }

  function WithoutTask(tasks: seq<RunningTask>, name: string): (r: seq<RunningTask>)
    ensures |r| <= |tasks|
    ensures forall t :: t in r <==> t in tasks && t.taskName != name
  {
    if tasks == [] then []
    else if tasks[0].taskName == name then WithoutTask(tasks[1..], name)
    else [tasks[0]] + WithoutTask(tasks[1..], name)
  }

  function TasksOf(running: map<Uuid, seq<RunningTask>>, id: Uuid): seq<RunningTask> {
    if id in running then running[id] else []
  }

  /** Every driver these tasks run under exists. */
  ghost predicate DriversOf(w: World, tasks: seq<RunningTask>) {
    forall t :: t in tasks ==> w.hasDriver(t.driver)
  }

  /** Whether `restart_task` gets as far as the new start. */
  predicate RestartReaches(jobs: map<string, Job>, allocs: map<Uuid, Allocation>, id: Uuid, name: string) {
    id in allocs && GroupOf(jobs, allocs[id]).Some? && FindTask(GroupOf(jobs, allocs[id]).value.tasks, name).Some?
  }

  predicate RestartSucceeds(w: World, jobs: map<string, Job>, allocs: map<Uuid, Allocation>, id: Uuid, name: string) {
    RestartReaches(jobs, allocs, id, name)
        && TaskStarts(w, id, FindTask(GroupOf(jobs, allocs[id]).value.tasks, name).value)
  }

  /** The task runs again under the new handle, with one restart more; nothing else changes. */
  ghost predicate RestartedAs(was: Allocation, now: Allocation, name: string, h: Handle) {
    && SameIdentity(was, now) && now.state == was.state && now.taskStates.Keys == was.taskStates.Keys
    && (forall t :: t in was.taskStates && t != name ==> now.taskStates[t] == was.taskStates[t])
    && (name in was.taskStates ==>
          var a, b := was.taskStates[name], now.taskStates[name];
          && b.state == TaskRunning && b.restarts == a.restarts + 1 && b.pid == h.pid
          && b.startedAt == Some(h.startedAt) && b.exitCode == a.exitCode && b.finishedAt == a.finishedAt)
  }

  lemma RestartCounts(a: Allocation, name: string, h: Handle)
    ensures RestartedAs(a, Restarted(a, name, h), name, h)
  {}

  function ReportedState(w: World, id: Uuid, t: RunningTask): TaskRunState {
    if w.hasDriver(t.driver) && w.status(id, t.taskName).Some? then w.status(id, t.taskName).value else TaskDead
  }

  datatype TaskReport = TaskReport(name: string, state: TaskRunState)

  function Reports(w: World, id: Uuid, tasks: seq<RunningTask>): (r: seq<TaskReport>)
    ensures |r| == |tasks|
  {
    seq(|tasks|, i requires 0 <= i < |tasks| => TaskReport(tasks[i].taskName, ReportedState(w, id, tasks[i])))
  }

  class Executor {
    const store: Store
    var running: map<Uuid, seq<RunningTask>>

    constructor (store: Store)
      ensures this.store == store && running == map[]
    {
      this.store := store;
      running := map[];
    }

    method StartAllocation(alloc: Allocation, w: World) returns (ok: bool)
      modifies store`allocations, this`running
      ensures ok <==> Startable(w, store.jobs, alloc)
      ensures store.allocations ==
                if GroupOf(store.jobs, alloc).Some? && alloc.id in old(store.allocations)
                then old(store.allocations)[alloc.id :=
                       StartFrom(w, alloc.id, old(store.allocations)[alloc.id], GroupOf(store.jobs, alloc).value.tasks)]
                else old(store.allocations)
      ensures running == if ok then old(running)[alloc.id := Tracking(GroupOf(store.jobs, alloc).value.tasks)]
              else old(running)
    {
      if alloc.jobId !in store.jobs {
        return false;
      }
      var found := FindGroup(store.jobs[alloc.jobId].groups, alloc.groupName);
      if found.None? {
        return false;
      }
      var group := found.value;
      var tasks: seq<RunningTask> := [];
      ghost var m, id := store.allocations, alloc.id;
      for i := 0 to |group.tasks|
        invariant tasks == Tracking(group.tasks)[..i] && running == old(running)
        invariant forall j :: 0 <= j < i ==> TaskStarts(w, id, group.tasks[j])
        invariant store.allocations.Keys == m.Keys
        invariant store.allocations == if id in m then m[id := store.allocations[id]] else m
        invariant id in m ==>
                    StartFrom(w, id, m[id], group.tasks) == StartFrom(w, id, store.allocations[id], group.tasks[i..])
      {
        var task := group.tasks[i];
        assert group.tasks[i..][0] == task && group.tasks[i..][1..] == group.tasks[i + 1..];
        if !w.hasDriver(task.driver) {
          return false;
        }
        if w.startOk(alloc.id, task.name) {
          var _ := store.UpdateAllocation(alloc.id, a => Started(a, task.name, w.handle(alloc.id, task.name)));
          tasks := tasks + [RunningTask(task.name, task.driver)];
        } else {
          var _ := store.UpdateAllocation(alloc.id, a => StartFailed(a, task.name));
          return false;
        }
      }
      var _ := store.UpdateAllocation(alloc.id, a => SetState(a, Running));
      assert Tracking(group.tasks)[..|group.tasks|] == Tracking(group.tasks);
      running := running[alloc.id := tasks];
      ok := true;
    }

    method StopAllocation(id: Uuid, w: World) returns (ok: bool)
      modifies store`allocations, this`running
      ensures ok <==> DriversOf(w, TasksOf(old(running), id))
      ensures running == old(running) - {id}
      ensures store.allocations ==
                if ok && id in old(store.allocations)
                    then old(store.allocations)[id := Stopped(old(store.allocations)[id], w.now)]
                else old(store.allocations)
      ensures ok && id in old(store.allocations) ==>
                var was, now := old(store.allocations)[id], store.allocations[id];
                && now == was.(state := Complete, taskStates := now.taskStates)
                && now.taskStates.Keys == was.taskStates.Keys
                && forall t :: t in was.taskStates ==>
                     now.taskStates[t] == was.taskStates[t].(state := TaskDead, finishedAt := Some(w.now))
    {
      if id in running {
        var tasks := running[id];
        running := running - {id};
        for i := 0 to |tasks|
          invariant running == old(running) - {id} && store.allocations == old(store.allocations)
          invariant forall j :: 0 <= j < i ==> w.hasDriver(tasks[j].driver)
        {
          if !w.hasDriver(tasks[i].driver) {
            assert tasks[i] in TasksOf(old(running), id);
            return false;
          }
        }
      }
      var _ := store.UpdateAllocation(id, a => Stopped(a, w.now));
      ok := true;
    }

    /** `check_task_health_detailed` for one allocation of the running map. */
    method CheckTaskHealth(w: World) returns (health: map<Uuid, seq<TaskReport>>)
      ensures health.Keys == running.Keys
      ensures forall id :: id in running ==> health[id] == Reports(w, id, running[id])
      ensures forall id, i :: id in running && 0 <= i < |running[id]| ==>
                && |health[id]| == |running[id]|
                && var t, report := running[id][i], health[id][i];
                   && report.name == t.taskName
                   && (w.hasDriver(t.driver) && w.status(id, t.taskName).Some? ==>
                         report.state == w.status(id, t.taskName).value)
                   && (!w.hasDriver(t.driver) || w.status(id, t.taskName).None? ==> report.state == TaskDead)
    {
      health := map[];
      var left := running.Keys;
      while left != {}
        invariant left <= running.Keys && health.Keys == running.Keys - left
        invariant forall id :: id in health ==> id in running && health[id] == Reports(w, id, running[id])
        decreases left
      {
        var id :| id in left;
        left := left - {id};
        var reports: seq<TaskReport> := [];
        for i := 0 to |running[id]|
          invariant reports == Reports(w, id, running[id])[..i]
        {
          var t := running[id][i];
          var state := TaskDead;
          if w.hasDriver(t.driver) {
            match w.status(id, t.taskName)
            case Some(s) => state := s;
            case None => state := TaskDead;
          }
          reports := reports + [TaskReport(t.taskName, state)];
        }
        health := health[id := reports];
      }
    }

    /** The old process is dropped from the running map before the new one is started,
        so a failed start leaves it untracked. */
    method RestartTask(id: Uuid, name: string, w: World) returns (ok: bool)
      modifies store`allocations, this`running
      ensures ok == RestartSucceeds(w, store.jobs, old(store.allocations), id, name)
      ensures ok ==> RestartReaches(store.jobs, old(store.allocations), id, name)
      ensures RestartReaches(store.jobs, old(store.allocations), id, name) ==>
                var t := FindTask(GroupOf(store.jobs, old(store.allocations)[id]).value.tasks, name).value;
                ok <==> w.hasDriver(t.driver) && w.startOk(id, t.name)
      ensures store.allocations ==
                if ok then old(store.allocations)[id := Restarted(old(store.allocations)[id], name, w.handle(id, name))]
                    else old(store.allocations)
      ensures ok ==> RestartedAs(old(store.allocations)[id], store.allocations[id], name, w.handle(id, name))
      ensures !RestartReaches(store.jobs, old(store.allocations), id, name) ==> running == old(running)
      ensures RestartReaches(store.jobs, old(store.allocations), id, name) ==>
                running ==
                  if ok then old(running)[id := WithoutTask(TasksOf(old(running), id), name)
                               + [RunningTask(name,
                                              FindTask(GroupOf(store.jobs, old(store.allocations)[id]).value.tasks,
                                                       name).value.driver)]]
                  else if id in old(running) then old(running)[id := WithoutTask(old(running)[id], name)]
                  else old(running)
    {
      hide Restarted, RestartedAs;
      if id !in store.allocations {
        return false;
      }
      var alloc := store.allocations[id];
      if alloc.jobId !in store.jobs {
        return false;
      }
      var group := FindGroup(store.jobs[alloc.jobId].groups, alloc.groupName);
      if group.None? {
        return false;
      }
      var task := FindTask(group.value.tasks, name);
      if task.None? {
        return false;
      }
      if id in running {
        running := running[id := WithoutTask(running[id], name)];
      }
      if !w.hasDriver(task.value.driver) || !w.startOk(id, task.value.name) {
        return false;
      }
      RestartCounts(alloc, name, w.handle(id, name));
      var _ := store.UpdateAllocation(id, a => Restarted(a, name, w.handle(id, name)));
      running := running[id := TasksOf(running, id) + [RunningTask(name, task.value.driver)]];
      ok := true;
    }
  }
}

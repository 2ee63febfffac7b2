/** The records shared by the cluster state, the placement evaluator and the
    reconciler (src/domain/job.rs, allocation.rs, node.rs, release.rs, source.rs).
    Times are integers, uuids are numbers. */
module Domain {
  import opened Common

  type Uuid = nat
  type Time = int

  datatype JobType = Service | Batch | System
  datatype JobStatus = JobPending | JobRunning | JobDead
  datatype RestartMode = OnFailure | Always | Never
  datatype RestartPolicy = RestartPolicy(mode: RestartMode, attempts: nat, intervalSecs: nat, delaySecs: nat)
  datatype Resources = Resources(cpuMhz: nat, memoryMb: nat)
  datatype Constraint = Constraint(attribute: string, operator: string, value: string)

  /** Of a driver's configuration only the flake reference of a Nix task is read. */
  datatype TaskConfig = NixConfig(flakeRef: string) | DriverConfig(detail: string)
  datatype Task = Task(name: string, driver: string, config: TaskConfig)

  datatype TaskGroup = TaskGroup(
    name: string,
    count: nat,
    tasks: seq<Task>,
    restartPolicy: RestartPolicy,
    resources: Resources,
    network: string)

  datatype Job = Job(
    id: string,
    version: nat,
    jobType: JobType,
    status: JobStatus,
    submittedAt: Time,
    groups: seq<TaskGroup>,
    constraints: seq<Constraint>,
    meta: map<string, string>,
    specHash: Option<string>)

  datatype JobSpec = JobSpec(
    id: string,
    jobType: JobType,
    groups: seq<TaskGroup>,
    constraints: seq<Constraint>,
    meta: map<string, string>)

  datatype AllocationState = Pending | Running | Complete | Failed | Lost
  datatype TaskRunState = TaskPending | TaskRunning | TaskDead

  datatype TaskState = TaskState(
    state: TaskRunState,
    pid: Option<nat>,
    exitCode: Option<int>,
    startedAt: Option<Time>,
    finishedAt: Option<Time>,
    restarts: nat)

  const NEW_TASK := TaskState(TaskPending, None, None, None, None, 0)

  /** Every task of a new allocation starts as new. */
  function NewTaskStates(tasks: seq<Task>): (r: map<string, TaskState>)
    ensures forall n :: n in r <==> exists i :: 0 <= i < |tasks| && tasks[i].name == n
    ensures forall n :: n in r ==>
              r[n].state == TaskPending && r[n].restarts == 0 && r[n].exitCode == None && r[n].pid == None
                  && r[n].startedAt == None && r[n].finishedAt == None
  {
    map i | 0 <= i < |tasks| :: tasks[i].name := NEW_TASK
  }

  datatype Allocation = Allocation(
    id: Uuid,
    jobId: string,
    groupName: string,
    nodeId: string,
    state: AllocationState,
    createdAt: Time,
    taskStates: map<string, TaskState>,
    jobVersion: nat)
  {
    predicate IsTerminal() { state == Complete || state == Failed || state == Lost }
    predicate IsActive() { state == Running || state == Pending }
  }

  datatype NodeStatus = NodeReady | NodeDown | NodeDraining

  datatype Node = Node(
    id: string,
    status: NodeStatus,
    eligible: bool,
    totalResources: Resources,
    availableResources: Resources,
    attributes: map<string, string>)
  {
    predicate Usable() { status == NodeReady && eligible }
  }

  datatype NodeMeta = NodeMeta(nodeId: nat, hostname: string, detail: string, eligible: bool)

  datatype ReleaseStatus = ReleasePending | ReleaseActive | Superseded | RolledBack
  datatype Release = Release(id: Uuid, name: string, jobId: string, detail: string, status: ReleaseStatus)

  datatype SourceStatus = SourcePending | SourceReady | SourceFailed | Suspended

  datatype Source = Source(
    id: Uuid,
    name: string,
    flakeRef: string,
    status: SourceStatus,
    lastRev: Option<string>,
    lastReconciledAt: Option<Time>,
    lastError: Option<string>,
    managedJobs: map<string, string>)
}

/** What the state machine remembers about a job, as a function of the command log
    alone. */
module JobHistory {
  import opened Common
  import opened Domain
  import opened EventRing
  import opened Cluster

  // ---- reference: read off the log ----

  /** The submissions of `id`, in order. */
  function Submissions(log: seq<Command>, id: string): seq<JobVersionEntry> {
    if log == [] then []
    else
      var init, cmd := log[..|log| - 1], log[|log| - 1];
      Submissions(init, id) + (if cmd.PutJob? && cmd.job.id == id then [EntryOf(cmd.job)] else [])
  }

  /** A rollback takes effect when some submission so far has that version. */
  predicate TakesEffect(init: seq<Command>, cmd: Command, id: string) {
    cmd.RollbackJob? && cmd.jobId == id && exists e :: e in Submissions(init, id) && e.version == cmd.version
  }

  function StatusOf(log: seq<Command>, id: string): Option<JobStatus> {
    if log == [] then None
    else
      var init, cmd := log[..|log| - 1], log[|log| - 1];
      var before := StatusOf(init, id);
      if cmd.PutJob? && cmd.job.id == id then Some(cmd.job.status)
      else if cmd.UpdateJobStatus? && cmd.jobId == id && before.Some? then Some(cmd.status)
      else if TakesEffect(init, cmd, id) then Some(JobPending)
      else before
  }

  /** The version carried by the last submission. */
  function SubmittedVersion(log: seq<Command>, id: string): nat {
    if log == [] then 0
    else
      var cmd := log[|log| - 1];
      if cmd.PutJob? && cmd.job.id == id then cmd.job.version else SubmittedVersion(log[..|log| - 1], id)
  }

  /** Status changes and rollbacks since the last submission; writing the status a job
      already has is not a change. */
  function Bumps(log: seq<Command>, id: string): nat {
    if log == [] then 0
    else
      var init, cmd := log[..|log| - 1], log[|log| - 1];
      if cmd.PutJob? && cmd.job.id == id then 0
      else if cmd.UpdateJobStatus? && cmd.jobId == id && StatusOf(init, id).Some?
          && StatusOf(init, id) != Some(cmd.status) then
        Bumps(init, id) + 1
      else if TakesEffect(init, cmd, id) then Bumps(init, id) + 1
      else Bumps(init, id)
  }

  // ---- the invariant ----

  /** Jobs and histories have the same keys, each history is the job's submissions in
      order, and status and version are what the log says. */
  ghost predicate Remembers(cs: ClusterState, log: seq<Command>, id: string) {
    && (id in cs.jobs <==> id in cs.jobHistory)
    && (id in cs.jobs <==> Submissions(log, id) != [])
    && HistoryOf(cs, id) == Submissions(log, id)
    && StatusOf(log, id) == (if id in cs.jobs then Some(cs.jobs[id].status) else None)
    && (id in cs.jobs ==> cs.jobs[id].id == id && cs.jobs[id].version == SubmittedVersion(log, id) + Bumps(log, id))
  }

  lemma OthersLeaveJobs(cs: ClusterState, cmd: Command, o: Stamp)
    requires !cmd.OnJob()
    ensures Apply(cs, cmd, o).0.jobs == cs.jobs && Apply(cs, cmd, o).0.jobHistory == cs.jobHistory
  {}

  lemma FindIsMember(h: seq<JobVersionEntry>, version: nat)
    ensures FindVersion(h, version).Some? <==> exists e :: e in h && e.version == version
  {
    if e :| e in h && e.version == version {
      var i :| 0 <= i < |h| && h[i] == e;
      assert h[i].version == version;
    }
  }

  /** The references one command further. */
  lemma LogStep(log: seq<Command>, cmd: Command, id: string)
    ensures Submissions(log + [cmd], id) ==
              Submissions(log, id) + (if cmd.PutJob? && cmd.job.id == id then [EntryOf(cmd.job)] else [])
    ensures cmd.UpdateJobStatus? && cmd.jobId == id && StatusOf(log, id).Some? ==>
              && StatusOf(log + [cmd], id) == Some(cmd.status)
              && Bumps(log + [cmd], id) == Bumps(log, id) + (if StatusOf(log, id) == Some(cmd.status) then 0 else 1)
    ensures TakesEffect(log, cmd, id) ==>
              StatusOf(log + [cmd], id) == Some(JobPending) && Bumps(log + [cmd], id) == Bumps(log, id) + 1
    ensures !cmd.PutJob? ==> SubmittedVersion(log + [cmd], id) == SubmittedVersion(log, id)
    ensures (cmd.UpdateJobStatus? && (cmd.jobId != id || StatusOf(log, id).None?))
            || (cmd.RollbackJob? && !TakesEffect(log, cmd, id)) ==>
              StatusOf(log + [cmd], id) == StatusOf(log, id) && Bumps(log + [cmd], id) == Bumps(log, id)
  {
    assert (log + [cmd])[..|log|] == log;
  }

  lemma SubmitStep(log: seq<Command>, cmd: Command, id: string)
    requires cmd.PutJob?
    ensures if cmd.job.id == id
            then && StatusOf(log + [cmd], id) == Some(cmd.job.status) && Bumps(log + [cmd], id) == 0
                 && SubmittedVersion(log + [cmd], id) == cmd.job.version
            else && StatusOf(log + [cmd], id) == StatusOf(log, id) && Bumps(log + [cmd], id) == Bumps(log, id)
                 && SubmittedVersion(log + [cmd], id) == SubmittedVersion(log, id)
  {
    assert (log + [cmd])[..|log|] == log;
  }

  lemma SubmitRemembers(cs: ClusterState, log: seq<Command>, id: string, cmd: Command, o: Stamp)
    requires Remembers(cs, log, id) && cmd.PutJob?
    ensures Remembers(Apply(cs, cmd, o).0, log + [cmd], id)
  {
    hide Emit, FindVersion, EntryOf, Submissions, StatusOf, Bumps, SubmittedVersion, TakesEffect;
    LogStep(log, cmd, id);
    SubmitStep(log, cmd, id);
  }

  lemma StatusRemembers(cs: ClusterState, log: seq<Command>, id: string, cmd: Command, o: Stamp)
    requires Remembers(cs, log, id) && cmd.UpdateJobStatus?
    ensures Remembers(Apply(cs, cmd, o).0, log + [cmd], id)
  {
    hide Emit, FindVersion, EntryOf, Submissions, StatusOf, Bumps, SubmittedVersion, TakesEffect;
    LogStep(log, cmd, id);
  }

  lemma RollbackRemembers(cs: ClusterState, log: seq<Command>, id: string, cmd: Command, o: Stamp)
    requires Remembers(cs, log, id) && cmd.RollbackJob?
    ensures Remembers(Apply(cs, cmd, o).0, log + [cmd], id)
  {
    RollbackEffect(cs, cmd.jobId, cmd.version, o);
    hide Apply, FindVersion, EntryOf, Submissions, StatusOf, Bumps, SubmittedVersion, TakesEffect;
    LogStep(log, cmd, id);
    if cmd.jobId == id {
      EffectIsFound(cs, log, id, cmd);
    } else {
      assert !TakesEffect(log, cmd, id) by { OtherTakesNone(log, cmd, id); }
    }
  }

  /** A rollback in any state, by what the job's history finds. */
  lemma RollbackEffect(cs: ClusterState, id: string, version: nat, o: Stamp)
    ensures
      var found := FindVersion(HistoryOf(cs, id), version);
      var (cs', resp) := Apply(cs, RollbackJob(id, version), o);
      if found.None? then cs' == cs && resp == ErrorResponse(VersionNotFound(version, id))
      else if id !in cs.jobs then cs' == cs && resp == ErrorResponse(JobNotFound(id))
      else
        && cs'.jobHistory == cs.jobHistory && id in cs'.jobs && cs'.jobs == cs.jobs[id := cs'.jobs[id]]
        && resp == JobResponse(cs'.jobs[id])
        && var was, now, spec := cs.jobs[id], cs'.jobs[id], found.value.spec;
           now == was.(groups := spec.groups, constraints := spec.constraints, meta := spec.meta,
                       version := was.version + 1, status := JobPending)
  {
    hide Emit, FindVersion, EntryOf;
  }

  lemma OtherTakesNone(log: seq<Command>, cmd: Command, id: string)
    requires cmd.RollbackJob? && cmd.jobId != id
    ensures !TakesEffect(log, cmd, id)
  {}

  lemma EffectIsFound(cs: ClusterState, log: seq<Command>, id: string, cmd: Command)
    requires cmd.RollbackJob? && cmd.jobId == id && HistoryOf(cs, id) == Submissions(log, id)
    ensures TakesEffect(log, cmd, id) <==> FindVersion(HistoryOf(cs, id), cmd.version).Some?
  {
    FindIsMember(HistoryOf(cs, id), cmd.version);
  }

  lemma OtherRemembers(cs: ClusterState, log: seq<Command>, id: string, cmd: Command, o: Stamp)
    requires Remembers(cs, log, id) && !cmd.OnJob()
    ensures Remembers(Apply(cs, cmd, o).0, log + [cmd], id)
  {
    hide Emit, FindVersion, EntryOf;
    assert (log + [cmd])[..|log|] == log;
    OthersLeaveJobs(cs, cmd, o);
    hide Apply;
  }

  lemma StepRemembers(cs: ClusterState, log: seq<Command>, id: string, cmd: Command, o: Stamp)
    requires Remembers(cs, log, id)
    ensures Remembers(Apply(cs, cmd, o).0, log + [cmd], id)
  {
    hide Remembers, Apply;
    match cmd
    case PutJob(_) => SubmitRemembers(cs, log, id, cmd, o);
    case UpdateJobStatus(_, _) => StatusRemembers(cs, log, id, cmd, o);
    case RollbackJob(_, _) => RollbackRemembers(cs, log, id, cmd, o);
    case _ => OtherRemembers(cs, log, id, cmd, o);
  }

  /** Every state reachable from the empty one, for every log and every job id. */
  lemma {:induction false} EveryStateRemembers(log: seq<Command>, stamps: nat -> Stamp, id: string)
    ensures Remembers(ApplyAll(EMPTY_STATE, log, stamps), log, id)
    decreases log
  {
    if log != [] {
      var n := |log| - 1;
      EveryStateRemembers(log[..n], stamps, id);
      StepRemembers(ApplyAll(EMPTY_STATE, log[..n], stamps), log[..n], id, log[n], stamps(n));
      assert log[..n] + [log[n]] == log;
    }
  }

  // ---- rollback, read off the log itself ----

  ghost predicate Submits(cmd: Command, id: string, version: nat) {
    cmd.PutJob? && cmd.job.id == id && cmd.job.version == version
  }

  /** `log[k]` is the earliest submission of this version of the job. */
  ghost predicate FirstSubmission(log: seq<Command>, id: string, version: nat, k: nat) {
    k < |log| && Submits(log[k], id, version) && forall i :: 0 <= i < k ==> !Submits(log[i], id, version)
  }

  /** The entry keeps what the earliest submission of the version brought. */
  ghost predicate Keeps(log: seq<Command>, id: string, version: nat, e: JobVersionEntry, k: nat) {
    && FirstSubmission(log, id, version, k)
    && var q := log[k].job;
       e.spec.groups == q.groups && e.spec.constraints == q.constraints && e.spec.meta == q.meta
  }

  lemma {:induction false} FindAppended(h: seq<JobVersionEntry>, e: JobVersionEntry, version: nat)
    ensures FindVersion(h + [e], version) ==
              if FindVersion(h, version).Some? then FindVersion(h, version)
              else if e.version == version then Some(e) else None
    decreases h
  {
    if h != [] {
      FindAppended(h[1..], e, version);
      assert (h + [e])[1..] == h[1..] + [e];
    }
  }

  lemma KeepsLonger(log: seq<Command>, id: string, version: nat, e: JobVersionEntry, k: nat)
    requires log != [] && Keeps(log[..|log| - 1], id, version, e, k)
    ensures Keeps(log, id, version, e, k)
  {}

  lemma KeepsLast(log: seq<Command>, id: string, version: nat)
    requires log != [] && Submits(log[|log| - 1], id, version)
    requires forall k :: 0 <= k < |log| - 1 ==> !Submits(log[k], id, version)
    ensures Keeps(log, id, version, EntryOf(log[|log| - 1].job), |log| - 1)
  {}

  /** Whether the history finds the version after one more command. */
  lemma FindStep(log: seq<Command>, id: string, version: nat)
    requires log != []
    ensures
      var cmd, was := log[|log| - 1], FindVersion(Submissions(log[..|log| - 1], id), version);
      FindVersion(Submissions(log, id), version) ==
        if was.None? && Submits(cmd, id, version) then Some(EntryOf(cmd.job)) else was
  {
    hide FindVersion;
    var h, cmd := Submissions(log[..|log| - 1], id), log[|log| - 1];
    if cmd.PutJob? && cmd.job.id == id {
      FindAppended(h, EntryOf(cmd.job), version);
    } else {
      assert h + [] == h;
    }
  }

  /** The history finds the earliest submission, entry by entry as it was submitted. */
  lemma {:induction false} HistoryFinds(log: seq<Command>, id: string, version: nat)
    ensures FindVersion(Submissions(log, id), version).None? ==> forall k :: 0 <= k < |log| ==>
              !Submits(log[k], id, version)
    ensures FindVersion(Submissions(log, id), version).Some? ==>
              exists k: nat :: Keeps(log, id, version, FindVersion(Submissions(log, id), version).value, k)
    decreases log
  {
    hide Keeps, EntryOf, Submits;
    if log == [] {
      assert Submissions(log, id) == [];
    } else {
      hide Submissions, FindVersion;
      var n := |log| - 1;
      HistoryFinds(log[..n], id, version);
      FindStep(log, id, version);
      var found := FindVersion(Submissions(log[..n], id), version);
      if found.Some? {
        var k: nat :| Keeps(log[..n], id, version, found.value, k);
        KeepsLonger(log, id, version, found.value, k);
      } else if Submits(log[n], id, version) {
        KeepsLast(log, id, version);
      }
    }
  }

  /** The entry is this submission: its version, its spec, its status and its time. */
  ghost predicate Records(e: JobVersionEntry, q: Job) {
    && e.version == q.version && e.status == q.status && e.submittedAt == q.submittedAt
    && e.spec.id == q.id && e.spec.jobType == q.jobType && e.spec.groups == q.groups
    && e.spec.constraints == q.constraints && e.spec.meta == q.meta
  }

  lemma {:induction false} SubmissionsRecord(log: seq<Command>, id: string) returns (at: seq<nat>)
    ensures forall k: nat :: k in at <==> k < |log| && log[k].PutJob? && log[k].job.id == id
    ensures forall i, j :: 0 <= i < j < |at| ==> at[i] < at[j]
    ensures |Submissions(log, id)| == |at|
            && forall i :: 0 <= i < |at| ==> at[i] < |log| && Records(Submissions(log, id)[i], log[at[i]].job)
    decreases log
  {
    if log == [] {
      at := [];
    } else {
      var n := |log| - 1;
      at := SubmissionsRecord(log[..n], id);
      if log[n].PutJob? && log[n].job.id == id {
        at := at + [n];
      } else {
        assert Submissions(log[..n], id) + [] == Submissions(log[..n], id);
      }
    }
  }

  /** In every reachable state a job's history has one entry for each of its submissions, and in
      their order. */
  lemma HistoryRecords(log: seq<Command>, stamps: nat -> Stamp, id: string) returns (at: seq<nat>)
    ensures forall k: nat :: k in at <==> k < |log| && log[k].PutJob? && log[k].job.id == id
    ensures forall i, j :: 0 <= i < j < |at| ==> at[i] < at[j]
    ensures
      var h := HistoryOf(ApplyAll(EMPTY_STATE, log, stamps), id);
      |h| == |at| && forall i :: 0 <= i < |at| ==> at[i] < |log| && Records(h[i], log[at[i]].job)
  {
    hide Submissions, ApplyAll, Records;
    EveryStateRemembers(log, stamps, id);
    at := SubmissionsRecord(log, id);
  }

  lemma OneFirst(log: seq<Command>, id: string, version: nat, k: nat, l: nat)
    requires FirstSubmission(log, id, version, k) && FirstSubmission(log, id, version, l)
    ensures k == l
  {}

  /** The job is back at what `q` submitted: groups, constraints and meta, pending under the next
      version; its id, type, time of submission and hash stay. */
  ghost predicate BackTo(was: Job, now: Job, q: Job) {
    && now.groups == q.groups && now.constraints == q.constraints && now.meta == q.meta
    && now.version == was.version + 1 && now.status == JobPending
    && now.id == was.id && now.jobType == was.jobType && now.submittedAt == was.submittedAt
    && now.specHash == was.specHash
  }

  /** A rollback in a reachable state: with `log[k]` the earliest submission of that version, the
      job is back at it, other jobs are untouched, and the answer is this job. */
  lemma RollbackIsBackTo(log: seq<Command>, stamps: nat -> Stamp, id: string, version: nat, o: Stamp, k: nat)
    requires FirstSubmission(log, id, version, k)
    ensures
      var cs := ApplyAll(EMPTY_STATE, log, stamps);
      var (cs', resp) := Apply(cs, RollbackJob(id, version), o);
      && id in cs.jobs && cs'.jobs.Keys == cs.jobs.Keys
      && (forall j :: j in cs.jobs && j != id ==> cs'.jobs[j] == cs.jobs[j])
      && BackTo(cs.jobs[id], cs'.jobs[id], log[k].job) && resp == JobResponse(cs'.jobs[id])
  {
    hide Submissions, FindVersion, Apply, ApplyAll;
    var cs := ApplyAll(EMPTY_STATE, log, stamps);
    EveryStateRemembers(log, stamps, id);
    HistoryFinds(log, id, version);
    RollbackEffect(cs, id, version, o);
    var l: nat :| Keeps(log, id, version, FindVersion(Submissions(log, id), version).value, l);
    OneFirst(log, id, version, k, l);
    FindIsMember(HistoryOf(cs, id), version);
  }

  /** Without a submission of that version nothing changes. */
  lemma RollbackFindsNone(log: seq<Command>, stamps: nat -> Stamp, id: string, version: nat, o: Stamp)
    requires forall k :: 0 <= k < |log| ==> !Submits(log[k], id, version)
    ensures
      var cs := ApplyAll(EMPTY_STATE, log, stamps);
      Apply(cs, RollbackJob(id, version), o) == (cs, ErrorResponse(VersionNotFound(version, id)))
  {
    hide Submissions, FindVersion, Apply, ApplyAll;
    EveryStateRemembers(log, stamps, id);
    HistoryFinds(log, id, version);
    RollbackEffect(ApplyAll(EMPTY_STATE, log, stamps), id, version, o);
  }

  /** Between submissions and rollbacks of a job only its status and version change. */
  lemma {:induction false} JobStaysSubmitted(log: seq<Command>, stamps: nat -> Stamp, id: string, k: nat)
    requires k < |log| && log[k].PutJob? && log[k].job.id == id
    requires forall i :: k < i < |log| ==>
               !(log[i].PutJob? && log[i].job.id == id) && !(log[i].RollbackJob? && log[i].jobId == id)
    ensures
      var jobs := ApplyAll(EMPTY_STATE, log, stamps).jobs;
      id in jobs && jobs[id] == log[k].job.(status := jobs[id].status, version := jobs[id].version)
    decreases log
  {
    hide Apply;
    var n := |log| - 1;
    var cs := ApplyAll(EMPTY_STATE, log[..n], stamps);
    if k < n {
      JobStaysSubmitted(log[..n], stamps, id, k);
      OnlyStatusMoves(cs, log[n], stamps(n), id);
    } else {
      SubmittedAsIs(cs, log[n], stamps(n));
    }
  }

  lemma SubmittedAsIs(cs: ClusterState, cmd: Command, o: Stamp)
    requires cmd.PutJob?
    ensures cmd.job.id in Apply(cs, cmd, o).0.jobs && Apply(cs, cmd, o).0.jobs[cmd.job.id] == cmd.job
  {
    hide Emit, EntryOf;
  }

  lemma OnlyStatusMoves(cs: ClusterState, cmd: Command, o: Stamp, id: string)
    requires id in cs.jobs && !(cmd.PutJob? && cmd.job.id == id) && !(cmd.RollbackJob? && cmd.jobId == id)
    ensures
      var now := Apply(cs, cmd, o).0.jobs;
      id in now && now[id] == cs.jobs[id].(status := now[id].status, version := now[id].version)
  {
    hide Emit, FindVersion, EntryOf, Restore;
    if !cmd.OnJob() {
      OthersLeaveJobs(cs, cmd, o);
      hide Apply;
    }
  }
}

/** A whole tick of the reconciler, and runs of ticks (src/domain/reconciler.rs). */
module Reconciler {
  import opened Common
  import opened Domain
  import opened StateStore
  import opened Executor
  import opened Passes
  import opened CountPass
  import opened DriftPass
  import opened HealthPass
  import opened SourcePass
  import opened JobPasses

  /** The outside of one tick: drivers, flakes and sources. */
  datatype Env = Env(world: World, flakes: Flakes, views: Uuid -> View)

  // ---- a tick ----

  function LiveIds(jobs: map<string, Job>): set<string> {
    set id | id in jobs && jobs[id].status != JobDead
  }

  /** What a tick does to the allocations, with the jobs of `done` worked on: everything
      only moves on, so a terminal allocation never becomes pending or running again; what
      is left unfinished is on a known node; other jobs' allocations are as they were. */
  ghost predicate Progress(m: Allocations, m': Allocations, done: set<string>, nodeIds: set<string>) {
    && (forall id :: id in m ==> id in m' && Moves(m[id], m'[id]))
    && (forall id :: id in m && m[id].jobId !in done ==> m'[id] == m[id])
    && (forall id :: id in m' && id !in m ==> m'[id].id == id && m'[id].jobId in done)
    && (forall id :: id in m' && m'[id].jobId in done ==> OnKnownNode(m'[id], nodeIds))
  }

  lemma ProgressStep(m: Allocations, m1: Allocations, m2: Allocations, done: set<string>, jobId: string,
                     nodeIds: set<string>)
    requires Progress(m, m1, done, nodeIds) && JobStep(m1, m2, jobId, nodeIds) && jobId !in done
    ensures Progress(m, m2, done + {jobId}, nodeIds)
  {
    forall id | id in m ensures id in m2 && Moves(m[id], m2[id]) {
      assert Moves(m[id], m1[id]) && Moves(m1[id], m2[id]);
    }
    forall id | id in m2 && m2[id].jobId in done + {jobId} ensures OnKnownNode(m2[id], nodeIds) {
      if id in m1 && m2[id].jobId != jobId {
        assert m1[id].jobId != jobId;
      }
    }
  }

  // ---- what a tick does for one job ----

  /** From the start of the tick, with the job's turn past or still to come: the restart
      bounds hold on, and each of its allocations has met its fate or waits for it. */
  ghost predicate Steady(w: World, job: Job, m: Allocations, r: Tracks, m': Allocations, r': Tracks, past: bool) {
    && (Bounded(job.groups, job.id, m, r) ==> Bounded(job.groups, job.id, m', r'))
    && (forall id :: id in m && m[id].jobId == job.id ==>
        id in m' && SteadyAt(w, job.groups, m[id], id, r, m'[id], r', past))
  }

  ghost predicate SteadyAt(w: World, groups: seq<TaskGroup>, a: Allocation, id: Uuid, r: Tracks, b: Allocation,
                           r': Tracks, past: bool)
  {
    if past then Fate(w, groups, a, r, b, r') else b == a && AsideAt(w, a, id, r, r')
  }

  lemma SteadyReflexive(w: World, job: Job, m: Allocations, r: Tracks)
    ensures Steady(w, job, m, r, m, r, false)
  {}

  /** The work on another job leaves these facts alone. */
  lemma SteadyAside(w: World, job: Job, other: string, m: Allocations, r: Tracks, m1: Allocations, r1: Tracks,
                    m2: Allocations, r2: Tracks, past: bool, nodeIds: set<string>)
    requires Keyed(m, AllocationKey) && other != job.id && Steady(w, job, m, r, m1, r1, past)
    requires JobStep(m1, m2, other, nodeIds) && Aside(w, m1, r1, m2, r2, other)
    requires forall id :: id in m ==> id in m1 && m1[id].jobId == m[id].jobId
    ensures Steady(w, job, m, r, m2, r2, past)
  {
    hide SteadyAt;
    if Bounded(job.groups, job.id, m, r) {
      BoundedAside(w, job.groups, job.id, other, m1, r1, m2, r2, nodeIds);
    }
    forall id | id in m && m[id].jobId == job.id
      ensures id in m2 && SteadyAt(w, job.groups, m[id], id, r, m2[id], r2, past)
    {
      assert AllocationKey(m[id]) == id;
      assert AsideAt(w, m1[id], id, r1, r2) && m2[id] == m1[id];
      SteadyAtAside(w, job.groups, m[id], id, r, m1[id], r1, r2, past);
    }
  }

  lemma BoundedAside(w: World, groups: seq<TaskGroup>, jobId: string, other: string, m: Allocations, r: Tracks,
                     m': Allocations, r': Tracks, nodeIds: set<string>)
    requires other != jobId && Bounded(groups, jobId, m, r)
    requires JobStep(m, m', other, nodeIds) && Aside(w, m, r, m', r', other)
    ensures Bounded(groups, jobId, m', r')
  {
    hide WithinLimit, DistinctTasks, DistinctSpecs, OnKnownNode;
    forall id | id in m' && m'[id].jobId == jobId
      ensures WithinLimit(groups, m'[id]) && (id in r' ==> DistinctTasks(r'[id]))
    {
      assert id in m && m[id].jobId == jobId;
      assert AsideAt(w, m[id], id, r, r');
    }
  }

  lemma SteadyAtAside(w: World, groups: seq<TaskGroup>, a: Allocation, id: Uuid, r: Tracks, b: Allocation, r1: Tracks,
                      r2: Tracks, past: bool)
    requires a.id == id && SteadyAt(w, groups, a, id, r, b, r1, past) && AsideAt(w, b, id, r1, r2)
    ensures SteadyAt(w, groups, a, id, r, b, r2, past)
  {
    hide Healed, DriversOf;
    if id in r && DriversOf(w, r[id]) {
      HealedDrivers(w, groups, a, r[id]);
    }
  }

  /** The job's own turn. */
  lemma SteadyOwn(w: World, job: Job, m: Allocations, r: Tracks, m1: Allocations, r1: Tracks, m2: Allocations,
                  r2: Tracks)
    requires Keyed(m, AllocationKey) && Steady(w, job, m, r, m1, r1, false) && OwnStep(w, job, m1, r1, m2, r2)
    ensures Steady(w, job, m, r, m2, r2, true)
  {
    hide Bounded, Healed;
    forall id | id in m && m[id].jobId == job.id
      ensures id in m2 && SteadyAt(w, job.groups, m[id], id, r, m2[id], r2, true)
    {
      assert AllocationKey(m[id]) == id;
      assert SteadyAt(w, job.groups, m[id], id, r, m1[id], r1, false);
    }
  }

  /** For every job, but one whose turn is past only when the tick's drift pass keeps its
      groups. */
  ghost predicate AllSteady(config: Config, tick: nat, w: World, f: Flakes, jobs: map<string, Job>, m: Allocations,
                            r: Tracks, m': Allocations, r': Tracks, done: set<string>)
    requires config.Valid()
  {
    forall id :: id in jobs && (id in done ==> GroupsKept(config, tick, jobs[id], f)) ==>
      Steady(w, jobs[id], m, r, m', r', id in done)
  }

  lemma AllSteadyAtStart(config: Config, tick: nat, w: World, f: Flakes, jobs: map<string, Job>, m: Allocations,
                         r: Tracks)
    requires config.Valid()
    ensures AllSteady(config, tick, w, f, jobs, m, r, m, r, {})
  {
    hide Steady, GroupsKept;
    forall id | id in jobs ensures Steady(w, jobs[id], m, r, m, r, false) {
      SteadyReflexive(w, jobs[id], m, r);
    }
  }

  lemma AllSteadyStep(config: Config, tick: nat, w: World, f: Flakes, jobs: map<string, Job>, m: Allocations, r: Tracks,
                      m1: Allocations, r1: Tracks, m2: Allocations, r2: Tracks, done: set<string>, job: Job,
                      nodeIds: set<string>)
    requires config.Valid() && Keyed(m, AllocationKey) && Keyed(jobs, JobKey)
    requires job.id in jobs && jobs[job.id] == job && job.status != JobDead && job.id !in done
    requires AllSteady(config, tick, w, f, jobs, m, r, m1, r1, done)
    requires forall id :: id in m ==> id in m1 && m1[id].jobId == m[id].jobId
    requires JobStep(m1, m2, job.id, nodeIds) && Aside(w, m1, r1, m2, r2, job.id)
    requires GroupsKept(config, tick, job, f) ==> OwnStep(w, job, m1, r1, m2, r2)
    ensures AllSteady(config, tick, w, f, jobs, m, r, m2, r2, done + {job.id})
  {
    hide Steady, GroupsKept, OwnStep, JobStep, Aside;
    forall id | id in jobs && (id in done + {job.id} ==> GroupsKept(config, tick, jobs[id], f))
      ensures Steady(w, jobs[id], m, r, m2, r2, id in done + {job.id})
    {
      assert JobKey(jobs[id]) == id;
      if id == job.id {
        SteadyOwn(w, job, m, r, m1, r1, m2, r2);
      } else {
        SteadyAside(w, jobs[id], job.id, m, r, m1, r1, m2, r2, id in done, nodeIds);
      }
    }
  }

  // ---- where a tick brings each job ----

  /** From the start of the tick, for the jobs worked on. */
  ghost predicate AllArrive(config: Config, tick: nat, w: World, f: Flakes, jobs: map<string, Job>, m: Allocations,
                            r: Tracks, m': Allocations, usable: set<string>, done: set<string>)
    requires config.Valid()
  {
    forall id :: id in jobs && id in done ==> Arrives(config, tick, w, f, jobs[id], m, r, m', usable)
  }

  lemma NoneArrive(config: Config, tick: nat, w: World, f: Flakes, jobs: map<string, Job>, m: Allocations, r: Tracks,
                   usable: set<string>)
    requires config.Valid()
    ensures AllArrive(config, tick, w, f, jobs, m, r, m, usable, {})
  {}

  /** The executor tracks allocations of the store only. */
  ghost predicate TracksStored(m: Allocations, r: Tracks) {
    r.Keys <= m.Keys
  }

  lemma TracksStoredAside(w: World, m: Allocations, r: Tracks, m': Allocations, r': Tracks, jobId: string,
                          nodeIds: set<string>)
    requires TracksStored(m, r) && JobStep(m, m', jobId, nodeIds) && Aside(w, m, r, m', r', jobId)
    ensures TracksStored(m', r')
  {
    hide Moves, OnKnownNode, AsideAt;
    assert m.Keys <= m'.Keys;
  }

  /** Until the job's turn the drivers are asked for no more than at the start of the tick. */
  lemma CanStillSettle(w: World, job: Job, m: Allocations, r: Tracks, m1: Allocations, r1: Tracks, done: set<string>,
                       nodeIds: set<string>)
    requires CanSettle(w, m, r, job) && Steady(w, job, m, r, m1, r1, false)
    requires Progress(m, m1, done, nodeIds) && job.id !in done
    ensures CanSettle(w, m1, r1, job)
  {
    hide RefusedStart, Bounded, OnKnownNode;
    forall id | id in m1 && m1[id].jobId == job.id && m1[id].IsActive() ensures DriversOf(w, TasksOf(r1, id)) {
      assert id in m && Moves(m[id], m1[id]);
      assert SteadyAt(w, job.groups, m[id], id, r, m1[id], r1, false);
    }
  }

  lemma CanStillRoll(w: World, job: Job, m: Allocations, r: Tracks, m1: Allocations, r1: Tracks, done: set<string>,
                     nodeIds: set<string>, groups: seq<TaskGroup>)
    requires CanRoll(w, m, r, job, groups) && (TracksStored(m, r) ==> TracksStored(m1, r1))
    requires Progress(m, m1, done, nodeIds) && job.id !in done
    ensures CanRoll(w, m1, r1, job, groups)
  {
    hide RefusedStart, OnKnownNode, Survives;
    assert m.Keys <= m1.Keys;
    forall id | id in m1 && m1[id].jobId == job.id && m1[id].IsActive() ensures m1[id].jobVersion <= job.version {
      assert id in m && Moves(m[id], m1[id]);
    }
  }

  /** Work on another job leaves a job where it has arrived. */
  lemma ArrivedAside(config: Config, tick: nat, w: World, f: Flakes, job: Job, m: Allocations, r: Tracks,
                     m1: Allocations, m2: Allocations, usable: set<string>, other: string, nodeIds: set<string>)
    requires config.Valid() && Arrives(config, tick, w, f, job, m, r, m1, usable)
    requires JobStep(m1, m2, other, nodeIds) && other != job.id
    ensures Arrives(config, tick, w, f, job, m, r, m2, usable)
  {
    hide CanSettle, CanRoll, Drifts, DistinctGroups;
    forall g ensures ActiveIds(m2, job.id, g) == ActiveIds(m1, job.id, g) {
      OthersActive(m1, m2, other, nodeIds, job.id, g);
    }
    forall id | id in m2 && m2[id].jobId == job.id ensures id in m1 && m2[id] == m1[id] {
      OthersSame(m1, m2, other, nodeIds, job.id, id);
    }
    hide ActiveIds, JobStep, Desired;
  }

  lemma OthersSame(m: Allocations, m': Allocations, other: string, nodeIds: set<string>, jobId: string, id: Uuid)
    requires JobStep(m, m', other, nodeIds) && other != jobId && id in m' && m'[id].jobId == jobId
    ensures id in m && m'[id] == m[id]
  {
    hide OnKnownNode;
    if id in m {
      assert Moves(m[id], m'[id]);
    }
  }

  lemma OthersActive(m: Allocations, m': Allocations, other: string, nodeIds: set<string>, jobId: string, g: string)
    requires JobStep(m, m', other, nodeIds) && other != jobId
    ensures ActiveIds(m', jobId, g) == ActiveIds(m, jobId, g)
  {
    hide OnKnownNode;
    forall id ensures id in ActiveIds(m', jobId, g) <==> id in ActiveIds(m, jobId, g) {
      if id in m {
        assert Moves(m[id], m'[id]);
      }
    }
  }

  lemma ArrivesInTurn(config: Config, tick: nat, w: World, f: Flakes, job: Job, m: Allocations, r: Tracks,
                      m1: Allocations, r1: Tracks, m2: Allocations, usable: set<string>, done: set<string>,
                      nodeIds: set<string>)
    requires config.Valid() && job.id !in done && (TracksStored(m, r) ==> TracksStored(m1, r1))
    requires Steady(w, job, m, r, m1, r1, false) && Progress(m, m1, done, nodeIds)
    requires Arrives(config, tick, w, f, job, m1, r1, m2, usable)
    ensures Arrives(config, tick, w, f, job, m, r, m2, usable)
  {
    hide Steady, Progress, CanSettle, CanRoll, AtDesired, Rolled, DistinctGroups, Drifted;
    if CanSettle(w, m, r, job) {
      CanStillSettle(w, job, m, r, m1, r1, done, nodeIds);
      if Drifts(config, tick, job, f) && CanRoll(w, m, r, job, Drifted(job, f).value.groups) {
        CanStillRoll(w, job, m, r, m1, r1, done, nodeIds, Drifted(job, f).value.groups);
      }
    }
  }

  lemma AllArriveStep(config: Config, tick: nat, w: World, f: Flakes, jobs: map<string, Job>, m: Allocations, r: Tracks,
                      m1: Allocations, r1: Tracks, m2: Allocations, usable: set<string>, done: set<string>, job: Job,
                      nodeIds: set<string>)
    requires config.Valid() && Keyed(jobs, JobKey) && job.id in jobs && jobs[job.id] == job && job.id !in done
    requires AllArrive(config, tick, w, f, jobs, m, r, m1, usable, done) && (TracksStored(m, r) ==>
               TracksStored(m1, r1))
    requires AllSteady(config, tick, w, f, jobs, m, r, m1, r1, done) && Progress(m, m1, done, nodeIds)
    requires JobStep(m1, m2, job.id, nodeIds) && Arrives(config, tick, w, f, job, m1, r1, m2, usable)
    ensures AllArrive(config, tick, w, f, jobs, m, r, m2, usable, done + {job.id})
  {
    hide Steady, Progress, JobStep, Arrives, TracksStored, GroupsKept;
    forall id | id in jobs && id in done + {job.id} ensures Arrives(config, tick, w, f, jobs[id], m, r, m2, usable) {
      assert JobKey(jobs[id]) == id;
      if id == job.id {
        assert Steady(w, job, m, r, m1, r1, false);
        ArrivesInTurn(config, tick, w, f, job, m, r, m1, r1, m2, usable, done, nodeIds);
      } else {
        ArrivedAside(config, tick, w, f, jobs[id], m, r, m1, m2, usable, job.id, nodeIds);
      }
    }
  }

  // ---- which jobs a tick leaves alone ----

  /** Nothing in this tick writes the job: no drift, and no source whose run is due. */
  ghost predicate Calm(config: Config, tick: nat, jobs: map<string, Job>, sources: map<Uuid, Source>, env: Env,
                       id: string)
    requires config.Valid()
  {
    && NoDrift(config, tick, jobs, env.flakes, id)
    && (config.SourcesDue(tick) ==> forall s :: s in sources ==> !Writes(sources[s], env.views, env.flakes.hash, id))
  }

  ghost predicate NoDrift(config: Config, tick: nat, jobs: map<string, Job>, f: Flakes, id: string)
    requires config.Valid()
  {
    id in jobs && (jobs[id].status != JobDead ==> !Drifts(config, tick, jobs[id], f))
  }

  /** So far: the records of the jobs worked on are as their passes leave them, the others as
      they were; and no active allocation of a job is newer than the job, if none was. */
  ghost predicate RecordsSoFar(config: Config, tick: nat, jobs: map<string, Job>, f: Flakes, m: Allocations,
                               jobs': map<string, Job>, m': Allocations, done: set<string>)
    requires config.Valid()
  {
    forall id :: id in jobs ==>
      && id in jobs'
      && (if id in done then RecordAfter(config, tick, f, jobs[id], jobs'[id]) else jobs'[id] == jobs[id])
      && (NoneNewer(m, id, jobs[id].version) ==> NoneNewer(m', id, jobs'[id].version))
  }

  lemma NoRecords(config: Config, tick: nat, jobs: map<string, Job>, f: Flakes, m: Allocations)
    requires config.Valid()
    ensures RecordsSoFar(config, tick, jobs, f, m, jobs, m, {})
  {}

  lemma NoneNewerAside(m: Allocations, m': Allocations, other: string, nodeIds: set<string>, id: string, version: nat)
    requires JobStep(m, m', other, nodeIds) && other != id && NoneNewer(m, id, version)
    ensures NoneNewer(m', id, version)
  {
    forall a | a in m' && m'[a].jobId == id ensures a in m && m'[a] == m[a] {
      OthersSame(m, m', other, nodeIds, id, a);
    }
  }

  lemma RecordsStep(config: Config, tick: nat, jobs: map<string, Job>, f: Flakes, m: Allocations,
                    jobs1: map<string, Job>, m1: Allocations, jobs2: map<string, Job>, m2: Allocations,
                    done: set<string>, job: Job, nodeIds: set<string>)
    requires config.Valid() && RecordsSoFar(config, tick, jobs, f, m, jobs1, m1, done)
    requires job.id in jobs && jobs[job.id] == job && job.id !in done && OnlyJob(jobs1, jobs2, job.id)
    requires job.id in jobs2 && RecordAfter(config, tick, f, job, jobs2[job.id])
    requires JobStep(m1, m2, job.id, nodeIds)
    requires NoneNewer(m1, job.id, job.version) ==> NoneNewer(m2, job.id, jobs2[job.id].version)
    ensures RecordsSoFar(config, tick, jobs, f, m, jobs2, m2, done + {job.id})
  {
    hide RecordAfter, NoneNewer, JobStep;
    forall id | id in jobs && id != job.id && NoneNewer(m, id, jobs[id].version)
      ensures NoneNewer(m2, id, jobs2[id].version)
    {
      NoneNewerAside(m1, m2, job.id, nodeIds, id, jobs1[id].version);
    }
  }

  /** Some due source's run writes the record, or files a new one under the id. */
  ghost predicate SourceWrites(config: Config, tick: nat, sources: map<Uuid, Source>, env: Env, id: string)
    requires config.Valid()
  {
    && config.sourceReconciliation && tick % config.sourceReevalEveryN == 0
    && exists s :: s in sources && Writes(sources[s], env.views, env.flakes.hash, id)
  }

  ghost predicate SourceFiles(config: Config, tick: nat, sources: map<Uuid, Source>, env: Env, id: string)
    requires config.Valid()
  {
    && config.sourceReconciliation && tick % config.sourceReevalEveryN == 0
    && exists s :: s in sources && sources[s].status != Suspended && Creates(sources[s], env.views(sources[s].id), id)
  }

  /** After the whole tick. */
  ghost predicate RecordsLeft(config: Config, tick: nat, jobs: map<string, Job>, sources: map<Uuid, Source>, env: Env,
                              m: Allocations, jobs': map<string, Job>, m': Allocations)
    requires config.Valid()
  {
    forall id :: id in jobs ==>
      && (!SourceWrites(config, tick, sources, env, id) ==>
            id in jobs' && RecordAfter(config, tick, env.flakes, jobs[id], jobs'[id]))
      && (!SourceFiles(config, tick, sources, env, id) && NoneNewer(m, id, jobs[id].version) ==>
            id in jobs' && NoneNewer(m', id, jobs'[id].version))
  }

  lemma RecordsAtEnd(config: Config, tick: nat, jobs: map<string, Job>, sources: map<Uuid, Source>, env: Env,
                     m: Allocations, jobs': map<string, Job>, m': Allocations)
    requires config.Valid() && RecordsSoFar(config, tick, jobs, env.flakes, m, jobs', m', LiveIds(jobs))
    ensures RecordsLeft(config, tick, jobs, sources, env, m, jobs', m')
  {
    hide NoneNewer, Drifted, SourceWrites, SourceFiles;
  }

  lemma RecordsThroughSources(config: Config, tick: nat, jobs: map<string, Job>, sources: map<Uuid, Source>, env: Env,
                              m: Allocations, m': Allocations, listed: seq<Source>, states: seq<map<string, Job>>)
    requires config.Valid() && config.sourceReconciliation && tick % config.sourceReevalEveryN == 0
    requires ListsValues(sources, listed, SourceKey) && PassYields(states, listed, env.views, env.flakes.hash)
    requires RecordsSoFar(config, tick, jobs, env.flakes, m, states[0], m', LiveIds(jobs))
    ensures RecordsLeft(config, tick, jobs, sources, env, m, states[|listed|], m')
  {
    hide NoneNewer, Drifted, Creates, Updates, RecordAfter, LiveIds, TurnYields;
    RecordsAtEnd(config, tick, jobs, sources, env, m, states[0], m');
    assert forall j :: 0 <= j < |listed| ==>
        SourceKey(listed[j]) in sources && sources[SourceKey(listed[j])] == listed[j];
    forall id | id in jobs
      ensures && (!SourceWrites(config, tick, sources, env, id) ==>
                    id in states[|listed|] && RecordAfter(config, tick, env.flakes, jobs[id], states[|listed|][id]))
              && (!SourceFiles(config, tick, sources, env, id) && NoneNewer(m, id, jobs[id].version) ==>
                    id in states[|listed|] && NoneNewer(m', id, states[|listed|][id].version))
    {
      if !SourceWrites(config, tick, sources, env, id) {
        assert forall j :: 0 <= j < |listed| ==> !Writes(listed[j], env.views, env.flakes.hash, id);
        PassKeeps(states, listed, env.views, env.flakes.hash, id);
      }
      if !SourceFiles(config, tick, sources, env, id) && NoneNewer(m, id, jobs[id].version) {
        PassKeepsVersion(states, listed, env.views, env.flakes.hash, id);
        NoneNewerWiden(m', id, states[0][id].version, states[|listed|][id].version);
      }
    }
  }

  lemma NoneNewerWiden(m: Allocations, id: string, version: nat, version': nat)
    requires NoneNewer(m, id, version) && version <= version'
    ensures NoneNewer(m, id, version')
  {}

  /** So a calm job keeps its record. */
  lemma CalmUnwritten(config: Config, tick: nat, jobs: map<string, Job>, sources: map<Uuid, Source>, env: Env,
                      m: Allocations, jobs': map<string, Job>, m': Allocations)
    requires config.Valid() && RecordsLeft(config, tick, jobs, sources, env, m, jobs', m')
    ensures forall id :: Calm(config, tick, jobs, sources, env, id) ==>
              id in jobs && id in jobs' && jobs'[id] == jobs[id]
  {
    hide NoneNewer, Drifted, Writes, SourceFiles;
    forall id | Calm(config, tick, jobs, sources, env, id) ensures id in jobs && id in jobs' && jobs'[id] == jobs[id] {
      assert !SourceWrites(config, tick, sources, env, id);
    }
  }

  // ---- runs of ticks ----

  ghost predicate OnlyMoves(m: Allocations, m': Allocations) {
    forall id :: id in m ==> id in m' && Moves(m[id], m'[id])
  }

  lemma MovesReflexive(m: Allocations)
    ensures OnlyMoves(m, m)
  {}

  lemma MovesThenProgress(m: Allocations, m1: Allocations, m2: Allocations, done: set<string>, nodeIds: set<string>)
    requires OnlyMoves(m, m1) && Progress(m1, m2, done, nodeIds)
    ensures OnlyMoves(m, m2)
  {
    forall id | id in m ensures id in m2 && Moves(m[id], m2[id]) {
      assert Moves(m[id], m1[id]) && Moves(m1[id], m2[id]);
    }
  }

  /** The jobs and sources between two ticks. */
  datatype Shot = Shot(jobs: map<string, Job>, sources: map<Uuid, Source>)

  /** What a tick leaves of the jobs and sources: a job that nothing writes, and of each
      source what its run records. */
  ghost predicate TickLeaves(config: Config, tick: nat, was: Shot, env: Env, now: Shot)
    requires config.Valid()
  {
    && (forall id :: Calm(config, tick, was.jobs, was.sources, env, id) ==>
        id in now.jobs && now.jobs[id] == was.jobs[id])
    && (if config.sourceReconciliation && tick % config.sourceReevalEveryN == 0
        then SourcesDone(was.sources, now.sources, env.views, env.flakes.hash, was.sources.Keys)
        else now.sources == was.sources)
  }

  /** The job has the groups it began with at the start of each of the first `k` ticks, and no
      drift pass in them gives it others. */
  ghost predicate GroupsHeld(config: Config, tick: nat, shots: seq<Shot>, envs: seq<Env>, k: nat, id: string)
    requires config.Valid() && k <= |envs| && k <= |shots|
  {
    forall i :: 0 <= i < k ==>
      && id in shots[i].jobs && id in shots[0].jobs && shots[i].jobs[id].groups == shots[0].jobs[id].groups
      && (shots[i].jobs[id].status != JobDead ==> GroupsKept(config, tick + i + 1, shots[i].jobs[id], envs[i].flakes))
  }

  /** It is not dead at the start of any of them. */
  ghost predicate LiveHeld(shots: seq<Shot>, k: nat, id: string)
    requires k <= |shots|
  {
    forall i :: 0 <= i < k ==> id in LiveIds(shots[i].jobs)
  }

  ghost predicate CalmThroughout(config: Config, tick: nat, shots: seq<Shot>, envs: seq<Env>, k: nat, id: string)
    requires config.Valid() && k <= |envs| && k <= |shots|
  {
    forall i :: 0 <= i < k ==> Calm(config, tick + i + 1, shots[i].jobs, shots[i].sources, envs[i], id)
  }

  /** A job that nothing writes in any tick keeps its groups, and its whole record. */
  lemma {:induction false} CalmHolds(config: Config, tick: nat, shots: seq<Shot>, envs: seq<Env>, k: nat, id: string)
    requires config.Valid() && k <= |envs| && k < |shots| && id in shots[0].jobs
    requires forall i :: 0 <= i < k ==> TickLeaves(config, tick + i + 1, shots[i], envs[i], shots[i + 1])
    requires CalmThroughout(config, tick, shots, envs, k, id)
    ensures id in shots[k].jobs && shots[k].jobs[id] == shots[0].jobs[id]
    ensures GroupsHeld(config, tick, shots, envs, k, id)
    ensures shots[0].jobs[id].status != JobDead ==> LiveHeld(shots, k, id)
    decreases k
  {
    hide Calm, TickLeaves;
    if k > 0 {
      CalmHolds(config, tick, shots, envs, k - 1, id);
      assert TickLeaves(config, tick + k, shots[k - 1], envs[k - 1], shots[k]);
      assert Calm(config, tick + k, shots[k - 1].jobs, shots[k - 1].sources, envs[k - 1], id);
      CalmLeaves(config, tick + k, shots[k - 1], envs[k - 1], shots[k], id);
    }
  }

  lemma CalmLeaves(config: Config, tick: nat, was: Shot, env: Env, now: Shot, id: string)
    requires config.Valid() && TickLeaves(config, tick, was, env, now)
             && Calm(config, tick, was.jobs, was.sources, env, id)
    ensures id in was.jobs && id in now.jobs && now.jobs[id] == was.jobs[id]
    ensures was.jobs[id].status != JobDead ==> GroupsKept(config, tick, was.jobs[id], env.flakes)
  {}

  /** Whichever of these runs for the allocation is seen dead. */
  ghost predicate DeadAll(w: World, id: Uuid, may: set<RunningTask>) {
    forall t :: t in may ==> SeenDead(w, id, t)
  }

  ghost predicate DeadThroughout(envs: seq<Env>, k: nat, id: Uuid, may: set<RunningTask>)
    requires k <= |envs|
  {
    forall i :: 0 <= i < k ==> DeadAll(envs[i].world, id, may)
  }

  /** The drivers of all of them exist. */
  ghost predicate HasAll(w: World, may: set<RunningTask>) {
    forall t :: t in may ==> w.hasDriver(t.driver)
  }

  /** What may ever run for an allocation while its job keeps its groups. */
  function MayRun(jobs: map<string, Job>, a: Allocation, r: Tracks): set<RunningTask> {
    Runnable(GroupsIn(jobs, a.jobId), a, TasksOf(r, a.id))
  }

  /** A running, tracked allocation of a known group of a job, with no exit code recorded. */
  ghost predicate Watched(jobs: map<string, Job>, m: Allocations, r: Tracks, id: Uuid) {
    && id in m && m[id].id == id && m[id].jobId in jobs && GroupOf(jobs, m[id]).Some?
    && m[id].state == Running && id in r && NoExitCodes(m[id], r[id])
  }

  /** Restarts its policy allows. */
  function LimitOf(jobs: map<string, Job>, a: Allocation): nat {
    var group := GroupOf(jobs, a);
    if group.None? || group.value.restartPolicy.mode == Never then 0 else group.value.restartPolicy.attempts
  }

  /** Terminal, or dropped by the executor; terminal when the drivers of whatever may run for
      it exist at every tick. */
  ghost predicate Ended(envs: seq<Env>, k: nat, m: Allocations, r: Tracks, id: Uuid, may: set<RunningTask>)
    requires k <= |envs|
  {
    && ((id in m && m[id].IsTerminal()) || id !in r)
    && ((forall i :: 0 <= i < k ==> HasAll(envs[i].world, may)) ==> id in m && m[id].IsTerminal())
  }

  /** After `k` ticks: ended, or running, of what may run for it, with every restartable task
      restarted `k` times. */
  ghost predicate Wearing(jobs: map<string, Job>, a: Allocation, now: Allocations, r: Tracks, envs: seq<Env>, k: nat,
                          may: set<RunningTask>)
    requires k <= |envs|
  {
    && a.id in now && SameIdentity(a, now[a.id])
    && (Ended(envs, k, now, r, a.id, may)
        || (&& a.id in r && now[a.id].state == Running && NoExitCodes(now[a.id], r[a.id])
            && Worn(GroupsIn(jobs, a.jobId), now[a.id], r[a.id], k) && k <= LimitOf(jobs, a)
            && RunsWithin(r[a.id], may)))
  }

  lemma StartsWearing(jobs: map<string, Job>, m: Allocations, r: Tracks, envs: seq<Env>, id: Uuid)
    requires Watched(jobs, m, r, id)
    ensures Wearing(jobs, m[id], m, r, envs, 0, MayRun(jobs, m[id], r))
  {
    NeverWorn(GroupsIn(jobs, m[id].jobId), m[id], r[id]);
    RunnableCloses(GroupsIn(jobs, m[id].jobId), m[id], r[id]);
  }

  lemma WornOut(jobs: map<string, Job>, a: Allocation, now: Allocations, r: Tracks, envs: seq<Env>, k: nat,
                may: set<RunningTask>)
    requires k <= |envs| && Wearing(jobs, a, now, r, envs, k, may) && k > LimitOf(jobs, a)
    ensures Ended(envs, k, now, r, a.id, may)
  {}

  /** One more tick in which the job, not dead, has the same groups. */
  lemma WearingStep(jobs: map<string, Job>, job: Job, a: Allocation, m1: Allocations, r1: Tracks, m2: Allocations,
                    r2: Tracks, envs: seq<Env>, k: nat, may: set<RunningTask>)
    requires k < |envs| && a.jobId == job.id && job.groups == GroupsIn(jobs, a.jobId)
    requires GroupOf(jobs, a).Some? && DeadAll(envs[k].world, a.id, may) && RestartsWithin(job.groups, a, may)
    requires Wearing(jobs, a, m1, r1, envs, k, may) && Steady(envs[k].world, job, m1, r1, m2, r2, true)
    ensures Wearing(jobs, a, m2, r2, envs, k + 1, may)
  {
    hide NoExitCodes, Worn, HealthOf, DeadAll, HasAll, DriversOf, RunsWithin, RestartsWithin, Bounded;
    var w, id := envs[k].world, a.id;
    var b, c := m1[id], m2[id];
    assert SteadyAt(w, job.groups, b, id, r1, c, r2, true);
    assert Fate(w, job.groups, b, r1, c, r2);
    if Ended(envs, k, m1, r1, id, may) {
      assert Ended(envs, k + 1, m2, r2, id, may);
    } else {
      WithinMay(w, b, r1[id], may);
      if !Ended(envs, k + 1, m2, r2, id, may) {
        var p := FindGroup(job.groups, b.groupName).value.restartPolicy;
        assert (c, r2[id]) == HealthOf(w, job.groups, b, p, r1[id]);
        OnePassWears(w, job.groups, b, p, r1[id], k);
        SameRestarts(job.groups, a, b, may);
        HealthWithin(w, job.groups, b, p, r1[id], may);
      }
    }
  }

  lemma WithinMay(w: World, a: Allocation, tasks: seq<RunningTask>, may: set<RunningTask>)
    requires RunsWithin(tasks, may) && DeadAll(w, a.id, may)
    ensures AllReportedDead(w, a, tasks) && (HasAll(w, may) ==> DriversOf(w, tasks))
  {}

  lemma SameRestarts(groups: seq<TaskGroup>, a: Allocation, b: Allocation, may: set<RunningTask>)
    requires RestartsWithin(groups, a, may) && SameIdentity(a, b)
    ensures RestartsWithin(groups, b, may)
  {}

  /** What a run of `k` ticks has done for one job whose groups are held. */
  ghost predicate BoundsHeld(jobs: map<string, Job>, id: string, m: Allocations, r: Tracks, m': Allocations, r': Tracks)
    requires id in jobs
  {
    Bounded(jobs[id].groups, id, m, r) ==> Bounded(jobs[id].groups, id, m', r')
  }

  /** The outcome for every job whose groups are held, and for every watched allocation of
      one that is not dead meanwhile. */
  ghost predicate RunKeepsBounds(config: Config, tick: nat, shots: seq<Shot>, envs: seq<Env>, k: nat, m: Allocations,
                                 r: Tracks, m': Allocations, r': Tracks)
    requires config.Valid() && k <= |envs| && 0 < |shots| && k <= |shots|
  {
    forall id :: id in shots[0].jobs && GroupsHeld(config, tick, shots, envs, k, id) ==>
        BoundsHeld(shots[0].jobs, id, m, r, m', r')
  }

  ghost predicate Doomed(config: Config, tick: nat, shots: seq<Shot>, envs: seq<Env>, k: nat, m: Allocations, r: Tracks,
                         id: Uuid)
    requires config.Valid() && k <= |envs| && 0 < |shots| && k <= |shots|
  {
    && Watched(shots[0].jobs, m, r, id) && DeadThroughout(envs, k, id, MayRun(shots[0].jobs, m[id], r))
    && GroupsHeld(config, tick, shots, envs, k, m[id].jobId) && LiveHeld(shots, k, m[id].jobId)
  }

  ghost predicate RunWearsOut(config: Config, tick: nat, shots: seq<Shot>, envs: seq<Env>, k: nat, m: Allocations,
                              r: Tracks, m': Allocations, r': Tracks)
    requires config.Valid() && k <= |envs| && 0 < |shots| && k <= |shots|
  {
    forall id :: Doomed(config, tick, shots, envs, k, m, r, id) ==>
        Wearing(shots[0].jobs, m[id], m', r', envs, k, MayRun(shots[0].jobs, m[id], r))
  }

  lemma RunAtStart(config: Config, tick: nat, shot: Shot, envs: seq<Env>, m: Allocations, r: Tracks)
    requires config.Valid()
    ensures RunKeepsBounds(config, tick, [shot], envs, 0, m, r, m, r)
            && RunWearsOut(config, tick, [shot], envs, 0, m, r, m, r)
  {
    hide Wearing, MayRun;
    forall id | Doomed(config, tick, [shot], envs, 0, m, r, id)
      ensures Wearing(shot.jobs, m[id], m, r, envs, 0, MayRun(shot.jobs, m[id], r))
    {
      StartsWearing(shot.jobs, m, r, envs, id);
    }
  }

  lemma BoundsStep(config: Config, tick: nat, shots: seq<Shot>, shot: Shot, envs: seq<Env>, k: nat, m: Allocations,
                   r: Tracks, m1: Allocations, r1: Tracks, m2: Allocations, r2: Tracks)
    requires config.Valid() && k < |envs| && |shots| == k + 1 && Keyed(shots[k].jobs, JobKey)
    requires RunKeepsBounds(config, tick, shots, envs, k, m, r, m1, r1)
    requires AllSteady(config, tick + k + 1, envs[k].world, envs[k].flakes, shots[k].jobs, m1, r1, m2, r2,
                       LiveIds(shots[k].jobs))
    ensures RunKeepsBounds(config, tick, shots + [shot], envs, k + 1, m, r, m2, r2)
  {
    hide Bounded, GroupsKept, SteadyAt;
    var shots' := shots + [shot];
    forall id | id in shots'[0].jobs && GroupsHeld(config, tick, shots', envs, k + 1, id)
      ensures BoundsHeld(shots'[0].jobs, id, m, r, m2, r2)
    {
      HeldBefore(config, tick, shots, shot, envs, k, id);
      var job := shots[k].jobs[id];
      assert JobKey(job) == id;
      assert Steady(envs[k].world, job, m1, r1, m2, r2, id in LiveIds(shots[k].jobs));
    }
  }

  lemma HeldBefore(config: Config, tick: nat, shots: seq<Shot>, shot: Shot, envs: seq<Env>, k: nat, id: string)
    requires config.Valid() && k < |envs| && |shots| == k + 1
             && GroupsHeld(config, tick, shots + [shot], envs, k + 1, id)
    ensures GroupsHeld(config, tick, shots, envs, k, id) && id in shots[k].jobs && id in shots[0].jobs
    ensures shots[k].jobs[id].groups == shots[0].jobs[id].groups
    ensures shots[k].jobs[id].status != JobDead ==> GroupsKept(config, tick + k + 1, shots[k].jobs[id], envs[k].flakes)
  {
    hide GroupsKept;
    var shots' := shots + [shot];
    assert forall i :: 0 <= i <= k ==> shots'[i] == shots[i];
    assert shots'[k].jobs[id].groups == shots'[0].jobs[id].groups;
  }

  lemma WearsOutStep(config: Config, tick: nat, shots: seq<Shot>, shot: Shot, envs: seq<Env>, k: nat, m: Allocations,
                     r: Tracks, m1: Allocations, r1: Tracks, m2: Allocations, r2: Tracks)
    requires config.Valid() && k < |envs| && |shots| == k + 1 && Keyed(shots[k].jobs, JobKey)
    requires RunWearsOut(config, tick, shots, envs, k, m, r, m1, r1)
    requires AllSteady(config, tick + k + 1, envs[k].world, envs[k].flakes, shots[k].jobs, m1, r1, m2, r2,
                       LiveIds(shots[k].jobs))
    ensures RunWearsOut(config, tick, shots + [shot], envs, k + 1, m, r, m2, r2)
  {
    hide Bounded, GroupsKept, Steady, Wearing, DeadAll, NoExitCodes, GroupsHeld, Runnable, RestartsWithin, RunsWithin;
    var shots' := shots + [shot];
    forall id | Doomed(config, tick, shots', envs, k + 1, m, r, id)
      ensures Wearing(shots'[0].jobs, m[id], m2, r2, envs, k + 1, MayRun(shots'[0].jobs, m[id], r))
    {
      var may := MayRun(shots[0].jobs, m[id], r);
      RunnableCloses(GroupsIn(shots[0].jobs, m[id].jobId), m[id], r[id]);
      var jobId := m[id].jobId;
      HeldBefore(config, tick, shots, shot, envs, k, jobId);
      assert forall i :: 0 <= i <= k ==> shots'[i] == shots[i];
      assert jobId in LiveIds(shots'[k].jobs);
      assert Doomed(config, tick, shots, envs, k, m, r, id);
      var job := shots[k].jobs[jobId];
      assert JobKey(job) == jobId;
      assert Steady(envs[k].world, job, m1, r1, m2, r2, true);
      assert DeadAll(envs[k].world, id, may);
      WearingStep(shots[0].jobs, job, m[id], m1, r1, m2, r2, envs, k, may);
    }
  }

  /** No active allocation of a job is newer than the job, unless one was at the start or a
      source has filed another job over it meanwhile. So the next update of the job rolls over
      everything, and the one after it too. */
  ghost predicate VersionsHeld(config: Config, tick: nat, shots: seq<Shot>, envs: seq<Env>, k: nat, m: Allocations,
                               m': Allocations)
    requires config.Valid() && k <= |envs| && k < |shots|
  {
    forall id :: id in shots[0].jobs && NoneNewer(m, id, shots[0].jobs[id].version)
                 && NeverFiled(config, tick, shots, envs, k, id) ==>
      id in shots[k].jobs && NoneNewer(m', id, shots[k].jobs[id].version)
  }

  ghost predicate NeverFiled(config: Config, tick: nat, shots: seq<Shot>, envs: seq<Env>, k: nat, id: string)
    requires config.Valid() && k <= |envs| && k <= |shots|
  {
    forall i :: 0 <= i < k ==> !SourceFiles(config, tick + i + 1, shots[i].sources, envs[i], id)
  }

  lemma VersionsStep(config: Config, tick: nat, shots: seq<Shot>, shot: Shot, envs: seq<Env>, k: nat, m: Allocations,
                     m1: Allocations, m2: Allocations)
    requires config.Valid() && k < |envs| && |shots| == k + 1 && VersionsHeld(config, tick, shots, envs, k, m, m1)
    requires RecordsLeft(config, tick + k + 1, shots[k].jobs, shots[k].sources, envs[k], m1, shot.jobs, m2)
    ensures VersionsHeld(config, tick, shots + [shot], envs, k + 1, m, m2)
  {
    hide NoneNewer, SourceFiles, SourceWrites, RecordAfter;
    var shots' := shots + [shot];
    forall id | id in shots'[0].jobs && NoneNewer(m, id, shots'[0].jobs[id].version)
                && NeverFiled(config, tick, shots', envs, k + 1, id)
      ensures id in shot.jobs && NoneNewer(m2, id, shot.jobs[id].version)
    {
      forall i | 0 <= i <= k ensures !SourceFiles(config, tick + i + 1, shots[i].sources, envs[i], id) {
        assert shots'[i] == shots[i];
      }
      assert NeverFiled(config, tick, shots, envs, k, id);
    }
  }

  class Reconciler {
    const ex: Executor
    const config: Config
    var tickCount: nat

    constructor (ex: Executor, config: Config)
      ensures this.ex == ex && this.config == config && tickCount == 0
    {
      this.ex := ex;
      this.config := config;
      tickCount := 0;
    }

    /** One turn of the main loop. */
    method Tick(env: Env)
      requires ex.store.Valid() && config.Valid()
      modifies this`tickCount, ex.store`jobs, ex.store`sources, ex.store`allocations, ex`running
      ensures ex.store.Valid() && tickCount == old(tickCount) + 1
      ensures Progress(old(ex.store.allocations), ex.store.allocations, LiveIds(old(ex.store.jobs)),
                       ex.store.nodes.Keys)
      ensures TickLeaves(config, tickCount, Shot(old(ex.store.jobs), old(ex.store.sources)), env,
                         Shot(ex.store.jobs, ex.store.sources))
      ensures RecordsLeft(config, tickCount, old(ex.store.jobs), old(ex.store.sources), env, old(ex.store.allocations),
                          ex.store.jobs, ex.store.allocations)
      ensures AllSteady(config, tickCount, env.world, env.flakes, old(ex.store.jobs), old(ex.store.allocations),
                        old(ex.running),
                        ex.store.allocations, ex.running, LiveIds(old(ex.store.jobs)))
      ensures AllArrive(config, tickCount, env.world, env.flakes, old(ex.store.jobs), old(ex.store.allocations),
                        old(ex.running), ex.store.allocations, UsableIds(ex.store.nodes), LiveIds(old(ex.store.jobs)))
      ensures TracksStored(old(ex.store.allocations), old(ex.running)) ==>
                TracksStored(ex.store.allocations, ex.running)
    {
      hide Progress, AllSteady, AllArrive, UsableIds, TracksStored, RecordsSoFar, RecordsLeft, SourcesDone, LiveOf,
           LiveIds, Ahead,
           ListsValues, Keyed, NodeIds, Calm, PassYields;
      tickCount := tickCount + 1;
      var jobs := ex.store.ListJobs();
      var nodes := ex.store.ListNodes();
      var nodeIds := NodeIds(nodes);
      AllNodeIds(ex.store.nodes, nodes);
      ghost var js, m, r, done := ex.store.jobs, ex.store.allocations, ex.running, {};
      NoProgress(m, nodeIds);
      AllSteadyAtStart(config, tickCount, env.world, env.flakes, js, m, r);
      NoneArrive(config, tickCount, env.world, env.flakes, js, m, r, UsableIds(ex.store.nodes));
      NoRecords(config, tickCount, js, env.flakes, m);
      AllAhead(js, jobs);
      for i := 0 to |jobs|
        invariant ex.store.Valid() && ex.store.sources == old(ex.store.sources) && tickCount == old(tickCount) + 1
        invariant Ahead(jobs, ex.store.jobs, done, i) && done == LiveOf(jobs[..i])
        invariant forall j :: 0 <= j < |jobs| ==> jobs[j].id in js && js[jobs[j].id] == jobs[j]
        invariant Progress(m, ex.store.allocations, done, nodeIds)
        invariant RecordsSoFar(config, tickCount, js, env.flakes, m, ex.store.jobs, ex.store.allocations, done)
        invariant AllSteady(config, tickCount, env.world, env.flakes, js, m, r, ex.store.allocations, ex.running, done)
        invariant AllArrive(config, tickCount, env.world, env.flakes, js, m, r, ex.store.allocations,
                            UsableIds(ex.store.nodes), done)
        invariant TracksStored(m, r) ==> TracksStored(ex.store.allocations, ex.running)
      {
        var job := jobs[i];
        AheadStep(jobs, ex.store.jobs, done, i);
        if job.status == JobDead {
          continue;
        }
        Turn(job, nodes, nodeIds, env, m, r, done, js);
        done := done + {job.id};
      }
      assert jobs[..|jobs|] == jobs;
      AllLive(js, jobs);
      if config.sourceReconciliation && tickCount % config.sourceReevalEveryN == 0 {
        ghost var sources := ex.store.sources;
        ghost var listed, states := ReconcileSources(ex.store, env.views, env.flakes.hash);
        RecordsThroughSources(config, tickCount, js, sources, env, m, ex.store.allocations, listed, states);
      } else {
        RecordsAtEnd(config, tickCount, js, ex.store.sources, env, m, ex.store.jobs, ex.store.allocations);
      }
      CalmUnwritten(config, tickCount, js, old(ex.store.sources), env, m, ex.store.jobs, ex.store.allocations);
    }

    /** The loop body for a job that is not dead, within the tick so far. */
    method Turn(job: Job, nodes: seq<Node>, nodeIds: set<string>, env: Env, ghost m: Allocations, ghost r: Tracks,
                ghost done: set<string>, ghost js: map<string, Job>)
      requires ex.store.Valid() && config.Valid()
      requires ListsValues(ex.store.nodes, nodes, NodeKey) && nodeIds == ex.store.nodes.Keys
      requires job.id in ex.store.jobs && ex.store.jobs[job.id] == job && job.id !in done
      requires job.id in js && js[job.id] == job && job.status != JobDead
      requires Keyed(m, AllocationKey) && Keyed(js, JobKey) && Progress(m, ex.store.allocations, done, nodeIds)
      requires RecordsSoFar(config, tickCount, js, env.flakes, m, ex.store.jobs, ex.store.allocations, done)
      requires AllSteady(config, tickCount, env.world, env.flakes, js, m, r, ex.store.allocations, ex.running, done)
      requires AllArrive(config, tickCount, env.world, env.flakes, js, m, r, ex.store.allocations,
                         UsableIds(ex.store.nodes), done)
      requires TracksStored(m, r) ==> TracksStored(ex.store.allocations, ex.running)
      modifies ex.store`jobs, ex.store`allocations, ex`running
      ensures ex.store.Valid() && OnlyJob(old(ex.store.jobs), ex.store.jobs, job.id)
      ensures Progress(m, ex.store.allocations, done + {job.id}, nodeIds)
      ensures RecordsSoFar(config, tickCount, js, env.flakes, m, ex.store.jobs, ex.store.allocations, done + {job.id})
      ensures AllSteady(config, tickCount, env.world, env.flakes, js, m, r, ex.store.allocations, ex.running,
                        done + {job.id})
      ensures AllArrive(config, tickCount, env.world, env.flakes, js, m, r, ex.store.allocations,
                        UsableIds(ex.store.nodes), done + {job.id})
      ensures TracksStored(m, r) ==> TracksStored(ex.store.allocations, ex.running)
    {
      hide Progress, AllSteady, AllArrive, UsableIds, Arrives, TracksStored, RecordsSoFar, RecordAfter, NoneNewer,
           JobStep, OwnStep, Aside,
           GroupsKept, Drifts, ListsValues, Keyed;
      ghost var m1, r1, now := ex.store.allocations, ex.running, ex.store.jobs;
      ReconcileJob(ex, config, tickCount, job, nodes, nodeIds, env.world, env.flakes);
      ProgressKeepsJobs(m, m1, done, nodeIds);
      ProgressStep(m, m1, ex.store.allocations, done, job.id, nodeIds);
      RecordsStep(config, tickCount, js, env.flakes, m, now, m1, ex.store.jobs, ex.store.allocations, done, job,
                  nodeIds);
      if TracksStored(m1, r1) {
        TracksStoredAside(env.world, m1, r1, ex.store.allocations, ex.running, job.id, nodeIds);
      }
      AllArriveStep(config, tickCount, env.world, env.flakes, js, m, r, m1, r1, ex.store.allocations,
                    UsableIds(ex.store.nodes), done, job, nodeIds);
      AllSteadyStep(config, tickCount, env.world, env.flakes, js, m, r, m1, r1, ex.store.allocations, ex.running, done,
                    job, nodeIds);
    }

    /** The main loop, for as many ticks as there are environments. Over every run terminal
        allocations stay terminal. For each job that keeps its groups, no restart count passes
        its policy's limit; and if it is not dead either, an allocation of it whose tasks are
        dead at every tick has ended, or is no longer tracked, once there are more ticks than
        restarts to spend; it has ended if the drivers of its own tasks exist meanwhile. */
    method Run(envs: seq<Env>) returns (ghost shots: seq<Shot>)
      requires ex.store.Valid() && config.Valid()
      modifies this`tickCount, ex.store`jobs, ex.store`sources, ex.store`allocations, ex`running
      ensures ex.store.Valid() && tickCount == old(tickCount) + |envs|
      ensures OnlyMoves(old(ex.store.allocations), ex.store.allocations)
      ensures TracksStored(old(ex.store.allocations), old(ex.running)) ==>
                TracksStored(ex.store.allocations, ex.running)
      ensures |shots| == |envs| + 1 && shots[0] == Shot(old(ex.store.jobs), old(ex.store.sources))
      ensures VersionsHeld(config, old(tickCount), shots, envs, |envs|, old(ex.store.allocations), ex.store.allocations)
      ensures shots[|envs|] == Shot(ex.store.jobs, ex.store.sources)
      ensures forall i :: 0 <= i < |envs| ==>
                TickLeaves(config, old(tickCount) + i + 1, shots[i], envs[i], shots[i + 1])
      ensures RunKeepsBounds(config, old(tickCount), shots, envs, |envs|, old(ex.store.allocations), old(ex.running),
                             ex.store.allocations, ex.running)
      ensures forall id ::
                Doomed(config, old(tickCount), shots, envs, |envs|, old(ex.store.allocations), old(ex.running), id)
                           && |envs| > LimitOf(old(ex.store.jobs), old(ex.store.allocations)[id]) ==>
                Ended(envs, |envs|, ex.store.allocations, ex.running, id,
                      MayRun(old(ex.store.jobs), old(ex.store.allocations)[id], old(ex.running)))
    {
      hide Progress, AllSteady, OnlyMoves, RunKeepsBounds, Keyed, LiveIds, TickLeaves, Doomed, Wearing, RunWearsOut,
           MayRun, AllArrive, TracksStored, NoneNewer, RecordsLeft;
      ghost var tick, m, r := tickCount, ex.store.allocations, ex.running;
      shots := [Shot(ex.store.jobs, ex.store.sources)];
      MovesReflexive(m);
      RunAtStart(config, tick, shots[0], envs, m, r);
      for k := 0 to |envs|
        invariant ex.store.Valid() && tickCount == tick + k && |shots| == k + 1
        invariant shots[0] == Shot(old(ex.store.jobs), old(ex.store.sources))
                  && shots[k] == Shot(ex.store.jobs, ex.store.sources)
        invariant forall i :: 0 <= i < k ==> TickLeaves(config, tick + i + 1, shots[i], envs[i], shots[i + 1])
        invariant OnlyMoves(m, ex.store.allocations)
        invariant VersionsHeld(config, tick, shots, envs, k, m, ex.store.allocations)
        invariant TracksStored(m, r) ==> TracksStored(ex.store.allocations, ex.running)
        invariant RunKeepsBounds(config, tick, shots, envs, k, m, r, ex.store.allocations, ex.running)
        invariant RunWearsOut(config, tick, shots, envs, k, m, r, ex.store.allocations, ex.running)
      {
        ghost var m1, r1, live := ex.store.allocations, ex.running, LiveIds(ex.store.jobs);
        Tick(envs[k]);
        ghost var shot := Shot(ex.store.jobs, ex.store.sources);
        MovesThenProgress(m, m1, ex.store.allocations, live, ex.store.nodes.Keys);
        VersionsStep(config, tick, shots, shot, envs, k, m, m1, ex.store.allocations);
        hide VersionsHeld;
        BoundsStep(config, tick, shots, shot, envs, k, m, r, m1, r1, ex.store.allocations, ex.running);
        WearsOutStep(config, tick, shots, shot, envs, k, m, r, m1, r1, ex.store.allocations, ex.running);
        shots := shots + [shot];
      }
      DoomedAreKnown(config, tick, shots, envs, m, r);
      forall id | Doomed(config, tick, shots, envs, |envs|, m, r, id) && |envs| > LimitOf(shots[0].jobs, m[id])
        ensures Ended(envs, |envs|, ex.store.allocations, ex.running, id, MayRun(shots[0].jobs, m[id], r))
      {
        AllWornOut(config, tick, shots, envs, m, r, ex.store.allocations, ex.running, id);
      }
    }
  }

  lemma DoomedAreKnown(config: Config, tick: nat, shots: seq<Shot>, envs: seq<Env>, m: Allocations, r: Tracks)
    requires config.Valid() && |shots| == |envs| + 1
    ensures forall id :: Doomed(config, tick, shots, envs, |envs|, m, r, id) ==> id in m
  {}

  lemma AllWornOut(config: Config, tick: nat, shots: seq<Shot>, envs: seq<Env>, m: Allocations, r: Tracks,
                   m': Allocations, r': Tracks, id: Uuid)
    requires config.Valid() && |shots| == |envs| + 1 && RunWearsOut(config, tick, shots, envs, |envs|, m, r, m', r')
    requires Doomed(config, tick, shots, envs, |envs|, m, r, id) && |envs| > LimitOf(shots[0].jobs, m[id])
    ensures Ended(envs, |envs|, m', r', id, MayRun(shots[0].jobs, m[id], r))
  {
    hide MayRun;
    WornOut(shots[0].jobs, m[id], m', r', envs, |envs|, MayRun(shots[0].jobs, m[id], r));
  }

  lemma ProgressKeepsJobs(m: Allocations, m': Allocations, done: set<string>, nodeIds: set<string>)
    requires Progress(m, m', done, nodeIds)
    ensures forall id :: id in m ==> id in m' && m'[id].jobId == m[id].jobId
  {}

  lemma AllNodeIds(m: map<string, Node>, nodes: seq<Node>)
    requires Keyed(m, NodeKey) && ListsValues(m, nodes, NodeKey)
    ensures NodeIds(nodes) == m.Keys
  {
    forall id | id in m ensures id in NodeIds(nodes) {
      assert m[id] in nodes && NodeKey(m[id]) == id;
    }
    forall id | id in NodeIds(nodes) ensures id in m {
      var i :| 0 <= i < |nodes| && nodes[i].id == id;
      assert NodeKey(nodes[i]) in m;
    }
  }

  /** The jobs of the listing that are still to come are in the store as listed. */
  ghost predicate Ahead(listed: seq<Job>, jobs: map<string, Job>, done: set<string>, i: nat) {
    && (forall j :: i <= j < |listed| ==>
        listed[j].id !in done && listed[j].id in jobs && jobs[listed[j].id] == listed[j])
    && (forall j, k :: i <= j < k < |listed| ==> listed[j].id != listed[k].id)
  }

  lemma AllAhead(js: map<string, Job>, listed: seq<Job>)
    requires Keyed(js, JobKey) && ListsValues(js, listed, JobKey)
    ensures Ahead(listed, js, {}, 0) && LiveOf(listed[..0]) == {}
  {
    forall j, k | 0 <= j < k < |listed| ensures listed[j].id != listed[k].id {
      assert JobKey(listed[j]) != JobKey(listed[k]);
    }
    forall j | 0 <= j < |listed| ensures listed[j].id in js && js[listed[j].id] == listed[j] {
      assert JobKey(listed[j]) in js;
    }
  }

  lemma AheadStep(listed: seq<Job>, jobs: map<string, Job>, done: set<string>, i: nat)
    requires i < |listed| && Ahead(listed, jobs, done, i) && done == LiveOf(listed[..i])
    ensures listed[i].id in jobs && jobs[listed[i].id] == listed[i] && listed[i].id !in done
    ensures Ahead(listed, jobs, done, i + 1)
    ensures LiveOf(listed[..i + 1]) == if listed[i].status == JobDead then done else done + {listed[i].id}
    ensures forall jobs' :: OnlyJob(jobs, jobs', listed[i].id) ==> Ahead(listed, jobs', done + {listed[i].id}, i + 1)
  {
    assert listed[..i + 1] == listed[..i] + [listed[i]];
  }

  function LiveOf(jobs: seq<Job>): set<string> {
    set j | j in jobs && j.status != JobDead :: j.id
  }

  lemma NoProgress(m: Allocations, nodeIds: set<string>)
    ensures Progress(m, m, {}, nodeIds)
  {}

  lemma AllLive(js: map<string, Job>, jobs: seq<Job>)
    requires Keyed(js, JobKey) && ListsValues(js, jobs, JobKey)
    ensures LiveOf(jobs) == LiveIds(js)
  {
    forall id | id in LiveIds(js) ensures id in LiveOf(jobs) {
      assert js[id] in jobs && JobKey(js[id]) == id;
    }
    forall id | id in LiveOf(jobs) ensures id in LiveIds(js) {
      var i :| 0 <= i < |jobs| && jobs[i].status != JobDead && jobs[i].id == id;
      assert JobKey(jobs[i]) in js && js[JobKey(jobs[i])] == jobs[i];
    }
  }
}

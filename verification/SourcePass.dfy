/** The source pass (src/domain/reconciler.rs): the jobs of a source follow what its
    flake evaluates to. */
module SourcePass {
  import opened Common
  import opened Domain
  import opened StateStore
  import opened DriftPass

  datatype Outcome<T> = Ok(value: T) | Err(error: string)

  /** A flake's metadata; a path flake has no revision. */
  datatype Metadata = Metadata(rev: Option<string>, lastModified: nat)

  type Specs = map<string, JobSpec>

  /** What one run sees of a source's flake: why it is not valid, if it is not, its
      metadata and its jobs, and the time. */
  datatype View = View(invalid: Option<string>, metadata: Outcome<Metadata>, jobs: Outcome<Specs>, now: Time)

  function Digits(n: nat): string {
    if n < 10 then ["0123456789"[n]] else Digits(n / 10) + ["0123456789"[n % 10]]
  }

  function CurrentRev(m: Metadata): string {
    if m.rev.Some? then m.rev.value else Digits(m.lastModified)
  }

  /** The error of a run; the flake is validated only before the first success, and its
      jobs are evaluated only when the revision has changed. */
  function Failure(s: Source, v: View): Option<string> {
    if s.lastRev.None? && v.invalid.Some? then v.invalid
    else if v.metadata.Err? then Some(v.metadata.error)
    else if s.lastRev == Some(CurrentRev(v.metadata.value)) then None
    else if v.jobs.Err? then Some(v.jobs.error)
    else None
  }

  /** The run sees another revision and everything succeeds. */
  predicate Changed(s: Source, v: View) {
    Failure(s, v).None? && v.metadata.Ok? && s.lastRev != Some(CurrentRev(v.metadata.value)) && v.jobs.Ok?
  }

  function Hashes(specs: Specs, hash: JobSpec -> string): map<string, string> {
    map n | n in specs :: hash(specs[n])
  }

  function IntoJob(spec: JobSpec, hash: string, now: Time): Job {
    Job(spec.id, 1, spec.jobType, JobPending, now, spec.groups, spec.constraints, spec.meta, Some(hash))
  }

  function Respecified(j: Job, spec: JobSpec, hash: string): Job {
    Updated(j, spec, hash, j.version + 1)
  }

  function Died(j: Job): Job { j.(status := JobDead) }

  /** One job of the flake. A new one is filed under the spec's id, a changed one is looked
      up by its name in the flake. */
  function Upsert(jobs: map<string, Job>, managed: map<string, string>, name: string, spec: JobSpec, hash: string,
                  now: Time): map<string, Job>
  {
    if name !in managed then jobs[spec.id := IntoJob(spec, hash, now)]
    else if managed[name] != hash && name in jobs then jobs[name := Respecified(jobs[name], spec, hash)]
    else jobs
  }

  function UpsertAll(jobs: map<string, Job>, managed: map<string, string>, specs: Specs, hash: JobSpec -> string,
                     now: Time, order: seq<string>): map<string, Job>
    requires forall n :: n in order ==> n in specs
  {
    if order == [] then jobs
    else
      var k := |order| - 1;
      Upsert(UpsertAll(jobs, managed, specs, hash, now, order[..k]), managed, order[k], specs[order[k]],
             hash(specs[order[k]]), now)
  }

  function Bury(jobs: map<string, Job>, names: set<string>): map<string, Job> {
    map n | n in jobs :: if n in names then Died(jobs[n]) else jobs[n]
  }

  /** Each name of the map once. */
  ghost predicate Enumerates<V>(order: seq<string>, m: map<string, V>) {
    && (forall n :: n in order <==> n in m)
    && (forall i, j :: 0 <= i < j < |order| ==> order[i] != order[j])
  }

  /** What a run leaves in the source's own record. */
  function Recorded(stored: Source, listed: Source, v: View, hash: JobSpec -> string): Source {
    if Failure(listed, v).Some? then stored.(status := SourceFailed, lastError := Failure(listed, v))
    else if Changed(listed, v) then
      stored.(lastRev := Some(CurrentRev(v.metadata.value)), lastReconciledAt := Some(v.now),
              managedJobs := Hashes(v.jobs.value, hash), status := SourceReady, lastError := None)
    else stored
  }

  ghost predicate FiledById(jobs: map<string, Job>) {
    Keyed(jobs, JobKey)
  }

  /** The jobs after a run that sees a change and takes the flake's jobs in this order. */
  function RunIn(jobs: map<string, Job>, s: Source, v: View, hash: JobSpec -> string,
                 order: seq<string>): map<string, Job>
    requires Changed(s, v) && Enumerates(order, v.jobs.value)
  {
    Bury(UpsertAll(jobs, s.managedJobs, v.jobs.value, hash, v.now, order), s.managedJobs.Keys - v.jobs.value.Keys)
  }

  /** What one run may leave of the jobs it finds: some order of the flake's jobs. */
  ghost predicate RunYields(jobs: map<string, Job>, s: Source, v: View, hash: JobSpec -> string,
                            after: map<string, Job>)
  {
    if Changed(s, v) then
      exists order :: Enumerates(order, v.jobs.value) && after == RunIn(jobs, s, v, hash, order)
    else after == jobs
  }

  /** `reconcile_single_source`. */
  method ReconcileSource(store: Store, source: Source, v: View, hash: JobSpec -> string) returns (error: Option<string>)
    requires FiledById(store.jobs)
    modifies store`jobs, store`sources
    ensures FiledById(store.jobs)
    ensures error == Failure(source, v)
    ensures RunYields(old(store.jobs), source, v, hash, store.jobs)
    ensures store.sources ==
              if Changed(source, v) && source.id in old(store.sources)
              then old(store.sources)[source.id := Recorded(old(store.sources)[source.id], source, v, hash)]
              else old(store.sources)
  {
    if source.lastRev.None? {
      if v.invalid.Some? {
        return Some(v.invalid.value);
      }
    }
    if v.metadata.Err? {
      return Some(v.metadata.error);
    }
    var rev := CurrentRev(v.metadata.value);
    if source.lastRev == Some(rev) {
      return None;
    }
    if v.jobs.Err? {
      return Some(v.jobs.error);
    }
    hide FiledById, UpsertAll;
    var specs := v.jobs.value;
    var managed, order := ApplySpecs(store, source, specs, hash, v.now);
    managed := BuryRemoved(store, source, specs, managed);
    assert store.jobs == RunIn(old(store.jobs), source, v, hash, order);
    assert managed == Hashes(specs, hash);
    var _ := store.UpdateSource(source.id, (s: Source) =>
      s.(lastRev := Some(rev), lastReconciledAt := Some(v.now), managedJobs := managed, status := SourceReady,
         lastError := None));
    error := None;
  }

  /** The loop over the flake's jobs, as far as the names that are left: the managed map is
      the old one overridden by the new hashes. */
  ghost predicate Applied(store: map<string, Job>, was: map<string, Job>, source: Source, specs: Specs,
                          hash: JobSpec -> string, now: Time, managed: map<string, string>, order: seq<string>,
                          left: set<string>)
  {
    && left <= specs.Keys
    && (forall n :: n in order <==> n in specs.Keys - left)
    && (forall i, j :: 0 <= i < j < |order| ==> order[i] != order[j])
    && store == UpsertAll(was, source.managedJobs, specs, hash, now, order)
    && managed == source.managedJobs + HashesOf(specs, hash, specs.Keys - left)
  }

  /** Creates or updates the jobs of the flake. */
  method ApplySpecs(store: Store, source: Source, specs: Specs, hash: JobSpec -> string, now: Time)
    returns (managed: map<string, string>, ghost order: seq<string>)
    requires FiledById(store.jobs)
    modifies store`jobs
    ensures FiledById(store.jobs)
    ensures Enumerates(order, specs)
    ensures store.jobs == UpsertAll(old(store.jobs), source.managedJobs, specs, hash, now, order)
    ensures managed == source.managedJobs + Hashes(specs, hash)
  {
    hide FiledById, Upsert, UpsertAll, Applied;
    managed, order := source.managedJobs, [];
    var left := specs.Keys;
    NothingApplied(store.jobs, source, specs, hash, now);
    while left != {}
      invariant left <= specs.Keys && FiledById(store.jobs)
      invariant Applied(store.jobs, old(store.jobs), source, specs, hash, now, managed, order, left)
      decreases left
    {
      var name :| name in left;
      ghost var before, managed0 := store.jobs, managed;
      managed := ApplyOne(store, source, name, specs[name], hash(specs[name]), now, managed);
      AppliedStep(before, old(store.jobs), source, specs, hash, now, managed0, order, left, name);
      left := left - {name};
      order := order + [name];
    }
    AllApplied(store.jobs, old(store.jobs), source, specs, hash, now, managed, order);
  }

  lemma NothingApplied(jobs: map<string, Job>, source: Source, specs: Specs, hash: JobSpec -> string, now: Time)
    ensures Applied(jobs, jobs, source, specs, hash, now, source.managedJobs, [], specs.Keys)
  {}

  lemma AllApplied(jobs: map<string, Job>, was: map<string, Job>, source: Source, specs: Specs, hash: JobSpec -> string,
                   now: Time, managed: map<string, string>, order: seq<string>)
    requires Applied(jobs, was, source, specs, hash, now, managed, order, {})
    ensures Enumerates(order, specs)
    ensures jobs == UpsertAll(was, source.managedJobs, specs, hash, now, order)
    ensures managed == source.managedJobs + Hashes(specs, hash)
  {
    hide UpsertAll;
    assert specs.Keys - {} == specs.Keys;
  }

  lemma AppliedStep(jobs: map<string, Job>, was: map<string, Job>, source: Source, specs: Specs,
                    hash: JobSpec -> string, now: Time, managed: map<string, string>, order: seq<string>,
                    left: set<string>, name: string)
    requires name in left && Applied(jobs, was, source, specs, hash, now, managed, order, left)
    ensures Applied(Upsert(jobs, source.managedJobs, name, specs[name], hash(specs[name]), now), was, source, specs,
                    hash, now,
                    Managed(source.managedJobs, managed, name, hash(specs[name])), order + [name], left - {name})
  {
    hide Upsert, HashesOf;
    OrderStep(order, specs.Keys - left, name);
    ManagedStep(source.managedJobs, specs, hash, managed, name, left);
    assert (order + [name])[..|order|] == order;
    assert specs.Keys - (left - {name}) == specs.Keys - left + {name};
  }

  lemma OrderStep(order: seq<string>, done: set<string>, name: string)
    requires name !in done && forall n :: n in order <==> n in done
    requires forall i, j :: 0 <= i < j < |order| ==> order[i] != order[j]
    ensures forall n :: n in order + [name] <==> n in done + {name}
    ensures forall i, j :: 0 <= i < j < |order + [name]| ==> (order + [name])[i] != (order + [name])[j]
  {
    assert forall i :: 0 <= i < |order| ==> order[i] in order;
  }

  function HashesOf(specs: Specs, hash: JobSpec -> string, names: set<string>): map<string, string>
    requires names <= specs.Keys
  {
    map n | n in names :: hash(specs[n])
  }

  /** A job whose hash is the one on record leaves the record alone. */
  function Managed(was: map<string, string>, managed: map<string, string>, name: string, h: string): map<string, string>
  {
    if name in was && was[name] == h then managed else managed[name := h]
  }

  lemma ManagedStep(was: map<string, string>, specs: Specs, hash: JobSpec -> string, managed: map<string, string>,
                    name: string, left: set<string>)
    requires left <= specs.Keys && name in left && managed == was + HashesOf(specs, hash, specs.Keys - left)
    ensures Managed(was, managed, name, hash(specs[name])) == was + HashesOf(specs, hash, specs.Keys - (left - {name}))
  {}

  /** One turn of the loop over the flake's jobs. */
  method ApplyOne(store: Store, source: Source, name: string, spec: JobSpec, h: string, now: Time,
                  managed: map<string, string>)
    returns (managed': map<string, string>)
    requires FiledById(store.jobs)
    modifies store`jobs
    ensures FiledById(store.jobs)
    ensures store.jobs == Upsert(old(store.jobs), source.managedJobs, name, spec, h, now)
    ensures managed' == Managed(source.managedJobs, managed, name, h)
  {
    managed' := managed;
    if name !in source.managedJobs {
      store.PutJob(IntoJob(spec, h, now));
      managed' := managed[name := h];
    } else if source.managedJobs[name] != h {
      var _ := store.UpdateJob(name, j => Respecified(j, spec, h));
      managed' := managed[name := h];
    }
  }

  /** Marks the jobs that the flake no longer has as dead, and gives them up. */
  method BuryRemoved(store: Store, source: Source, specs: Specs, managed: map<string, string>)
    returns (kept: map<string, string>)
    requires FiledById(store.jobs)
    modifies store`jobs
    ensures FiledById(store.jobs)
    ensures store.jobs == Bury(old(store.jobs), source.managedJobs.Keys - specs.Keys)
    ensures kept == managed - (source.managedJobs.Keys - specs.Keys)
  {
    kept := managed;
    var removed := source.managedJobs.Keys - specs.Keys;
    var left := removed;
    while left != {}
      invariant left <= removed && FiledById(store.jobs)
      invariant store.jobs == Bury(old(store.jobs), removed - left)
      invariant kept == managed - (removed - left)
      decreases left
    {
      var name :| name in left;
      left := left - {name};
      var _ := store.UpdateJob(name, j => Died(j));
      kept := kept - {name};
    }
  }

  // ---- what a run does to one record ----

  /** The run files the spec of a new flake entry under this id. */
  ghost predicate Creates(s: Source, v: View, id: string) {
    Changed(s, v) && exists n :: n in v.jobs.value && n !in s.managedJobs && v.jobs.value[n].id == id
  }

  /** The run updates the record, or buries it, under this name. */
  predicate Updates(s: Source, v: View, hash: JobSpec -> string, name: string) {
    && Changed(s, v) && name in s.managedJobs
    && (name in v.jobs.value ==> s.managedJobs[name] != hash(v.jobs.value[name]))
  }

  ghost predicate SameEntry(a: map<string, Job>, b: map<string, Job>, name: string) {
    (name in a <==> name in b) && (name in a ==> a[name] == b[name])
  }

  /** What `jobs[k]` becomes when no entry is filed under `k`. */
  function Kept(managed: map<string, string>, specs: Specs, hash: JobSpec -> string, k: string, taken: bool,
                j: Job): Job
    requires taken ==> k in specs
  {
    if taken && k in managed && managed[k] != hash(specs[k]) then Respecified(j, specs[k], hash(specs[k])) else j
  }

  /** `n` is a new entry of the flake whose spec has the id `k`. */
  predicate Files(managed: map<string, string>, specs: Specs, n: string, k: string) {
    n in specs && n !in managed && specs[n].id == k
  }

  /** A record made from entry `n`, perhaps updated since under its own name. */
  ghost predicate MadeFrom(specs: Specs, hash: JobSpec -> string, now: Time, n: string, managed: map<string, string>,
                           k: string, j: Job)
    requires n in specs
  {
    && j.status == JobPending && j.jobType == specs[n].jobType
    && (k !in managed ==> j == IntoJob(specs[n], hash(specs[n]), now))
  }

  ghost predicate NoneFiled(managed: map<string, string>, specs: Specs, order: seq<string>, k: string) {
    forall n :: n in order ==> !Files(managed, specs, n, k)
  }

  /** The record was made from an entry of the order. */
  ghost predicate Filed(specs: Specs, hash: JobSpec -> string, now: Time, managed: map<string, string>,
                        order: seq<string>, k: string, after: map<string, Job>)
  {
    && k in after
    && exists n :: (n in order && Files(managed, specs, n, k) && MadeFrom(specs, hash, now, n, managed, k, after[k]))
  }

  /** One record after the creations and updates: without an entry filed under its key it is
      kept or updated; with one it is made from such an entry. */
  ghost predicate EntryAt(jobs: map<string, Job>, after: map<string, Job>, managed: map<string, string>, specs: Specs,
                          hash: JobSpec -> string, now: Time, order: seq<string>, k: string)
    requires forall n :: n in order ==> n in specs
  {
    if NoneFiled(managed, specs, order, k) then
      (k in after <==> k in jobs) && (k in after ==> after[k] == Kept(managed, specs, hash, k, k in order, jobs[k]))
    else Filed(specs, hash, now, managed, order, k, after)
  }

  lemma {:induction false} UpsertAllAt(jobs: map<string, Job>, managed: map<string, string>, specs: Specs,
                                       hash: JobSpec -> string, now: Time, order: seq<string>, k: string)
    requires forall n :: n in order ==> n in specs
    requires forall i, j :: 0 <= i < j < |order| ==> order[i] != order[j]
    ensures EntryAt(jobs, UpsertAll(jobs, managed, specs, hash, now, order), managed, specs, hash, now, order, k)
    decreases order
  {
    if order != [] {
      hide Upsert, Files, Kept, MadeFrom;
      var i := |order| - 1;
      var init, last := order[..i], order[i];
      UpsertAllAt(jobs, managed, specs, hash, now, init, k);
      assert order == init + [last] && last in order && last !in init;
      hide EntryAt;
      EntryStep(jobs, UpsertAll(jobs, managed, specs, hash, now, init), managed, specs, hash, now, init, last, k);
    }
  }

  lemma EntryStep(jobs: map<string, Job>, before: map<string, Job>, managed: map<string, string>, specs: Specs,
                  hash: JobSpec -> string, now: Time, init: seq<string>, last: string, k: string)
    requires forall n :: n in init ==> n in specs
    requires last in specs && last !in init && EntryAt(jobs, before, managed, specs, hash, now, init, k)
    ensures EntryAt(jobs, Upsert(before, managed, last, specs[last], hash(specs[last]), now), managed, specs, hash, now,
                    init + [last], k)
  {
    hide Respecified, IntoJob, MadeFrom;
    var order := init + [last];
    assert last in order && forall n :: n in order <==> n in init || n == last;
    var after := Upsert(before, managed, last, specs[last], hash(specs[last]), now);
    if Files(managed, specs, last, k) {
      MadeNow(specs, hash, now, last, managed, k);
      assert Filed(specs, hash, now, managed, order, k, after);
    } else if !NoneFiled(managed, specs, init, k) {
      var n :| n in init && Files(managed, specs, n, k) && MadeFrom(specs, hash, now, n, managed, k, before[k]);
      MadeStays(specs, hash, now, n, managed, k, before[k], last);
      assert n in order && MadeFrom(specs, hash, now, n, managed, k, after[k]);
      assert Filed(specs, hash, now, managed, order, k, after);
    }
  }

  lemma MadeNow(specs: Specs, hash: JobSpec -> string, now: Time, n: string, managed: map<string, string>, k: string)
    requires n in specs
    ensures MadeFrom(specs, hash, now, n, managed, k, IntoJob(specs[n], hash(specs[n]), now))
  {}

  lemma MadeStays(specs: Specs, hash: JobSpec -> string, now: Time, n: string, managed: map<string, string>, k: string,
                  j: Job, last: string)
    requires n in specs && last in specs && MadeFrom(specs, hash, now, n, managed, k, j)
    ensures k in managed ==> MadeFrom(specs, hash, now, n, managed, k, Respecified(j, specs[last], hash(specs[last])))
  {}

  // ---- what a run makes of one record, field by field ----

  /** A record made from the spec, under the first version. */
  ghost predicate MadeOf(j: Job, spec: JobSpec, hash: string, now: Time) {
    && j.id == spec.id && j.jobType == spec.jobType && j.groups == spec.groups && j.constraints == spec.constraints
    && j.meta == spec.meta && j.version == 1 && j.status == JobPending && j.submittedAt == now
    && j.specHash == Some(hash)
  }

  /** Over a run that sees a change. A record over which no new entry is filed dies when its name
      is dropped, takes over the spec of its name under the next version and the new hash when
      that hash is another, and stays otherwise. One that is filed anew, under a name the
      source does not manage, is made from a new entry. */
  lemma RunWrites(jobs: map<string, Job>, s: Source, v: View, hash: JobSpec -> string, after: map<string, Job>,
                  k: string)
    requires Changed(s, v) && RunYields(jobs, s, v, hash, after)
    ensures k in after <==> k in jobs || Creates(s, v, k)
    ensures k in jobs && !Creates(s, v, k) ==>
              var specs, was, now := v.jobs.value, jobs[k], after[k];
              if k in s.managedJobs && k !in specs then now.status == JobDead && now == was.(status := now.status)
              else if k in s.managedJobs && s.managedJobs[k] != hash(specs[k])
                then TakesOver(was, now, specs[k], hash(specs[k]), was.version + 1)
              else now == was
    ensures Creates(s, v, k) && k !in s.managedJobs ==>
              exists n :: n in v.jobs.value && n !in s.managedJobs && v.jobs.value[n].id == k
                          && MadeOf(after[k], v.jobs.value[n], hash(v.jobs.value[n]), v.now)
  {
    hide UpsertAll;
    var order :| Enumerates(order, v.jobs.value) && after == RunIn(jobs, s, v, hash, order);
    UpsertAllAt(jobs, s.managedJobs, v.jobs.value, hash, v.now, order, k);
  }

  /** The version of a record over which nothing new is filed never goes down. */
  lemma RunKeepsVersion(jobs: map<string, Job>, s: Source, v: View, hash: JobSpec -> string, after: map<string, Job>,
                        k: string)
    requires RunYields(jobs, s, v, hash, after) && k in jobs && !Creates(s, v, k)
    ensures k in after && after[k].version >= jobs[k].version
  {
    hide RunYields, Creates;
    if Changed(s, v) {
      RunWrites(jobs, s, v, hash, after, k);
    } else {
      NothingYielded(jobs, s, v, hash, after);
    }
  }

  // ---- when the revision is another ----

  /** The number a string of decimal digits stands for. */
  function Read(s: string): nat {
    if s == [] then 0
    else
      var c := s[|s| - 1];
      10 * Read(s[..|s| - 1]) + if '0' <= c <= '9' then c as nat - '0' as nat else 0
  }

  lemma {:induction false} ReadDigits(n: nat)
    ensures Digits(n) != [] && Read(Digits(n)) == n
    decreases n
  {
    var d := n % 10;
    assert "0123456789"[d] as nat - '0' as nat == d;
    if n < 10 {
      assert [("0123456789"[n])][..0] == [];
    } else {
      ReadDigits(n / 10);
      assert Digits(n)[..|Digits(n)| - 1] == Digits(n / 10);
    }
  }

  ghost predicate FailedWith(was: Source, now: Source, error: string) {
    && now.status == SourceFailed && now.lastError == Some(error)
    && now == was.(status := now.status, lastError := now.lastError)
  }

  /** The source's own record after a run: the first error, in the order of the checks; nothing
      for a known revision; else the new revision, the hash of every job of the flake, ready. */
  lemma RunRecords(s: Source, v: View, hash: JobSpec -> string)
    ensures
      var now := Recorded(s, s, v, hash);
      if s.lastRev.None? && v.invalid.Some? then FailedWith(s, now, v.invalid.value)
      else if v.metadata.Err? then FailedWith(s, now, v.metadata.error)
      else if s.lastRev == Some(CurrentRev(v.metadata.value)) then now == s
      else if v.jobs.Err? then FailedWith(s, now, v.jobs.error)
      else
        && now.status == SourceReady && now.lastError == None && now.lastReconciledAt == Some(v.now)
        && now.lastRev == Some(CurrentRev(v.metadata.value))
        && (forall n :: n in now.managedJobs <==> n in v.jobs.value)
        && (forall n :: n in now.managedJobs ==> now.managedJobs[n] == hash(v.jobs.value[n]))
        && now == s.(status := now.status, lastError := now.lastError, lastReconciledAt := now.lastReconciledAt,
                     lastRev := now.lastRev, managedJobs := now.managedJobs)
  {}

  /** A source that has just run sees a change in a valid flake, at its next run, if and only if
      the revision is another; for a flake without one, if the time of its last change is. */
  lemma NextRunIff(s: Source, v: View, hash: JobSpec -> string, next: View)
    requires Changed(s, v) && next.metadata.Ok? && next.jobs.Ok?
    requires v.metadata.value.rev.Some? <==> next.metadata.value.rev.Some?
    ensures Changed(Recorded(s, s, v, hash), next) <==>
              if next.metadata.value.rev.Some? then next.metadata.value.rev != v.metadata.value.rev
              else next.metadata.value.lastModified != v.metadata.value.lastModified
  {
    hide Digits;
    ReadDigits(v.metadata.value.lastModified);
    ReadDigits(next.metadata.value.lastModified);
  }

  // ---- the order of the flake's jobs does not matter ----

  ghost predicate NamedById(specs: Specs) {
    forall n :: n in specs ==> specs[n].id == n
  }

  /** The job filed under `n` afterwards. */
  function JobAfter(jobs: map<string, Job>, managed: map<string, string>, specs: Specs, hash: JobSpec -> string,
                    now: Time, n: string): Job
    requires n in jobs || (n in specs && n !in managed)
  {
    if n in specs && n !in managed then IntoJob(specs[n], hash(specs[n]), now)
    else if n in specs && managed[n] != hash(specs[n]) then Respecified(jobs[n], specs[n], hash(specs[n]))
    else if n in managed && n !in specs then Died(jobs[n])
    else jobs[n]
  }

  function JobsAfter(jobs: map<string, Job>, managed: map<string, string>, specs: Specs, hash: JobSpec -> string,
                     now: Time): map<string, Job>
  {
    map n | n in jobs.Keys + (specs.Keys - managed.Keys) :: JobAfter(jobs, managed, specs, hash, now, n)
  }

  /** With ids equal to names the outcome is the same for every order. */
  lemma AnyOrder(jobs: map<string, Job>, s: Source, v: View, hash: JobSpec -> string, after: map<string, Job>)
    requires OwnNames(s, v) && RunYields(jobs, s, v, hash, after)
    ensures after == JobsNow(jobs, s, v, hash)
  {
    if Changed(s, v) {
      var order :| Enumerates(order, v.jobs.value) && after == RunIn(jobs, s, v, hash, order);
      var want := JobsNow(jobs, s, v, hash);
      forall n ensures (n in after <==> n in want) && (n in after ==> after[n] == want[n]) {
        OwnEntry(jobs, s, v, hash, order, n);
      }
    }
  }

  lemma OwnEntry(jobs: map<string, Job>, s: Source, v: View, hash: JobSpec -> string, order: seq<string>, n: string)
    requires Changed(s, v) && NamedById(v.jobs.value) && Enumerates(order, v.jobs.value)
    ensures SameEntry(RunIn(jobs, s, v, hash, order), JobsNow(jobs, s, v, hash), n)
  {
    hide Respecified, IntoJob, UpsertAll;
    var managed, specs := s.managedJobs, v.jobs.value;
    UpsertAllAt(jobs, managed, specs, hash, v.now, order, n);
    assert forall x :: x in order && Files(managed, specs, x, n) ==> x == n;
    if n in specs && n !in managed {
      assert n in order && Files(managed, specs, n, n);
    }
  }

  // ---- what a run leaves alone ----

  /** A run leaves every record as it is that it neither creates nor updates. */
  lemma RunKeeps(jobs: map<string, Job>, s: Source, v: View, hash: JobSpec -> string, after: map<string, Job>,
                 name: string)
    requires RunYields(jobs, s, v, hash, after) && !Creates(s, v, name) && !Updates(s, v, hash, name)
    ensures SameEntry(jobs, after, name)
  {
    if Changed(s, v) {
      hide UpsertAll;
      var order :| Enumerates(order, v.jobs.value) && after == RunIn(jobs, s, v, hash, order);
      UpsertAllAt(jobs, s.managedJobs, v.jobs.value, hash, v.now, order, name);
    }
  }

  /** What a run makes of one record depends on that record alone. */
  lemma {:induction false} UpsertLocal(jobs: map<string, Job>, jobs': map<string, Job>, managed: map<string, string>,
                                       specs: Specs, hash: JobSpec -> string, now: Time, order: seq<string>,
                                       name: string)
    requires (forall n :: n in order ==> n in specs) && SameEntry(jobs, jobs', name)
    ensures SameEntry(UpsertAll(jobs, managed, specs, hash, now, order),
                      UpsertAll(jobs', managed, specs, hash, now, order), name)
    decreases order
  {
    hide Respecified, IntoJob;
    if order != [] {
      UpsertLocal(jobs, jobs', managed, specs, hash, now, order[..|order| - 1], name);
    }
  }

  // ---- the job type ----

  lemma {:induction false} Enumeration(names: set<string>) returns (order: seq<string>)
    ensures forall n :: n in order <==> n in names
    ensures forall i, j :: 0 <= i < j < |order| ==> order[i] != order[j]
    decreases names
  {
    order := [];
    if names != {} {
      var n :| n in names;
      order := Enumeration(names - {n});
      OrderStep(order, names - {n}, n);
      order := order + [n];
    }
  }

  /** The entry that is taken last decides. */
  lemma LastDecides(jobs: map<string, Job>, s: Source, v: View, hash: JobSpec -> string, n: string)
    returns (after: map<string, Job>)
    requires Changed(s, v) && n in v.jobs.value && n !in s.managedJobs
    ensures RunYields(jobs, s, v, hash, after)
    ensures v.jobs.value[n].id in after && after[v.jobs.value[n].id].jobType == v.jobs.value[n].jobType
  {
    var specs := v.jobs.value;
    var init := Enumeration(specs.Keys - {n});
    OrderStep(init, specs.Keys - {n}, n);
    var order := init + [n];
    assert order[..|order| - 1] == init;
    after := RunIn(jobs, s, v, hash, order);
  }

  /** Whatever the order of the flake, a run keeps the type of a job if and only if every new
      entry with the job's id has that type. */
  lemma TypeKeptIff(jobs: map<string, Job>, s: Source, v: View, hash: JobSpec -> string, name: string)
    requires name in jobs && Changed(s, v)
    ensures (forall after: map<string, Job> :: RunYields(jobs, s, v, hash, after) ==>
             name in after && after[name].jobType == jobs[name].jobType)
       <==> (forall n :: Files(s.managedJobs, v.jobs.value, n, name) ==> v.jobs.value[n].jobType == jobs[name].jobType)
  {
    hide UpsertAll;
    if forall n :: Files(s.managedJobs, v.jobs.value, n, name) ==> v.jobs.value[n].jobType == jobs[name].jobType {
      forall after: map<string, Job> | RunYields(jobs, s, v, hash, after)
        ensures name in after && after[name].jobType == jobs[name].jobType
      {
        var order :| Enumerates(order, v.jobs.value) && after == RunIn(jobs, s, v, hash, order);
        UpsertAllAt(jobs, s.managedJobs, v.jobs.value, hash, v.now, order, name);
      }
    } else {
      var n :| Files(s.managedJobs, v.jobs.value, n, name) && v.jobs.value[n].jobType != jobs[name].jobType;
      var after := LastDecides(jobs, s, v, hash, n);
    }
  }

  // ---- the jobs a run drops ----

  function Dropped(s: Source, v: View): set<string>
    requires v.jobs.Ok?
  {
    s.managedJobs.Keys - v.jobs.value.Keys
  }

  /** A record is dead after a run exactly when its key is dropped, or it was dead and no new
      entry is filed over it. */
  lemma DeadAfterIff(jobs: map<string, Job>, s: Source, v: View, hash: JobSpec -> string, after: map<string, Job>,
                     id: string)
    requires Changed(s, v) && RunYields(jobs, s, v, hash, after)
    ensures id in after <==> id in jobs || Creates(s, v, id)
    ensures id in after ==>
              (after[id].status == JobDead <==>
                id in Dropped(s, v) || (id in jobs && jobs[id].status == JobDead && !Creates(s, v, id)))
  {
    hide UpsertAll;
    var order :| Enumerates(order, v.jobs.value) && after == RunIn(jobs, s, v, hash, order);
    UpsertAllAt(jobs, s.managedJobs, v.jobs.value, hash, v.now, order, id);
  }

  /** The record filed for the spec `id` is, or becomes, dead in this run. */
  ghost predicate Dies(jobs: map<string, Job>, s: Source, v: View, id: string)
    requires v.jobs.Ok?
  {
    id in Dropped(s, v) || (id in jobs && jobs[id].status == JobDead && !Creates(s, v, id))
  }

  /** All that a run drops from the flake `was` is dead afterwards, each job under its own id,
      if and only if each such id that is on record is itself a dropped name, or was dead
      and is not filed anew. */
  lemma DroppedAreDeadIff(jobs: map<string, Job>, s: Source, was: Specs, v: View, hash: JobSpec -> string,
                          after: map<string, Job>)
    requires Changed(s, v) && s.managedJobs.Keys == was.Keys && RunYields(jobs, s, v, hash, after)
    ensures (forall n :: n in Dropped(s, v) && was[n].id in after ==> after[was[n].id].status == JobDead)
       <==> (forall n :: n in Dropped(s, v) && (was[n].id in jobs || Creates(s, v, was[n].id)) ==>
             Dies(jobs, s, v, was[n].id))
  {
    hide RunYields, Creates, Dropped;
    forall n | n in was ensures
        && (was[n].id in after <==> was[n].id in jobs || Creates(s, v, was[n].id))
        && (was[n].id in after ==> (after[was[n].id].status == JobDead <==> Dies(jobs, s, v, was[n].id)))
    {
      DeadAfterIff(jobs, s, v, hash, after, was[n].id);
    }
    assert forall n :: n in Dropped(s, v) ==> n in was by { DroppedAreManaged(s, v); }
  }

  lemma DroppedAreManaged(s: Source, v: View)
    requires v.jobs.Ok?
    ensures Dropped(s, v) <= s.managedJobs.Keys
  {}

  /** In particular a single job, created under another id than its name and then dropped,
      is not dead. */
  lemma OtherIdSurvives(name: string, spec: JobSpec, hash: JobSpec -> string, now: Time)
    ensures
      var created := UpsertAll(map[], map[], map[name := spec], hash, now, [name]);
      var dropped := Bury(created, {name});
      spec.id in dropped && (dropped[spec.id].status == JobDead <==> spec.id == name)
  {
    assert [name][..0] == [];
    assert UpsertAll(map[], map[], map[name := spec], hash, now, []) == map[];
  }

  // ---- runs of one source ----

  /** What the reconciler copies from a spec into the job. */
  ghost predicate SameContent(a: JobSpec, b: JobSpec) {
    a.groups == b.groups && a.constraints == b.constraints && a.meta == b.meta
  }

  ghost predicate CarriesSpec(j: Job, spec: JobSpec) {
    j.groups == spec.groups && j.constraints == spec.constraints && j.meta == spec.meta
  }

  /** The managed jobs are those of `specs`, each filed under its name with its content. */
  ghost predicate Carries(jobs: map<string, Job>, managed: map<string, string>, specs: Specs, hash: JobSpec -> string) {
    managed == Hashes(specs, hash) && forall n :: n in specs ==> n in jobs && CarriesSpec(jobs[n], specs[n])
  }

  /** No two specs of one name with the same hash and different content. */
  ghost predicate NoClash(was: Specs, now: Specs, hash: JobSpec -> string) {
    forall n :: n in was && n in now && hash(was[n]) == hash(now[n]) ==> SameContent(was[n], now[n])
  }

  /** If the run sees a change, its flake names every job by its id. */
  ghost predicate OwnNames(s: Source, v: View) {
    Changed(s, v) ==> NamedById(v.jobs.value)
  }

  /** The jobs after one run that finds `jobs`, when the flake names its jobs by id. */
  function JobsNow(jobs: map<string, Job>, s: Source, v: View, hash: JobSpec -> string): map<string, Job> {
    if Changed(s, v) then JobsAfter(jobs, s.managedJobs, v.jobs.value, hash, v.now) else jobs
  }

  function SpecsNow(specs: Specs, s: Source, v: View): Specs {
    if Changed(s, v) then v.jobs.value else specs
  }

  /** One run of a flake that names its jobs by id: it carries the new specs exactly when no
      spec slipped through on its hash, and what the flake dropped is dead. */
  lemma OneRun(jobs: map<string, Job>, s: Source, specs: Specs, v: View, hash: JobSpec -> string,
               after: map<string, Job>)
    requires Carries(jobs, s.managedJobs, specs, hash) && Changed(s, v)
    requires OwnNames(s, v) && RunYields(jobs, s, v, hash, after)
    ensures Recorded(s, s, v, hash).managedJobs == Hashes(v.jobs.value, hash)
    ensures Carries(after, Hashes(v.jobs.value, hash), v.jobs.value, hash) <==> NoClash(specs, v.jobs.value, hash)
    ensures forall n :: n in specs && n !in v.jobs.value ==> n in after && after[n].status == JobDead
  {
    hide RunYields, OwnNames, Changed, Failure;
    AnyOrder(jobs, s, v, hash, after);
    assert v.jobs.Ok?
        && Recorded(s, s, v, hash).managedJobs == Hashes(v.jobs.value, hash) by { ChangedRecord(s, v, hash); }
    forall n | n in v.jobs.value
      ensures n in after
      ensures CarriesSpec(after[n], v.jobs.value[n]) <==>
                (n in specs && hash(specs[n]) == hash(v.jobs.value[n]) ==> SameContent(specs[n], v.jobs.value[n]))
    {
      assert n in specs ==> n in jobs && CarriesSpec(jobs[n], specs[n]);
    }
  }

  lemma ChangedRecord(s: Source, v: View, hash: JobSpec -> string)
    requires Changed(s, v)
    ensures v.jobs.Ok? && Recorded(s, s, v, hash).managedJobs == Hashes(v.jobs.value, hash)
  {}

  /** A run, the jobs it finds and those it leaves. */
  datatype Run = Run(found: map<string, Job>, view: View, left: map<string, Job>)

  function SourceAfter(s: Source, runs: seq<Run>, hash: JobSpec -> string): Source {
    if runs == [] then s
    else
      var before := SourceAfter(s, runs[..|runs| - 1], hash);
      Recorded(before, before, runs[|runs| - 1].view, hash)
  }

  /** The specs of the last run that saw a change. */
  function Latest(s: Source, specs: Specs, runs: seq<Run>, hash: JobSpec -> string): Specs {
    if runs == [] then specs
    else
      SpecsNow(Latest(s, specs, runs[..|runs| - 1], hash), SourceAfter(s, runs[..|runs| - 1], hash),
               runs[|runs| - 1].view)
  }

  function JobsAfterRuns(jobs: map<string, Job>, runs: seq<Run>): map<string, Job> {
    if runs == [] then jobs else runs[|runs| - 1].left
  }

  /** Run `i` leaves what a run of the source may leave of the jobs it finds. */
  ghost predicate Happens(s: Source, runs: seq<Run>, hash: JobSpec -> string, i: nat)
    requires i < |runs|
  {
    RunYields(runs[i].found, SourceAfter(s, runs[..i], hash), runs[i].view, hash, runs[i].left)
  }

  /** Nobody else removes a job or touches its content; status and version may change. */
  ghost predicate ContentKept(jobs: map<string, Job>, found: map<string, Job>) {
    forall n :: n in jobs ==>
      n in found && found[n].groups == jobs[n].groups && found[n].constraints == jobs[n].constraints
          && found[n].meta == jobs[n].meta
  }

  ghost predicate Proper(jobs: map<string, Job>, s: Source, specs: Specs, runs: seq<Run>, hash: JobSpec -> string,
                         i: nat)
    requires i < |runs|
  {
    var before := SourceAfter(s, runs[..i], hash);
    && Happens(s, runs, hash, i)
    && ContentKept(JobsAfterRuns(jobs, runs[..i]), runs[i].found)
    && OwnNames(before, runs[i].view)
    && (Changed(before, runs[i].view) ==> NoClash(Latest(s, specs, runs[..i], hash), runs[i].view.jobs.value, hash))
  }

  /** Over any number of runs, failed and unchanged ones included: the managed jobs are
      those of the latest flake, with its groups, constraints and meta, and whatever the
      last run dropped is dead. */
  lemma {:induction false} ManagedJobsFollowFlake(jobs: map<string, Job>, s: Source, specs: Specs, runs: seq<Run>,
                                                  hash: JobSpec -> string)
    requires Carries(jobs, s.managedJobs, specs, hash)
    requires forall i :: 0 <= i < |runs| ==> Proper(jobs, s, specs, runs, hash, i)
    ensures Carries(JobsAfterRuns(jobs, runs), SourceAfter(s, runs, hash).managedJobs, Latest(s, specs, runs, hash),
                    hash)
    ensures runs != [] ==>
              var after := JobsAfterRuns(jobs, runs);
              forall n :: n in Latest(s, specs, runs[..|runs| - 1], hash) && n !in Latest(s, specs, runs, hash) ==>
                n in after && after[n].status == JobDead
    decreases runs
  {
    if runs != [] {
      var k := |runs| - 1;
      forall i | 0 <= i < k ensures Proper(jobs, s, specs, runs[..k], hash, i) {
        assert runs[..k][..i] == runs[..i];
        assert Proper(jobs, s, specs, runs, hash, i);
      }
      ManagedJobsFollowFlake(jobs, s, specs, runs[..k], hash);
      assert Proper(jobs, s, specs, runs, hash, k);
      LastRun(JobsAfterRuns(jobs, runs[..k]), SourceAfter(s, runs[..k], hash), Latest(s, specs, runs[..k], hash),
              runs[k], hash);
    }
  }

  lemma LastRun(jobs: map<string, Job>, s: Source, specs: Specs, run: Run, hash: JobSpec -> string)
    requires Carries(jobs, s.managedJobs, specs, hash) && ContentKept(jobs, run.found)
    requires OwnNames(s, run.view) && RunYields(run.found, s, run.view, hash, run.left)
    requires Changed(s, run.view) ==> NoClash(specs, run.view.jobs.value, hash)
    ensures Carries(run.left, Recorded(s, s, run.view, hash).managedJobs, SpecsNow(specs, s, run.view), hash)
    ensures forall n :: n in specs && n !in SpecsNow(specs, s, run.view) ==>
              n in run.left && run.left[n].status == JobDead
  {
    assert Carries(run.found, s.managedJobs, specs, hash);
    if Changed(s, run.view) {
      OneRun(run.found, s, specs, run.view, hash, run.left);
    }
  }

  /** Run `i` finds the job with the type it was left with, and files no other type under
      its id. */
  ghost predicate TypeUncontested(jobs: map<string, Job>, s: Source, runs: seq<Run>, hash: JobSpec -> string,
                                  name: string, i: nat)
    requires i < |runs| && name in jobs
  {
    var source, found, v := SourceAfter(s, runs[..i], hash), JobsAfterRuns(jobs, runs[..i]), runs[i].view;
    && Happens(s, runs, hash, i)
    && (name in found ==> name in runs[i].found && runs[i].found[name].jobType == found[name].jobType)
    && (Changed(source, v) ==>
          forall n :: Files(source.managedJobs, v.jobs.value, n, name) ==>
              v.jobs.value[n].jobType == jobs[name].jobType)
  }

  /** An update copies groups, constraints and meta only: over any number of runs a job keeps
      its type, whatever type the flake gives it under its name, as long as no new entry with
      its id and another type comes along. */
  lemma {:induction false} TypeIsNeverUpdated(jobs: map<string, Job>, s: Source, runs: seq<Run>,
                                              hash: JobSpec -> string, name: string)
    requires name in jobs && forall i :: 0 <= i < |runs| ==> TypeUncontested(jobs, s, runs, hash, name, i)
    ensures name in JobsAfterRuns(jobs, runs) && JobsAfterRuns(jobs, runs)[name].jobType == jobs[name].jobType
    decreases runs
  {
    hide RunYields;
    if runs != [] {
      var k := |runs| - 1;
      forall i | 0 <= i < k ensures TypeUncontested(jobs, s, runs[..k], hash, name, i) {
        assert runs[..k][..i] == runs[..i];
        assert TypeUncontested(jobs, s, runs, hash, name, i);
      }
      TypeIsNeverUpdated(jobs, s, runs[..k], hash, name);
      assert TypeUncontested(jobs, s, runs, hash, name, k);
      var before := SourceAfter(s, runs[..k], hash);
      if Changed(before, runs[k].view) {
        TypeKeptIff(runs[k].found, before, runs[k].view, hash, name);
      } else {
        NothingYielded(runs[k].found, before, runs[k].view, hash, runs[k].left);
      }
    }
  }

  lemma NothingYielded(jobs: map<string, Job>, s: Source, v: View, hash: JobSpec -> string, after: map<string, Job>)
    requires !Changed(s, v) && RunYields(jobs, s, v, hash, after)
    ensures after == jobs
  {}

  /** Run `i` does not fail. */
  ghost predicate Healthy(s: Source, runs: seq<Run>, hash: JobSpec -> string, i: nat)
    requires i < |runs|
  {
    Failure(SourceAfter(s, runs[..i], hash), runs[i].view).None?
  }

  ghost predicate SeesChange(s: Source, runs: seq<Run>, hash: JobSpec -> string, i: nat)
    requires i < |runs|
  {
    Changed(SourceAfter(s, runs[..i], hash), runs[i].view)
  }

  /** An unchanged revision is skipped before the status is looked at. So over healthy runs a
      failed source stays failed, error and all, if and only if none of them sees a change;
      from the first that does on it is ready, without an error. */
  lemma {:induction false} StaysFailedIff(s: Source, runs: seq<Run>, hash: JobSpec -> string)
    requires s.status == SourceFailed && forall i :: 0 <= i < |runs| ==> Healthy(s, runs, hash, i)
    ensures
      var after := SourceAfter(s, runs, hash);
      if forall i :: 0 <= i < |runs| ==> !SeesChange(s, runs, hash, i) then after == s
      else after.status == SourceReady && after.lastError == None
    decreases runs
  {
    hide Changed, Failure;
    if runs != [] {
      var k := |runs| - 1;
      assert forall i :: 0 <= i < k ==> runs[..k][..i] == runs[..i] && runs[..k][i] == runs[i];
      forall i | 0 <= i < k
        ensures Healthy(s, runs[..k], hash, i) && (SeesChange(s, runs[..k], hash, i) <==> SeesChange(s, runs, hash, i))
      {
        assert Healthy(s, runs, hash, i);
      }
      StaysFailedIff(s, runs[..k], hash);
      assert Healthy(s, runs, hash, k);
      assert SeesChange(s, runs, hash, k) <==> Changed(SourceAfter(s, runs[..k], hash), runs[k].view);
      if exists i :: 0 <= i < k && SeesChange(s, runs[..k], hash, i) {
        assert exists i :: 0 <= i < |runs| && SeesChange(s, runs, hash, i);
      }
    }
  }

  // ---- all sources ----

  /** This source's run in the pass writes the record filed under `name`. */
  ghost predicate Writes(s: Source, views: Uuid -> View, hash: JobSpec -> string, name: string) {
    s.status != Suspended && (Creates(s, views(s.id), name) || Updates(s, views(s.id), hash, name))
  }

  ghost predicate TurnYields(jobs: map<string, Job>, s: Source, views: Uuid -> View, hash: JobSpec -> string,
                             after: map<string, Job>)
  {
    if s.status == Suspended then after == jobs else RunYields(jobs, s, views(s.id), hash, after)
  }

  /** The jobs before, between and after the sources' runs, in list order. */
  ghost predicate PassYields(states: seq<map<string, Job>>, listed: seq<Source>, views: Uuid -> View,
                             hash: JobSpec -> string)
  {
    |states| == |listed| + 1 && forall i :: 0 <= i < |listed| ==>
        TurnYields(states[i], listed[i], views, hash, states[i + 1])
  }

  ghost predicate SourcesDone(was: map<Uuid, Source>, now: map<Uuid, Source>, views: Uuid -> View,
                              hash: JobSpec -> string, ids: set<Uuid>)
  {
    && now.Keys == was.Keys
    && forall id :: id in was ==>
         now[id] == if id in ids && was[id].status != Suspended then Recorded(was[id], was[id], views(id), hash)
             else was[id]
  }

  /** `reconcile_sources`: every source that is not suspended is run once, each on the jobs the
      one before it left, and one that fails keeps everything but its status and error. */
  method ReconcileSources(store: Store, views: Uuid -> View, hash: JobSpec -> string)
    returns (ghost listed: seq<Source>, ghost states: seq<map<string, Job>>)
    requires store.Valid()
    modifies store`jobs, store`sources
    ensures store.Valid()
    ensures ListsValues(old(store.sources), listed, SourceKey)
    ensures SourcesDone(old(store.sources), store.sources, views, hash, old(store.sources).Keys)
    ensures PassYields(states, listed, views, hash) && states[0] == old(store.jobs) && states[|listed|] == store.jobs
  {
    hide Recorded, TurnYields, SourcesDone, Keyed, ListsValues, SourceIds;
    var sources := store.ListSources();
    listed, states := sources, [store.jobs];
    ghost var was := store.sources;
    NothingDone(was, views, hash);
    for i := 0 to |sources|
      invariant store.Valid()
      invariant SourcesDone(was, store.sources, views, hash, SourceIds(sources[..i]))
      invariant PassYields(states, sources[..i], views, hash) && states[0] == old(store.jobs) && states[i] == store.jobs
    {
      var s := sources[i];
      OneMoreDone(was, sources, store.sources, views, hash, i);
      assert sources[..i + 1] == sources[..i] + [s];
      ghost var before := store.jobs;
      if s.status != Suspended {
        RunOne(store, s, views(s.id), hash);
      }
      assert TurnYields(before, s, views, hash, store.jobs) by { TurnMeans(before, s, views, hash, store.jobs); }
      states := states + [store.jobs];
    }
    assert sources[..|sources|] == sources;
    AllDone(was, sources);
  }

  lemma TurnMeans(jobs: map<string, Job>, s: Source, views: Uuid -> View, hash: JobSpec -> string,
                  after: map<string, Job>)
    ensures TurnYields(jobs, s, views, hash, after) <==>
              if s.status == Suspended then after == jobs else RunYields(jobs, s, views(s.id), hash, after)
  {}

  function SourceIds(sources: seq<Source>): set<Uuid> {
    set s | s in sources :: s.id
  }

  lemma NothingDone(was: map<Uuid, Source>, views: Uuid -> View, hash: JobSpec -> string)
    ensures SourcesDone(was, was, views, hash, SourceIds([]))
  {}

  lemma OneMoreDone(was: map<Uuid, Source>, sources: seq<Source>, now: map<Uuid, Source>, views: Uuid -> View,
                    hash: JobSpec -> string, i: nat)
    requires i < |sources| && ListsValues(was, sources, SourceKey)
    requires SourcesDone(was, now, views, hash, SourceIds(sources[..i]))
    ensures
      var s := sources[i];
      && s.id in now && now[s.id] == s
      && SourcesDone(was, if s.status == Suspended then now else now[s.id := Recorded(s, s, views(s.id), hash)],
                     views, hash, SourceIds(sources[..i + 1]))
  {
    hide Recorded, SourceIds, ListsValues;
    NotYetDone(was, sources, i);
  }

  lemma NotYetDone(was: map<Uuid, Source>, sources: seq<Source>, i: nat)
    requires i < |sources| && ListsValues(was, sources, SourceKey)
    ensures sources[i].id in was && was[sources[i].id] == sources[i] && sources[i].id !in SourceIds(sources[..i])
    ensures SourceIds(sources[..i + 1]) == SourceIds(sources[..i]) + {sources[i].id}
  {
    assert SourceKey(sources[i]) in was && was[sources[i].id] == sources[i];
    assert sources[..i + 1] == sources[..i] + [sources[i]];
    forall t | t in sources[..i] ensures t.id != sources[i].id {
      var j :| 0 <= j < i && sources[j] == t;
      assert SourceKey(sources[j]) != SourceKey(sources[i]);
    }
  }

  lemma AllDone(was: map<Uuid, Source>, sources: seq<Source>)
    requires Keyed(was, SourceKey) && ListsValues(was, sources, SourceKey)
    ensures SourceIds(sources) == was.Keys
  {
    forall id | id in was ensures id in SourceIds(sources) {
      assert SourceKey(was[id]) == id && was[id] in sources;
    }
    forall id | id in SourceIds(sources) ensures id in was {
      var j :| 0 <= j < |sources| && sources[j].id == id;
      assert SourceKey(sources[j]) in was;
    }
  }

  /** One source of the listing, and the mark a failure leaves. */
  method RunOne(store: Store, s: Source, v: View, hash: JobSpec -> string)
    requires store.Valid() && s.id in store.sources && store.sources[s.id] == s
    modifies store`jobs, store`sources
    ensures store.Valid()
    ensures store.sources == old(store.sources)[s.id := Recorded(s, s, v, hash)]
    ensures RunYields(old(store.jobs), s, v, hash, store.jobs)
  {
    hide RunYields;
    var error := ReconcileSource(store, s, v, hash);
    if error.Some? {
      var _ := store.UpdateSource(s.id, (r: Source) => r.(status := SourceFailed, lastError := error));
    }
  }

  /** A record that no source of the pass writes is left as it was. */
  lemma {:induction false} PassKeeps(states: seq<map<string, Job>>, listed: seq<Source>, views: Uuid -> View,
                                     hash: JobSpec -> string, name: string)
    requires PassYields(states, listed, views, hash) && forall j :: 0 <= j < |listed| ==>
               !Writes(listed[j], views, hash, name)
    ensures SameEntry(states[0], states[|listed|], name)
    decreases listed
  {
    if listed != [] {
      var k := |listed| - 1;
      assert forall j :: 0 <= j < k ==> listed[..k][j] == listed[j] && states[..k + 1][j + 1] == states[j + 1];
      PassKeeps(states[..k + 1], listed[..k], views, hash, name);
      assert TurnYields(states[k], listed[k], views, hash, states[k + 1]) && !Writes(listed[k], views, hash, name);
      if listed[k].status != Suspended {
        RunKeeps(states[k], listed[k], views(listed[k].id), hash, states[k + 1], name);
      }
    }
  }

  /** The version of a record that no source of the pass files anew never goes down. */
  lemma {:induction false} PassKeepsVersion(states: seq<map<string, Job>>, listed: seq<Source>, views: Uuid -> View,
                                            hash: JobSpec -> string, k: string)
    requires PassYields(states, listed, views, hash) && k in states[0]
    requires forall j :: 0 <= j < |listed| && listed[j].status != Suspended ==>
               !Creates(listed[j], views(listed[j].id), k)
    ensures k in states[|listed|] && states[|listed|][k].version >= states[0][k].version
    decreases listed
  {
    hide RunYields, Creates;
    if listed != [] {
      var n := |listed| - 1;
      assert forall j :: 0 <= j < n ==> listed[..n][j] == listed[j] && states[..n + 1][j + 1] == states[j + 1];
      PassKeepsVersion(states[..n + 1], listed[..n], views, hash, k);
      assert TurnYields(states[n], listed[n], views, hash, states[n + 1]);
      if listed[n].status != Suspended {
        RunKeepsVersion(states[n], listed[n], views(listed[n].id), hash, states[n + 1], k);
      }
    }
  }

  /** A record that one source alone writes ends as that source's run on its own may leave it,
      whatever else the pass does and in whatever order. */
  lemma SourcesDoNotInterfere(states: seq<map<string, Job>>, listed: seq<Source>, views: Uuid -> View,
                              hash: JobSpec -> string, i: nat, name: string)
    requires PassYields(states, listed, views, hash) && i < |listed|
    requires forall j :: 0 <= j < |listed| && j != i ==> !Writes(listed[j], views, hash, name)
    ensures exists alone ::
              (TurnYields(states[0], listed[i], views, hash, alone) && SameEntry(alone, states[|listed|], name))
  {
    var before, after := listed[..i], listed[i + 1..];
    assert forall j :: 0 <= j < i ==> before[j] == listed[j] && states[..i + 1][j + 1] == states[j + 1];
    PassKeeps(states[..i + 1], before, views, hash, name);
    assert forall j :: 0 <= j < |after| ==> after[j] == listed[i + 1 + j] && states[i + 1..][j] == states[i + 1 + j];
    assert PassYields(states[i + 1..], after, views, hash);
    PassKeeps(states[i + 1..], after, views, hash, name);
    assert TurnYields(states[i], listed[i], views, hash, states[i + 1]);
    var alone := TurnLocal(states[i], states[0], listed[i], views, hash, states[i + 1], name);
  }

  /** What a source's run makes of one record it may make of the same record elsewhere. */
  lemma TurnLocal(jobs: map<string, Job>, jobs': map<string, Job>, s: Source, views: Uuid -> View,
                  hash: JobSpec -> string, after: map<string, Job>, name: string) returns (after': map<string, Job>)
    requires SameEntry(jobs', jobs, name) && TurnYields(jobs, s, views, hash, after)
    ensures TurnYields(jobs', s, views, hash, after') && SameEntry(after', after, name)
  {
    hide UpsertAll;
    var v := views(s.id);
    if s.status == Suspended || !Changed(s, v) {
      after' := jobs';
    } else {
      var order :| Enumerates(order, v.jobs.value) && after == RunIn(jobs, s, v, hash, order);
      UpsertLocal(jobs', jobs, s.managedJobs, v.jobs.value, hash, v.now, order, name);
      after' := RunIn(jobs', s, v, hash, order);
    }
  }
}

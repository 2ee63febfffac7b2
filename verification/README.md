# tatara, modelled in Dafny

A model of the parts of tatara that decide what runs where and what everyone agrees on, with proofs of what they promise. `dafny verify dfyconfig.toml` checks all of it.

## What is modelled

- **Reconciler** (`Reconciler`, `JobPasses`, `HealthPass`, `CountPass`, `DriftPass`, `SourcePass`, over `Passes`, `Executor`, `StateStore`). A tick runs its passes one after the other over a shared store, each on its own listing; the two first share one. Drivers, clocks, random ids and flake evaluation are arguments, so every claim holds for all their outcomes unless a contract names what it asks of them, and then it asks only about the job or allocation it speaks of: `NoRefusal` (no driver refuses the start of a new allocation of the group) and `Stoppable`, `DriversOf` (the drivers exist under which these allocations run). A new allocation whose driver is missing stays Pending and counts as active, so only a refusal keeps a group short.
- **Raft state machine and log** (`Cluster`, `RaftStateMachine`, `JobHistory`, `TableHistory`, `RaftLog`) and the in-memory store that stands in for them (`InMemoryStore`, `EventKinds`). A `Stamp` holds the clock readings and random ids one replica uses for one command; agreement is up to exactly these.
- **Lisp evaluator** (`LispSyntax`, `LispEval`, `LispForms`, `LispErrors`, `LispLockstep`, `LispLet`, `LispLetrec`, `LispSession`). A store-passing function with fuel: a heap of thunk cells, the root environment, and the list of started bodies, kept only to be reasoned about. `Evolves` is what every one of its functions keeps; `LispForms` says what each form means in terms of its parts.
- **Placement** (`Placement`). Greedy best-fit and spread placement, against the number any assignment could reach.
- **Content-addressed transfer and event stream** (`Chunks`, `Transfer`, `EventRing`). The hash is any function; a collision-free one is assumed only where `NoCollision` says so.

## Where the code and its words, or the obvious hopes, differ

Each is proved where a member is named, with the exact condition where there is one.

- The in-memory store says it mirrors the Raft state machine exactly (src/testing/store.rs:21). A repeated status bumps the version only there: `InMemoryStore.StoreSimulatesRaft`, `InMemoryStore.VersionsEqualIff`. A repeated status or allocation state is reported only there: `EventKinds.KindsAgreeIff`. Kinds are all that agrees: payloads differ too, for one in a change of an allocation's state (src/testing/store.rs:214-219 against src/cluster/raft_sm.rs:292-300).
- The reconciler says it makes four passes (src/domain/reconciler.rs:19-23); it makes five.
- A pending job is marked running when any job listed before it got an allocation: `Placement.Evaluate`.
- A thunk whose body failed reports a cycle forever: `LispLockstep.FailedForcePoisons`. A thunk counts as true without being forced: `LispLet.ThunkIsTrue`. `let` binds thunks that a call would force: `LispLet.SameEnvironmentIff`.
- A top-level `define` of a function that names itself means the old root's binding of that name, or none: `LispSession.BodySeesOldRoot`.
- Over healthy runs a source that failed stays failed exactly until its revision changes: `SourcePass.StaysFailedIff`.
- A source files a new job under its spec's id but updates and buries it under its name in the flake. So not every dropped job is dead: `SourcePass.DeadAfterIff`, `SourcePass.DroppedAreDeadIff`. An update never changes the job type, but a new entry with the job's id overwrites the job: `SourcePass.TypeKeptIff`.
- The event stream has sent every matching event, each once and in order, exactly when some poll found all of them still in the ring: `EventRing.StreamCompleteIff`. That every evicted one had been sent is not enough, because the cursor counts what the ring holds. A ring of capacity 0 holds one event: `EventRing.RingHoldsTail`.
- An executor stop that meets a missing driver has already forgotten the allocation, so it stays Running and untracked: `Executor.Executor.StopAllocation`. A failed restart forgets the process it was to replace: `Executor.Executor.RestartTask`. It is not checked again (`JobPasses.ForgottenStays`), so the promise that it ends once its restarts are spent fails. A stop ends exactly the allocations whose own tracked tasks all have their drivers (`CountPass.StopNewest`), and the count pass gets down to the desired number exactly when each of the newest it sets out to stop has them (`CountPass.StopExcess`). So `Reconciler.Reconciler.Run` promises the end to an allocation when the drivers exist, at every tick, of the tasks first tracked for it and of what its group's spec would start in their place, whatever other jobs name; without that, "ended or untracked". The converse is not to be had: with a driver missing the health pass may still fail it before any pass stops it.
- A rolling update keeps the number of active allocations that the old spec desired; a changed count waits for the next tick's count pass: `Reconciler.Reconciler.Tick`, `JobPasses.Arrived`.

## Model

| member | source | states |
|---|---|---|
| `Reconciler.Reconciler.Tick` | src/domain/reconciler.rs:58-110 | One whole tick, whatever the drivers, flakes and sources do: no terminal allocation becomes pending or running again, everything unfinished of a job that was not dead is on a known node, other jobs' allocations are untouched, and what is new belongs to a live job. A record that no due source writes is the one before the tick, or, if the job drifts, that with the spec's groups, constraints and meta, its hash and the next version; and where nothing active was newer than a job's record nothing is afterwards, unless a due source files the id anew. For each job whose groups the drift pass keeps, restart bounds hold on, and if it is live every allocation of it has ended, is no longer tracked, or is exactly as the health pass left it. A running job with distinct group names and a usable node, whose own starts are not refused and whose own active allocations have their drivers, whatever happens to other jobs: if it does not drift, every group of a service or batch job has exactly `count` active allocations, every group of a system job as many as the store has ready, eligible nodes; if it drifts and nothing active was newer, each old group that survives has the number the old spec asks for, each that is gone has none, and all is of the stored version |
| `Reconciler.Reconciler.Run` | src/domain/reconciler.rs:46-110 | Runs of any number of ticks, source passes included: terminal stays terminal; and as long as no due source files a job's id anew, nothing active is ever newer than the job's record, so every drift can roll over again. For every job that has the groups it began with at the start and in the drift pass of each tick, whatever happens to other jobs: with distinct task names no restart count passes its policy's limit; and if the job is not dead, a running, tracked allocation of it whose tasks are dead at every tick has ended, or is untracked, once there are more ticks than restarts allowed, and has ended when at each tick the drivers exist of the tasks first tracked for it and of what its own group would restart in their place. Dead is asked of these tasks only |
| `Reconciler.AllArriveStep` | src/domain/reconciler.rs:75-99 | For every job at once: one more turn brings its job to the desired numbers, or over to the new spec, and leaves the others where they arrived; what the job asks of the drivers at its turn is no more than at the start of the tick |
| `Reconciler.CanStillRoll` | src/domain/reconciler.rs:75-99 | The conditions of a rolling update, judged at the start of the tick, still hold at the job's turn |
| `Reconciler.CalmHolds` | src/domain/reconciler.rs:69-110 | A job that no tick's drift pass and no due source writes, judged at the start of each tick, keeps its whole record and so its groups over the run |
| `Reconciler.Reconciler.Turn` | src/domain/reconciler.rs:75-99 | One job of the tick's loop extends the tick's invariants by that job |
| `Reconciler.AllSteadyStep` | src/domain/reconciler.rs:75-99 | For every job at once: the bounds and fates so far survive one more job's turn |
| `Reconciler.SteadyAside` | src/domain/reconciler.rs:75-99 | Work on another job leaves a job's bounds and fates alone |
| `Reconciler.ProgressStep` | src/domain/reconciler.rs:75-99 | Movement forward and placement on known nodes carry over to one more job |
| `Reconciler.CalmUnwritten` | src/domain/reconciler.rs:101-106 | A record that the source pass does not write is, after the tick, what drift left of it |
| `Reconciler.RecordsThroughSources` | src/domain/reconciler.rs:75-106 | The source pass leaves every record it does not write as drift left it, and every record it does not file anew ahead of all that is active |
| `Reconciler.VersionsStep` | src/domain/reconciler.rs:58-106 | One more tick keeps every job at least as new as what is active for it, as long as none of its sources files the id anew |
| `Reconciler.BoundsStep` | src/domain/reconciler.rs:58-110 | One more tick with the groups held keeps the restart bounds |
| `Reconciler.WearingStep` | src/domain/reconciler.rs:58-110 | One more tick in which whatever may run for the allocation is dead: it ends, which a stop brings about when the drivers of just these tasks exist, or each restartable task has been restarted once more and still nothing else runs for it |
| `JobPasses.ReconcileJob` | src/domain/reconciler.rs:75-99 | The passes over one job: they move only that job's allocations and spec, leave them on known nodes and other jobs' tracked tasks alone. Its record stays, or, when drift is due and the flake's spec has another hash, is that spec's under the next version; nothing active is newer than it afterwards if nothing was before. Unless a drift gives the job other groups, they keep its restart bounds and give each of its allocations its fate. With distinct group names, a usable node and its own starts and stops succeeding it ends at the numbers its groups ask for, or rolled over to the new spec |
| `JobPasses.CheckAndCount` | src/domain/reconciler.rs:80-89 | Health, liveness and count for one job: with distinct group names, a usable node and its own starts and stops succeeding, a running job has in every group exactly `count` active allocations, one per usable node for a system job; and a job ready to roll at the start still is |
| `JobPasses.RecordOfDrift` | src/domain/reconciler.rs:89-97 | The record after the drift pass, in terms of the spec that the flake of the first Nix task evaluates to |
| `JobPasses.SettleAfterCheckup` | src/domain/reconciler.rs:80-89 | Health and liveness leave the count pass able to reach the desired numbers: restarts bring in no driver that does not exist |
| `JobPasses.RollAfterCount` | src/domain/reconciler.rs:80-97 | After health, liveness and count, with the allocations these created, the rolling update still asks the drivers for nothing that they do not have |
| `JobPasses.Arrived` | src/domain/reconciler.rs:87-98 | The desired number after the count pass and a completed rolling update give the old spec's numbers in the surviving groups, none in the others, and the new version throughout |
| `JobPasses.ForgottenStays` | src/domain/reconciler.rs:117-256 | An allocation that is no longer tracked is left exactly as it is by health and liveness while its node is known |
| `JobPasses.UsableCount` | src/domain/reconciler.rs:262-276 | The ready nodes of any listing are as many as the usable nodes of the store |
| `JobPasses.CheckJob` | src/domain/reconciler.rs:80-86 | Health and liveness share one stale listing: each listed allocation ends as the health pass makes it, then Lost when the listing shows it unfinished on an unknown node |
| `JobPasses.CheckedUpMoves` | src/domain/reconciler.rs:117-256 | The two passes on a stale listing never revive a terminal allocation and leave nothing unfinished on an unknown node |
| `JobPasses.CheckupBounded` | src/domain/reconciler.rs:117-256 | They keep every restart count of the job within its policy and its tracked task names distinct |
| `JobPasses.AdvancesBounded` | src/domain/reconciler.rs:262-545 | The count and drift passes keep the same bounds |
| `JobPasses.MeetsFate` | src/domain/reconciler.rs:80-99 | After a checkup and passes that only start and stop, an allocation has ended, is untracked, or is as the health pass left it; when the drivers of its own tracked tasks exist it is dropped only by being stopped |
| `JobPasses.AdvancesAside` | src/domain/reconciler.rs:262-545 | The count and drift passes of one job leave what is tracked for others alone |
| `HealthPass.ReconcileHealth` | src/domain/reconciler.rs:117-223 | Each running, tracked allocation of the listing becomes what `HealthOf` says, its tracked tasks too, and nothing else changes |
| `HealthPass.CheckAllocation` | src/domain/reconciler.rs:138-219 | The loop over one allocation's task reports: decisions use the listed allocation, writes go to the stored one |
| `HealthPass.ReconcileNodeLiveness` | src/domain/reconciler.rs:229-256 | Exactly the listed pending or running allocations on unknown nodes become Lost, even one failed meanwhile, and change in nothing else |
| `HealthPass.FailedIff` | src/domain/reconciler.rs:139-219 | The pass fails a running allocation if and only if of every tracked task the driver is missing, does not know it or says it is dead, and either its policy allows no restart (never, attempts used up, or on failure with exit code 0) or its group has no such task, or that cannot be started |
| `HealthPass.EachTaskDone` | src/domain/reconciler.rs:139-219 | What a pass does to one task with an entry of its own, whatever the others: alive, under a policy that never restarts, or gone from the spec, it is left alone; dead with a restart left it runs under the new handle with one restart more, or, when the start fails, is no longer tracked; dead with none left it is marked dead with the time |
| `HealthPass.FoldRestarts` | src/domain/reconciler.rs:152-192 | With distinct names, a pass raises a task's restart count by at most one, and only when the policy says so |
| `HealthPass.RestartsStayBounded` | src/domain/reconciler.rs:157-165 | No pass takes a restart count above the policy's attempts, zero under Never |
| `HealthPass.FoldDistinct` | src/domain/reconciler.rs:167-192 | Restarts keep the tracked task names distinct |
| `HealthPass.HealthWithin` | src/domain/reconciler.rs:167-192 | Whatever the drivers do, a health pass leaves running only tasks tracked before or those started again from the group's spec under the same name |
| `HealthPass.FoldDrivers` | src/domain/reconciler.rs:167-192 | When the drivers of the tracked tasks exist, those of the tasks after the restarts exist too |
| `HealthPass.OnePassWears` | src/domain/reconciler.rs:139-219 | A pass over an allocation whose tasks are all dead fails it, or uses up one restart of every restartable task that is left |
| `HealthPass.RunWears` | src/domain/reconciler.rs:117-223 | After k such passes it has failed, or every restartable task has been restarted k times and k is within the limit |
| `HealthPass.FailsWithinAttempts` | src/domain/reconciler.rs:117-223 | It is Failed within attempts + 1 passes, the first when restarts are off |
| `CountPass.ReconcileCount` | src/domain/reconciler.rs:262-397 | With distinct group names and a ready node, when no start of a group that is short is refused and the drivers exist that the active allocations of a group that is over run under, every group of a running service or batch job ends with exactly `count` active allocations and every group of a system job with one per ready, eligible node; it keeps all it had when short, and stops only the newest when over; at these numbers, or for a job that is not running, the pass changes nothing. Always: it only advances the job's allocations, and whatever it creates has the job's version and sits on the first ready node with the fewest unfinished allocations of the job in that group |
| `CountPass.CountGroup` | src/domain/reconciler.rs:278-394 | The same for one group, asking only for that group's starts or stops, with the other groups left as they were |
| `CountPass.Create` | src/domain/reconciler.rs:307-355 | Creates `deficit` allocations: never more than that many more are active, and exactly that many if and only if no driver refused the start of one of them |
| `CountPass.LeastLoaded` | src/domain/reconciler.rs:309-320 | The first node with the fewest unfinished allocations of the group in the listing |
| `CountPass.LoadIsUnfinished` | src/domain/reconciler.rs:309-320 | The load that the listing gives a node is the number of pending and running allocations of the job and group that the store has on it |
| `CountPass.StopNewest` | src/domain/reconciler.rs:380-392 | Of the first `excess` of the sorted list exactly those are active no longer whose tracked tasks all have their drivers |
| `CountPass.StopOne` | src/client/executor.rs:123-155 | One stop takes the allocation out of the running map, and out of the active ones exactly when the drivers of its tracked tasks exist; other groups are left as they were |
| `CountPass.StopExcess` | src/domain/reconciler.rs:356-393 | Sets out to stop as many of the newest as exceed the desired number, which is reached if and only if the drivers exist of all that these run |
| `CountPass.SortNewestFirst` | src/domain/reconciler.rs:378 | Sorted by creation time, newest first, with the same members; those of one time keep their order |
| `CountPass.CutNewest` | src/domain/reconciler.rs:378-392 | Cutting the head of the sorted list removes the newest |
| `CountPass.GroupDone` | src/domain/reconciler.rs:278-394 | A later group's work leaves earlier groups balanced and the listing right for later ones |
| `DriftPass.ReconcileDrift` | src/domain/reconciler.rs:403-545 | Without drift nothing changes. With it the stored job has the new spec's groups, constraints and meta, its hash, and the version after the one it was listed with, all else and all other jobs as before; if nothing active was newer than the job nothing is newer than the stored version either, so the next drift finds all of it outdated again. And when moreover a node is usable, no start of a replacement is refused and the drivers exist that the job's active allocations run under, each surviving group keeps its number of active allocations, never has fewer at any recorded step, removed groups end with none, and all that is active has exactly the stored version. Whatever is created replaces one of the outdated: its group by the new spec, the new version, and its node while that is ready |
| `DriftPass.DriftedIff` | src/domain/reconciler.rs:405-452 | A job drifts to a spec if and only if the flake of its first Nix task, in the order of groups and tasks, evaluates to it and its hash is not the one on record |
| `DriftPass.NoneNewerAfter` | src/domain/reconciler.rs:455-535 | After the update the job is again at least as new as everything active, whatever the drivers did |
| `DriftPass.VersionsMeet` | src/domain/reconciler.rs:455-535 | After a completed update all that is active has exactly one version, the one after the old |
| `DriftPass.RollOver` | src/domain/reconciler.rs:466-545 | The rolling update itself, once the job has the new spec, on the same conditions on this job's own starts and stops |
| `DriftPass.CreateReplacements` | src/domain/reconciler.rs:485-520 | Each new allocation replaces one outdated one of a surviving group; when none of their groups' starts is refused each has its active replacement and no step has fewer active than before |
| `DriftPass.StopOutdated` | src/domain/reconciler.rs:522-535 | Stops the outdated ones, all of them when the drivers exist of what is tracked for them; no step takes a surviving group below where it began |
| `DriftPass.ReplacementNode` | src/domain/reconciler.rs:492-503 | The old node while it is ready, else the first ready one, none only when none is ready |
| `DriftPass.RetiredKeepsCount` | src/domain/reconciler.rs:485-535 | While outdated allocations are being stopped the replacements keep the count up |
| `DriftPass.RollOverDone` | src/domain/reconciler.rs:455-535 | With replacements running and outdated ones retired the update is complete |
| `DriftPass.OutdatedCounts` | src/domain/reconciler.rs:467-477 | The outdated list is, group by group, exactly the active allocations when none is newer than the job |
| `SourcePass.ReconcileSource` | src/domain/reconciler.rs:615-740 | Fails exactly with `Failure`; unless the revision changed and everything succeeded jobs and sources are untouched; otherwise managed jobs become the map from each flake job to its hash, and the jobs are those of some order of the flake: created under the spec's id, updated and buried under the name |
| `SourcePass.RunWrites` | src/domain/reconciler.rs:653-724 | Record by record after a run that sees a change: a dropped name is dead and otherwise as before; a managed name whose spec has another hash takes its groups, constraints and meta, the new hash and the next version; a new entry is a pending job of version 1 made from the spec under its id; all else stays |
| `SourcePass.RunRecords` | src/domain/reconciler.rs:569-740 | The source's own record after a run: failed with the first error, in the order of the checks; untouched when the revision is known; else ready, with the revision, the time, no error and the hash of every job of the flake |
| `SourcePass.NextRunIff` | src/domain/reconciler.rs:634-650 | After a run that saw a change the next one sees a change if and only if the flake's revision is another, or, for flakes without one, the time of their last change |
| `SourcePass.RunKeepsVersion` | src/domain/reconciler.rs:657-724 | A run lowers no version of a record it does not file anew |
| `SourcePass.PassKeepsVersion` | src/domain/reconciler.rs:554-609 | Nor does a pass over all sources |
| `SourcePass.ApplySpecs` | src/domain/reconciler.rs:653-701 | Creates and updates jobs; the managed map built step by step is the old one overridden by the new hashes |
| `SourcePass.BuryRemoved` | src/domain/reconciler.rs:703-724 | Marks exactly the dropped jobs dead and forgets exactly them |
| `SourcePass.ReconcileSources` | src/domain/reconciler.rs:551-612 | Every source that is not suspended is run once, on the jobs the one before left, for any flakes; a failure changes only its status and error |
| `SourcePass.UpsertAllAt` | src/domain/reconciler.rs:657-701 | One record after creations and updates in any order: kept or updated when no new entry has its key for an id, else made from such an entry |
| `SourcePass.AnyOrder` | src/domain/reconciler.rs:657-724 | With ids equal to names the outcome does not depend on the order of the flake's map |
| `SourcePass.OneRun` | src/domain/reconciler.rs:653-736 | After a changed run of a flake that names jobs by id the managed jobs carry the new specs if and only if no changed spec kept its hash; dropped jobs are dead |
| `SourcePass.ManagedJobsFollowFlake` | src/domain/reconciler.rs:615-740 | Over any runs of flakes that name jobs by id, failures and unchanged revisions included, with others touching only status and version: managed jobs are those of the latest flake with its groups, constraints and meta, and what the last run dropped is dead |
| `SourcePass.DeadAfterIff` | src/domain/reconciler.rs:657-724 | For any jobs, flake and order: a record is dead after a run if and only if its key is a dropped name, or it was dead and no new entry has its key for an id |
| `SourcePass.DroppedAreDeadIff` | src/domain/reconciler.rs:703-724 | All dropped jobs are dead under their own ids if and only if each such id on record is itself a dropped name, or was dead and is not filed anew |
| `SourcePass.OtherIdSurvives` | src/domain/reconciler.rs:660-724 | A single job created under another id than its name survives its removal |
| `SourcePass.TypeKeptIff` | src/domain/reconciler.rs:657-701 | Whatever the order, a run keeps a job's type if and only if every new entry with the job's id has that type |
| `SourcePass.TypeIsNeverUpdated` | src/domain/reconciler.rs:680-689 | Over any runs a job keeps its type, whatever type the flake gives it under its name, as long as no new entry brings another type for its id |
| `SourcePass.StaysFailedIff` | src/domain/reconciler.rs:634-640 | Over healthy runs a failed source stays failed, error and all, if and only if none sees a change; from the first that does on it is ready without an error |
| `SourcePass.RunKeeps` | src/domain/reconciler.rs:657-724 | A run leaves every record alone that it neither creates, updates nor buries |
| `SourcePass.PassKeeps` | src/domain/reconciler.rs:554-609 | So does a pass over all sources |
| `SourcePass.SourcesDoNotInterfere` | src/domain/reconciler.rs:554-609 | A record that one source alone writes, under its id or its name, ends as that source's run on its own may leave it |
| `Executor.Executor.StartAllocation` | src/client/executor.rs:37-121 | Succeeds exactly when the job has the group and every task starts. The allocation becomes what starting its tasks one by one makes of it, up to the first that fails; it is tracked, with those tasks, only on success |
| `Executor.StartKeeps` | src/client/executor.rs:56-116 | Running when all start, Failed when a driver refuses, unchanged in state when a driver is missing; no restart is counted |
| `Executor.StartLeaves` | src/client/executor.rs:54-115 | What one start leaves of each task: started ones run under their handles, the one a driver refuses is dead and the allocation Failed, where a driver is missing everything stays |
| `Executor.FirstGroupFound` | src/client/executor.rs:42-50 | Of groups of one name the first is meant |
| `Executor.FirstTaskFound` | src/client/executor.rs:246-251 | Of tasks of one name the first is meant |
| `Executor.StartRuns` | src/client/executor.rs:72-81 | When all start, each of its tasks is running afterwards |
| `Executor.Executor.StopAllocation` | src/client/executor.rs:123-155 | Always dropped from the running map; Complete, with all tasks dead and finished now and nothing else changed, exactly when every tracked driver exists |
| `Executor.Executor.CheckTaskHealth` | src/client/executor.rs:196-222 | One report per tracked task, with the state the driver gives; a missing driver or failed status call reads as dead |
| `Executor.Executor.RestartTask` | src/client/executor.rs:224-309 | Succeeds exactly when allocation, group and task are found, the driver exists and starts the task; then the task runs under the new handle with one restart more and nothing else changes; a failed start leaves the task untracked |
| `Passes.PlaceAndStart` | src/client/executor.rs:37-120 | A new allocation is stored and started; nothing else changes but its own tracked tasks |
| `Passes.MakeAllocation` | src/domain/allocation.rs:48-70 | A pending allocation with new task states under an unused id |
| `Passes.AdvancesTransitive` | src/domain/reconciler.rs:262-545 | What passes keep composes: allocations are only stopped or left alone, and new ones are the job's own on known nodes |
| `Passes.TracksTransitive` | src/client/executor.rs:37-155 | So does what the executor tracks: kept or dropped, never changed; what is new has all its drivers; and an allocation whose own tracked tasks have their drivers is dropped only when stopped |
| `Passes.StaysStoppable` | src/client/executor.rs:37-155 | Allocations whose drivers exist need no others later in a pass |
| `Passes.StartedDistinct` | src/client/executor.rs:54-115 | A started allocation is tracked under distinct names when the spec's are distinct |
| `Passes.ListingIsActive` | src/domain/reconciler.rs:284-294 | Counting in the listing counts exactly the active allocations of the group |
| `StateStore.Values` | src/domain/state_store.rs:60-63 | Lists each value of the map once |
| `StateStore.Store.PutJob` | src/domain/state_store.rs:49-53 | The job filed under its id, all others as before |
| `StateStore.Store.UpdateJob` | src/domain/state_store.rs:65-78 | The closure applied to a present job, which is returned; an absent one changes nothing and gives none |
| `StateStore.Store.PutAllocation` | src/domain/state_store.rs:80-84 | The allocation filed under its id |
| `StateStore.Store.UpdateAllocation` | src/domain/state_store.rs:106-119 | The closure applied to a present allocation, which is returned; an absent one changes nothing and gives none |
| `StateStore.Store.UpdateSource` | src/domain/state_store.rs:158-171 | The closure applied to a present source, which is returned; an absent one changes nothing and gives none |
| `StateStore.Store.ListAllocationsForJob` | src/domain/state_store.rs:96-104 | Exactly the job's allocations, each once |
| `Placement.PickNode` | src/domain/evaluation.rs:157-210 | Of the candidates that match and have the room, the first with the least sum of what would be left of CPU and memory as shares of the total under bin packing, the greatest under spread; none exactly when none suits |
| `Placement.NeverAgainstStrategy` | src/domain/evaluation.rs:177-199 | Of two suitable nodes of one size, one of which would keep more of a resource and no less of the other, bin packing never takes that one, and spread never the other |
| `Placement.PlaceGroup` | src/domain/evaluation.rs:87-146 | For a service or batch group, under either strategy, places exactly min(count, sum over nodes of what fits), gives no node more than it has, and each choice was the first best by remaining shares at its step |
| `Placement.GreedyCount` | src/domain/evaluation.rs:99-131 | Greedy placement, stopped by the count or by being stuck, places exactly that number |
| `Placement.PlaceableIsMaximum` | src/domain/evaluation.rs:99-131 | No assignment of at most `count` copies places more |
| `Placement.StuckDominates` | src/domain/evaluation.rs:121-129 | An assignment that cannot be extended has at least as many copies as any other |
| `Placement.CopiesIsQuotient` | src/domain/evaluation.rs:213-221 | What fits on a node is the tighter of the two quotients; a resource not requested never decides |
| `Placement.OneMoreFits` | src/domain/evaluation.rs:111-118 | A node suits exactly when one more copy fits in what it had, and then the saturating subtraction does not saturate |
| `Placement.EvaluateJob` | src/domain/evaluation.rs:72-149 | Group by group against rebuilt resources, every allocation on a ready, eligible node that, but for a system job, matches; nothing when no node is ready |
| `Placement.JobOnUsable` | src/domain/evaluation.rs:77-146 | Whatever the evaluator makes for a job is on a node that is ready, eligible and, but for a system job, matches |
| `Placement.OnEveryNode` | src/domain/evaluation.rs:88-101 | A system group gets one allocation on every ready node, resources not looked at |
| `Placement.Evaluate` | src/domain/evaluation.rs:44-70 | Every pending job is placed and all that is made is filed under its id; a pending job becomes running exactly when it or a job listed before it got an allocation in this evaluation |
| `Placement.SettleOne` | src/domain/evaluation.rs:60-66 | The status test looks at what all jobs so far were given |
| `RaftStateMachine.StateMachine.ApplyBatch` | src/cluster/raft_sm.rs:97-127 | Applies the entries in order with one response each, equal to the reference fold |
| `RaftStateMachine.StateMachine.ApplyCommand` | src/cluster/raft_sm.rs:185-507 | Every command updates the maps, histories and event ring in place exactly as the reference step |
| `RaftStateMachine.StateMachine.ApplyJob` | src/cluster/raft_sm.rs:187-252 | The job arms, rollback included (lines 354-387) |
| `RaftStateMachine.StateMachine.ApplySource` | src/cluster/raft_sm.rs:431-506 | The source arms |
| `RaftStateMachine.StateMachine.ApplyNodeOrAllocation` | src/cluster/raft_sm.rs:253-328 | The allocation and node arms, drain and eligibility included (lines 404-427) |
| `RaftStateMachine.StateMachine.Build` | src/cluster/raft_sm.rs:57-78 | The snapshot carries the whole state, its last applied id and membership |
| `RaftStateMachine.StateMachine.Current` | src/cluster/raft_sm.rs:158-182 | Offered exactly when something has been applied |
| `RaftStateMachine.StateMachine.Install` | src/cluster/raft_sm.rs:141-156 | The state becomes the snapshot's |
| `RaftStateMachine.StepAgrees` | src/cluster/raft_sm.rs:185-507 | Replicas that agree up to event ids, event times and reconcile times still agree after any command, and answer alike, whatever clocks and ids each reads |
| `RaftStateMachine.EntriesAgree` | src/cluster/raft_sm.rs:97-127 | The same for whole batches, membership and blank entries included |
| `RaftStateMachine.EntriesConcat` | src/cluster/raft_sm.rs:97-127 | Cutting a log into batches matters neither to the state nor to the answers |
| `RaftStateMachine.ReplicaIsOneBatch` | src/cluster/raft_sm.rs:97-156 | Any history of batches and snapshot installs leaves the replica where one batch of its whole log would |
| `RaftStateMachine.ReplicaStandsForLog` | src/cluster/raft_sm.rs:97-156 | A replica, however it came to be, holds exactly the state of the commands of its log, the id of the last entry and the last membership entry |
| `RaftStateMachine.AnswersInOrder` | src/cluster/raft_sm.rs:97-127 | Each entry is answered at its own place, as its command is in the state that the entries before it left |
| `RaftStateMachine.ReplicasAgree` | src/cluster/raft_sm.rs:97-156 | Two replicas standing for the same log agree on last applied id, membership and all state but those stamps, however each got there |
| `RaftStateMachine.ResponsesAgree` | src/cluster/raft_sm.rs:97-127 | Their answers to the next batch agree too |
| `JobHistory.EveryStateRemembers` | src/cluster/raft_sm.rs:187-252 | In every state reachable from empty, for every job: history and jobs have it together, the history is its submissions in order, and its version is the last submitted one plus effective status changes and rollbacks since |
| `JobHistory.HistoryRecords` | src/cluster/raft_sm.rs:187-212 | In every reachable state a job's history has one entry for each of its submissions in the log, in order, with that submission's version, whole spec, status and time |
| `JobHistory.RollbackIsBackTo` | src/cluster/raft_sm.rs:354-387 | In every reachable state: where the log has a submission of this version of the job, a rollback gives the job the groups, constraints and meta of the earliest one, the next version and status pending; its id, type, time of submission and hash stay, other jobs are untouched, and the answer is this job |
| `JobHistory.RollbackFindsNone` | src/cluster/raft_sm.rs:354-387 | Where it has none, the rollback changes nothing and answers that the version is not found, never that the job is |
| `JobHistory.JobStaysSubmitted` | src/cluster/raft_sm.rs:187-252 | From its last submission on, until a rollback, a job is what was submitted but for its status and version |
| `TableHistory.NodesAsLogged` | src/cluster/raft_sm.rs:299-427 | In every reachable state: a node is there exactly when its last registration comes after its last removal, as registered, and eligible as last set since |
| `TableHistory.AllocationsAsLogged` | src/cluster/raft_sm.rs:253-298 | An allocation is there exactly when it was put, as last put, with the state and task states of the last update since |
| `TableHistory.ReleasesAsLogged` | src/cluster/raft_sm.rs:388-403 | A release is there exactly when it was put, as last put, with the status of the last update since |
| `TableHistory.SourcesAsLogged` | src/cluster/raft_sm.rs:431-506 | A source is there exactly when it was put and not deleted since; status, error and time are those of the last update since, revision and managed jobs those of the last update that brought any |
| `TableHistory.ChunksAsLogged` | src/cluster/raft_sm.rs:329-353 | A node is listed for a chunk exactly when it was advertised after its last withdrawal; no chunk has an empty list |
| `TableHistory.HoldersInOrder` | src/cluster/raft_sm.rs:329-353 | The list is that of the advertisements not withdrawn since, in the order of the log, repeats included |
| `TableHistory.AnswersShowRecord` | src/cluster/raft_sm.rs:185-507 | Each command answers with the record as it now is, or with which record is missing and then changes nothing |
| `JobHistory.StepRemembers` | src/cluster/raft_sm.rs:185-507 | Every command keeps that invariant |
| `Cluster.FindVersion` | src/cluster/raft_sm.rs:357-363 | The earliest entry of the version |
| `InMemoryStore.StoreSimulatesRaft` | src/testing/store.rs:108-337 | On every sequence of commands both support the two agree on histories, allocations, nodes, releases and every job field but the version, which is ahead by exactly the repeated status writes since the last submission |
| `InMemoryStore.StepSimulates` | src/testing/store.rs:108-337 | One command keeps the simulation and gets the same kind of answer |
| `InMemoryStore.VersionsEqualIff` | src/testing/store.rs:144-170 | A job is identical in both exactly when no status was repeated |
| `EventKinds.KindsAgreeIff` | src/testing/store.rs:144-222 | The store reports exactly one event more for every repeated status or allocation state, and both report the same kinds of events in the same order if and only if no write was repeated |
| `EventKinds.RaftPushes` | src/cluster/raft_sm.rs:185-507 | Which kind of event, if any, each command pushes |
| `EventKinds.MemPushes` | src/testing/store.rs:108-337 | The same for the in-memory store |
| `EventKinds.ChangesShow` | src/cluster/raft_sm.rs:203-300 | What a subscriber sees of a change: a repeated write shows nothing; a job that becomes dead has stopped; an allocation has started, failed or completed; a source is suspended, resumed, failed or reconciled |
| `EventKinds.JobEventTells` | src/cluster/raft_sm.rs:187-252 | A job's event has the stamp's id and time and tells the version the job now has, and of a change what was and what is |
| `EventKinds.SourceEventTells` | src/cluster/raft_sm.rs:431-506 | The same for sources |
| `EventKinds.NodeEventTells` | src/cluster/raft_sm.rs:299-427 | The same for nodes |
| `EventKinds.AllocationEventTells` | src/cluster/raft_sm.rs:253-298 | The same for allocations |
| `EventKinds.MemEventTells` | src/testing/store.rs:108-285 | The store's events tell only whom they are about |
| `EventKinds.RaftRingShows` | src/cluster/raft_sm.rs:185-507 | The ring holds the end of the sequence of kinds reported |
| `EventKinds.MemRingShows` | src/testing/store.rs:108-337 | The same for the in-memory store |
| `InMemoryStore.Store.PutJob` | src/testing/store.rs:108-141 | Submits as the Raft arm does |
| `InMemoryStore.Store.UpdateJobStatus` | src/testing/store.rs:144-170 | Bumps the version and emits even when the status is unchanged |
| `InMemoryStore.Store.RollbackJob` | src/testing/store.rs:247-285 | Restores the earliest entry of the version |
| `InMemoryStore.Store.PutAllocation` | src/testing/store.rs:173-187 | Files the allocation and emits |
| `InMemoryStore.Store.UpdateAllocationState` | src/testing/store.rs:190-222 | Emits even when the state is unchanged |
| `InMemoryStore.Store.RegisterNode` | src/testing/store.rs:225-238 | Files the node and emits |
| `InMemoryStore.Store.EmitEvent` | src/testing/store.rs:241-244 | Pushes the event as it is |
| `InMemoryStore.Store.PutRelease` | src/testing/store.rs:288-292 | Files the release without an event |
| `InMemoryStore.Store.UpdateReleaseStatus` | src/testing/store.rs:295-309 | Changes the status of a known release only |
| `InMemoryStore.Store.DrainNode` | src/testing/store.rs:312-325 | Makes a known node ineligible and emits |
| `InMemoryStore.Store.SetNodeEligibility` | src/testing/store.rs:328-337 | Sets a known node's eligibility without an event |
| `RaftLog.LogStore.Append` | src/cluster/raft_log.rs:174-201 | The table with each entry filed under its own index |
| `RaftLog.LogStore.Truncate` | src/cluster/raft_log.rs:203-225 | Exactly the rows below the given index |
| `RaftLog.LogStore.Purge` | src/cluster/raft_log.rs:227-257 | Exactly the rows above the given index, and the purge point moves |
| `RaftLog.LogStore.GetLogState` | src/cluster/raft_log.rs:98-134 | The purge point, and the id of the last row, or the purge point when there is none |
| `RaftLog.LogStore.TryGetLogEntries` | src/cluster/raft_log.rs:74-92 | The rows of the range in ascending order |
| `RaftLog.TableRefinesLog` | src/cluster/raft_log.rs:174-257 | For every run in Raft's storage call order the table is an offset-plus-sequence log: its keys are exactly last purged + 1 to last, each entry under its own index |
| `RaftLog.LogStateIsEnd` | src/cluster/raft_log.rs:98-134 | The reported state is the end of that log, even when a purge has passed its last entry |
| `RaftLog.ReadIsSlice` | src/cluster/raft_log.rs:74-92 | A range read is the exact slice, in order |
| `LispEval.Interpreter.Eval` | tatara-eval/src/interpreter.rs:93-131 | `Evolves`, for every form: no thunk body is started twice, a forced cell never changes, a cell being evaluated when the call begins still is when it ends, no forced cell holds a thunk, and an unevaluated cell keeps body and environment until started |
| `LispEval.Interpreter.EvalSpecial` | tatara-eval/src/interpreter.rs:101-125 | `Evolves`, whichever special form it is |
| `LispEval.Interpreter.EvalCall` | tatara-eval/src/interpreter.rs:119-128 | `Evolves`, over head, arguments and application, whichever fails |
| `LispEval.Interpreter.EvalBody` | tatara-eval/src/interpreter.rs:374-382 | `Evolves`, over all forms of a body |
| `LispEval.Interpreter.EvalLet` | tatara-eval/src/interpreter.rs:228-260 | `Evolves`, with the bindings before the body |
| `LispEval.Interpreter.EvalLetrec` | tatara-eval/src/interpreter.rs:262-310 | `Evolves`, although its new cells are re-parented after they are made |
| `LispEval.Interpreter.EvalDefine` | tatara-eval/src/interpreter.rs:330-347 | `Evolves`, although the root is extended |
| `LispEval.Interpreter.Quasi` | tatara-eval/src/interpreter.rs:164-199 | `Evolves`, through nested templates |
| `LispEval.Interpreter.QuasiItems` | tatara-eval/src/interpreter.rs:170-197 | `Evolves`, splices included |
| `LispEval.Interpreter.EvalAll` | tatara-eval/src/interpreter.rs:119-128 | `Evolves`, left to right, and one value for each form |
| `LispEval.Interpreter.EvalLogic` | tatara-eval/src/interpreter.rs:353-372 | `Evolves`, up to the value that decides |
| `LispEval.Interpreter.EvalIf` | tatara-eval/src/interpreter.rs:211-226 | `Evolves`, through the test and one branch |
| `LispEval.Interpreter.LetBindings` | tatara-eval/src/interpreter.rs:233-257 | `Evolves`, each value in the outer environment |
| `LispEval.Interpreter.Enter` | tatara-eval/src/interpreter.rs:395-442 | `Evolves`, for builtins and closures |
| `LispEval.Interpreter.ForceAll` | tatara-eval/src/interpreter.rs:385-392 | `Evolves`, left to right, and one value for each argument |
| `LispEval.Interpreter.RunThunk` | tatara-eval/src/interpreter.rs:459-465 | `Evolves`, and what it answers is not a thunk |
| `LispEval.Interpreter.Apply` | tatara-eval/src/interpreter.rs:384-409 | `Evolves`, with the arguments forced before the function |
| `LispEval.Interpreter.Force` | tatara-eval/src/interpreter.rs:445-467 | `Evolves`, although it marks the cell before and after its body; a body that fails leaves it marked, and what it answers is never a thunk |
| `LispEval.AllocLetrec` | tatara-eval/src/interpreter.rs:284-308 | One new unevaluated cell per binding, in the environment that binds every name to its cell |
| `LispSyntax.LookupLoop` | tatara-eval/src/env.rs:36-46 | The loop over parents finds the innermost binding |
| `LispLockstep.EvalLock` | tatara-eval/src/interpreter.rs:93-131 | Mutual induction over the whole evaluator: more fuel and any other root change neither outcome nor heap, and both roots gain the same frames |
| `LispLockstep.ForceLock` | tatara-eval/src/interpreter.rs:445-467 | The same for forcing |
| `LispLockstep.ApplyLock` | tatara-eval/src/interpreter.rs:384-442 | The same for application |
| `LispLockstep.FuelMonotone` | tatara-eval/src/interpreter.rs:93-131 | Once some fuel gives an answer, all larger fuel gives that same answer and state |
| `LispLockstep.RootIrrelevant` | tatara-eval/src/interpreter.rs:81-131 | From any two roots the same form, environment and heap give the same outcome and heap, and both roots are extended alike |
| `LispLockstep.DefineCannotChangeClosure` | tatara-eval/src/interpreter.rs:330-347 | A definition made after a closure was created cannot change what calling it does |
| `LispLockstep.ForcedIsCached` | tatara-eval/src/interpreter.rs:451-455 | After any further evaluations a forced thunk answers the same value, and forcing it again changes nothing |
| `LispLockstep.FailedForcePoisons` | tatara-eval/src/interpreter.rs:456-463 | A thunk whose body failed reports a cycle at every force after any further evaluations |
| `LispLet.LetIsAppliedLambda` | tatara-eval/src/interpreter.rs:228-260 | A well-formed `let` equals the immediately applied `lambda`, outcome, heap, definitions and starts, at every fuel, when no name is a rest marker and no bound value is a thunk |
| `LispLet.SameEnvironmentIff` | tatara-eval/src/interpreter.rs:384-409 | The two bodies see the same environment exactly when no bound value is a thunk |
| `LispLet.LetKeepsThunk` | tatara-eval/src/interpreter.rs:228-260 | `let` binds a thunk as it is |
| `LispLet.CallForcesThunk` | tatara-eval/src/interpreter.rs:384-409 | A call forces it, so the condition cannot be dropped |
| `LispLet.IfSelects` | tatara-eval/src/interpreter.rs:211-226 | A three-armed `if` evaluates its test once and then exactly the branch its truth selects |
| `LispLet.ThunkIsTrue` | tatara-eval/src/interpreter.rs:218-219 | A test that is a thunk selects the first branch and is not forced |
| `LispForms.BeginNothing` | tatara-eval/src/interpreter.rs:374-380 | A `begin` of nothing is nil |
| `LispForms.BeginOne` | tatara-eval/src/interpreter.rs:374-380 | Of one form it is that form |
| `LispForms.BeginMore` | tatara-eval/src/interpreter.rs:374-380 | Of more it is the failure of the first, or the `begin` of the rest in the state the first left |
| `LispForms.DoIsBegin` | tatara-eval/src/interpreter.rs:113 | `do` is `begin` |
| `LispForms.CallRuns` | tatara-eval/src/interpreter.rs:120-126 | A call evaluates head and arguments once each, left to right, and applies the first value to the others |
| `LispForms.CallFails` | tatara-eval/src/interpreter.rs:120-126 | The first of them that fails is the answer |
| `LispForms.BuiltinApplied` | tatara-eval/src/interpreter.rs:384-404 | A builtin is called with the forced arguments, if their number is right |
| `LispForms.ClosureApplied` | tatara-eval/src/interpreter.rs:405-442 | Applying a closure, all arguments forced first, is a `begin` of its body in the closure's environment extended by its parameters, the rest parameter as a list; another number of arguments is refused |
| `LispForms.ClosureSteps` | tatara-eval/src/interpreter.rs:411-442 | Calling a closure of several forms is the first form, and unless it fails the closure of the others called in the state it left |
| `LispForms.LetRuns` | tatara-eval/src/interpreter.rs:228-260 | `let` evaluates the expressions in order in the outer environment, then a `begin` of the body where every name means its value |
| `LispForms.LetFails` | tatara-eval/src/interpreter.rs:228-260 | The first of them that fails is the answer |
| `LispForms.LetrecRuns` | tatara-eval/src/interpreter.rs:262-310 | `letrec` evaluates nothing before a `begin` of the body, in an environment where every name is a new cell that holds its expression and that environment |
| `LispForms.AndRuns` | tatara-eval/src/interpreter.rs:353-362 | `and` answers the first nil or false without going on, or the last value |
| `LispForms.OrRuns` | tatara-eval/src/interpreter.rs:364-372 | `or` answers the first value that is neither nil nor false without going on, or false |
| `LispForms.LogicOfNothing` | tatara-eval/src/interpreter.rs:353-372 | Of nothing they are true and false |
| `LispForms.IfRuns` | tatara-eval/src/interpreter.rs:211-226 | One test, then one branch; nil where there is no second |
| `LispForms.DefineRuns` | tatara-eval/src/interpreter.rs:330-347 | The value is answered and means the name in the root from then on; every other name, the heap and the starts are as the value left them |
| `LispForms.LambdaRuns` | tatara-eval/src/interpreter.rs:312-328 | A lambda closes over the environment it is evaluated in, with the name behind a rest marker for what is left over |
| `LispForms.QuoteRuns` | tatara-eval/src/interpreter.rs:201-209 | Quoting, in either spelling, answers the form as data, item by item |
| `LispForms.AtomRuns` | tatara-eval/src/interpreter.rs:133-145 | An atom is itself; a symbol is what it means, or unbound |
| `LispForms.OnlyTheseAreSpecial` | tatara-eval/src/interpreter.rs:106-116 | Eleven names are special in head position, and no others |
| `LispForms.QuasiListRuns` | tatara-eval/src/interpreter.rs:168-189 | A template's items are filled in left to right: a splice contributes the elements of its list in order, any other item itself, in front of the rest |
| `LispForms.QuasiItemRuns` | tatara-eval/src/interpreter.rs:164-199 | In a template an unquoted form is evaluated and other data is quoted; a splice outside a list is refused |
| `LispForms.ForceRuns` | tatara-eval/src/interpreter.rs:456-463 | A cell is marked, its body evaluated in its own environment and what comes out forced; then the value is kept, or, after a failure, the mark |
| `LispForms.ForceAnswers` | tatara-eval/src/interpreter.rs:445-455 | A forced cell answers its value, one being evaluated a cycle, any other value itself |
| `LispErrors.ShapeRefused` | tatara-eval/src/interpreter.rs:201-347 | A special form of the wrong shape is refused under its name before anything is evaluated |
| `LispErrors.LambdaReads` | tatara-eval/src/interpreter.rs:470-501 | A lambda is made exactly when its parameters are names, or names, a rest marker and one more name, and then with these |
| `LispErrors.LetRefuses` | tatara-eval/src/interpreter.rs:240-258 | A `let` evaluates the bindings before the first that is no name with one expression, and refuses there |
| `LispErrors.LetrecRefuses` | tatara-eval/src/interpreter.rs:269-283 | A `letrec` reads all bindings first: the first without a name is refused, and one that is too short panics |
| `LispErrors.NotCallable` | tatara-eval/src/interpreter.rs:405-409 | Only builtins and closures can be called |
| `LispErrors.ApplyFails` | tatara-eval/src/interpreter.rs:384-395 | The first argument that cannot be forced, or then the function, is the failure |
| `LispLetrec.LetrecSeesSiblings` | tatara-eval/src/interpreter.rs:284-308 | With distinct names every cell's environment resolves every sibling to its cell |
| `LispLetrec.BindingsRoundTrip` | tatara-eval/src/interpreter.rs:262-283 | Reading back the printed bindings gives the bindings |
| `LispLetrec.EvenOddComputesParity` | tatara-eval/src/interpreter.rs:566-576 | For every natural number of i64 the mutually recursive even?/odd? program answers its parity, from any heap and root, with fuel linear in the number |
| `LispLetrec.SubtractOne` | tatara-eval/src/builtins.rs:77-87 | Subtraction of one does not wrap on positive i64 numbers |
| `LispSyntax.SubtractMeans` | tatara-eval/src/builtins.rs:77-87 | Subtraction answers the first number less all the others, of one number the negation, up to a multiple of 2^64 |
| `LispSyntax.SubtractFails` | tatara-eval/src/builtins.rs:77-87 | Its first argument that is no number is a type error |
| `LispSession.Session.RunForms` | tatara-eval/src/interpreter.rs:73-79 | Forms in sequence, each in the root left by the last; over the session no body is started twice and no forced cell changes |
| `LispSession.DefineCapturesOldRoot` | tatara-eval/src/interpreter.rs:312-347 | A top-level `define` of any lambda binds the name, on top of the root, to a closure over the root from before |
| `LispSession.BodySeesOldRoot` | tatara-eval/src/interpreter.rs:411-442 | Inside its body, for any arguments and state, the defined name means what it meant in the old root unless it is a parameter; it is unbound there if and only if the old root lacks it |
| `LispSession.RecursiveDefineIsUnbound` | tatara-eval/src/interpreter.rs:73-79 | In particular defining a function by a call of itself and then calling it fails |
| `Chunks.FromData` | src/p2p/chunk.rs:46-67 | The root is the hash of the data, the total its length, and the pieces, in order and each listed under its hash, make up the data |
| `Chunks.PiecesConcat` | src/p2p/chunk.rs:46-67 | Splitting loses nothing, for any length |
| `Chunks.Reassemble` | src/p2p/chunk.rs:69-103 | The loop computes just what `ReassembleSpec` does, stopping at the first mismatch |
| `Chunks.FirstMismatch` | src/p2p/chunk.rs:69-103 | What goes wrong is named: a wrong number of chunks first, then the first chunk that is not the one listed or is damaged, then the root |
| `Chunks.ReassembleSpec` | src/p2p/chunk.rs:69-103 | Whatever is assembled hashes to the manifest's root |
| `Chunks.SplitThenReassemble` | src/p2p/chunk.rs:46-103 | Splitting and reassembling is the identity |
| `Transfer.DataCache.PutChunk` | src/p2p/cache.rs:39-55 | Stored under its hash, on disk and in the index, exactly when it matches it |
| `Transfer.DataCache.GetChunk` | src/p2p/cache.rs:57-84 | A good chunk is answered as it is; one not indexed is missing, one indexed without its file is an error; one that fails its hash is dropped from index and disk and reported missing; otherwise nothing changes |
| `Transfer.DataCache.ManifestCompleteness` | src/p2p/cache.rs:128-136 | Exactly how many of the listed chunks the index has |
| `Transfer.DataCache.StoreData` | src/p2p/cache.rs:139-160 | Every piece is on disk under its hash and the manifest under its root |
| `Transfer.DataCache.RetrieveData` | src/p2p/cache.rs:163-177 | What is retrieved hashes to the manifest's root |
| `Transfer.FetchChunkFromPeers` | src/p2p/transfer.rs:150-211 | Holders are asked in turn; the first body with the right hash is stored, and succeeds, unless a broken one comes before it |
| `Transfer.Fetch` | src/p2p/transfer.rs:58-137 | With no assumption on cache or peers, what it returns hashes to the root |
| `Transfer.TasksRun` | src/p2p/transfer.rs:85-125 | Parallel chunk fetches, in any order of completion: all succeed exactly when each would alone, and good chunks stay good |
| `Transfer.ReadAllIff` | src/p2p/cache.rs:163-171 | Reading succeeds exactly when every listed chunk is good |
| `Transfer.RetrieveEnds` | src/p2p/cache.rs:163-177 | Retrieving changes nothing while the chunks are good; the first that is not ends it, incomplete or, when its file is gone, failed |
| `Transfer.MissingIff` | src/p2p/transfer.rs:68-83 | What is fetched are the listed chunks not in the index, each as often as it is listed |
| `Transfer.AskIsFirst` | src/p2p/transfer.rs:150-211 | Which holder's answer is taken |
| `Transfer.RetrieveIff` | src/p2p/cache.rs:163-177 | Retrieving the manifest of some data gives that data exactly when every chunk is good |
| `Transfer.FetchIff` | src/p2p/transfer.rs:58-137 | Fetching gives exactly the data if and only if every chunk the index claims is good on disk and every missing one is found at some holder |
| `Transfer.PublishThenFetch` | src/p2p/transfer.rs:35-137 | Data published at one node and fetched at another comes back unchanged: any length, any completion order, without hash collisions and with the publisher among the holders asked |
| `EventRing.RingHoldsTail` | src/domain/event.rs:151-163 | After any pushes the ring holds exactly the last min(n, capacity) events in order; capacity 0 behaves as 1 |
| `EventRing.FilterMembers` | src/domain/event.rs:170-182 | A query answers exactly the events in the ring that match |
| `EventRing.EventStream.Poll` | src/api/rest.rs:341-353 | One poll sends what lies past the cursor |
| `EventRing.CompleteWhileHeld` | src/api/rest.rs:339-355 | While no matching event has been evicted the stream has sent each exactly once, in order |
| `EventRing.StreamCompleteIff` | src/api/rest.rs:339-355 | The stream has sent every matching event exactly when some poll found all of them still in the ring |
| `EventRing.CursorIsLargest` | src/api/rest.rs:343-353 | The cursor is the largest number of matching events any poll has seen |

## Left out

- Consensus, elections, votes (`save_vote`, `read_vote`), gossip and discovery: Raft's storage call order is a precondition of the log's theorems.
- JSON, the embedded database's encoding and the state file: encoding then decoding is the identity, and writing never fails, so the error returns of `put_*` and `update_*` that stem from persistence do not occur. Likewise the chunk cache's directory and file writes never fail (src/p2p/cache.rs:44-50).
- Widths: versions, counts, tick and restart counters are unbounded; log indexes are 64-bit and the evaluator's i64 arithmetic wraps.
- Rounding: placement scores and Lisp floats are exact reals, without NaN.
- Constraint matching in placement: any predicate on nodes. The optimality results hold for each.
- Error texts: an error is identified by its kind and ids; for sources the text is whatever the failing call gave.
- A period of 0: `tick_count % 0` (src/domain/reconciler.rs:94, 103) panics and ends the loop as soon as the pass is enabled (and, for drift, a job is not dead). `JobPasses.Config.Valid` excludes it for an enabled pass.
- Delays and timeouts: the restart delay, stop timeouts and the polling interval pass no modelled time; a tick or pass has one clock reading.
- Allocation directories, process signals, and the drivers: a start or status call has an arbitrary outcome.
- Uniqueness of random ids: the reconciler's new allocations get an id that is not in use; `Placement.Evaluate` makes no such assumption.
- Interleaving inside a tick: the scheduler and API do not write between the passes of one tick.
- Lisp builtins: an arbitrary function of forced arguments, fixed only to `=` and `-` where the parity program needs them; `derivation`, the system builtins and the reader are not modelled. A builtin cannot make thunks of its own accord that point outside the heap; a dangling address answers an error that the original cannot meet.
- Spread of replacements over nodes: the count pass reads its loads from one listing, so `CountPass.ReconcileCount` states that listing's minimum and no balance.
- Resource bounds across groups: the evaluator rebuilds what is available for every group.
- The cluster state's own `last_applied_log` field, which nothing writes.
- Recovery after a restart once log entries are purged, and snapshots on disk.
- HTTP, gRPC, GraphQL, the command line and the user interfaces, apart from the event stream's polling loop.
- SourcePass.ManagedJobsFollowFlake: speaks of groups, constraints and meta only, because these are what an update copies.
- Reconciler.Reconciler.Run: for a job whose groups change it keeps only that terminal allocations stay terminal, because new groups may allow fewer restarts than were made.
- HealthPass.FailsWithinAttempts: speaks of successive health passes over one allocation; `Reconciler.Reconciler.Run` carries it to whole ticks, where it may end by a stop or a lost node instead.
- `check_health`, the executor's coarser health call outside the reconciler, which marks dead tasks in the store.

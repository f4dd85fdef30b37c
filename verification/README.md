# rmig: a verified model of the migration engine

`rmig` brings SQL Server databases to the state a repository describes. This
project models, in Dafny, the parts of it whose guarantees span whole runs, and
proves those guarantees. `dafny verify dfyconfig.toml` checks everything.

Each core is modelled in the form its source has: connections, results, plans,
workspaces, caches and the daemon are classes whose methods change fields and run
loops; decisions and record lists are functions; concurrency is a step system over
which invariants are proved for every sequence of events.

| files | what they model |
|---|---|
| `Server`, `Client`, `HistoryWrite` | what SQL Server does with each statement, the order in which the executor sends them, and the five-statement transaction that commits a script with its audit rows |
| `Units`, `Transitions`, `Modules`, `Objects`, `Execute` | the apply phases, with every statement free to fail, time out or take effect anyway |
| `Protocol`, `ProtocolLink`, `Refinement` | any number of migrators on one server: lock, plan, filter, apply, kill, disconnect; that the planner's plans and everything the executor sends are runs of it |
| `Planner`, `Scope`, `Filter`, `AuditLoad` | the diff and its warm re-run, scoped inspection, the history filter, reading the history back |
| `PlanDb` | the database phase of a plan and its five caches |
| `TamperCheck` | the digests a run records and the digests the history filter compares |
| `Convergence`, `ApplyRun` | what a finished migrate or repair-checksum leaves for the next plan, end to end |
| `Daemon` | the session daemon: one warm connection, many clients |
| `SubWorkspace`, `TransitionOrder`, `Arena`, `DatabaseNames`, `CaseVariants` | dense workspaces, the per-database sub-workspaces, transition order, the string arena, database names up to case, and a tree with two spellings of one name |
| `Merge`, `Encoders` | folding per-database plans; the JSON key list and the layout-digest input |
| `SqlIdent` | names on paths and in statements, and the statement that creates a schema |
| `Prelude`, `Domain`, `Sorting` | shared datatypes, object kinds and actions, stable sorting |

Statements end in one of three ways (`Server.Outcome`): done; an error, with or
without its effect, the transaction aborted or not; or no answer in time, which
costs the connection. The apply methods hold for every function that decides these
outcomes. Digests are numbers and 0 is the all-zero digest, which means "no
baseline" everywhere. A fingerprint of a live definition is a number too; hashing
is not looked into.

Assumed of repositories and servers, and written out as preconditions or in the
model of the server: a script changes the definition of its own object only
(`Units.OwnBodies`, `ApplyRun.OwnsBodies`); an audit insert captures the definition
the object has at that moment; files have non-zero digests and objects distinct
keys (`Convergence.ProperLayout`); nobody but migrators writes the audit tables.

## Where a promise does not hold as stated

Each has a counterexample and the exact condition under which the promise holds.

- A transition script that commits the executor's transaction is committed again by
  the next run. Without such scripts no script is ever committed twice
  (`Protocol.RunsAreSafe`, and of the executor itself `Refinement.MigrateSafely`); with
  one, two migrators in turn do it (`Protocol.SelfCommittingScriptRunsTwice`). Scripts
  that commit and open a transaction again are among those excluded; see "Left out".
- A changed table whose transitions are all applied already stays changed after a
  successful migrate, and no other object does (`Convergence.Converges`,
  `Convergence.StuckExample`).
- `repair-checksum` does not repair the undecodable checksum of an object that is
  absent from the database, although the error message sends the operator there; the
  next plan is refused if and only if there is one (`Convergence.RepairSettles`,
  `Convergence.UnrepairableExample`).
- The daemon's cleanup releases one reference to the advisory lock, which is
  reference counted; a client that left two leaves the lock held on the idle
  connection. In every run the idle connection is clean if and only if no request has
  run yet or the last cleanup met at most one reference; a request leaves an absolute
  count, so earlier cleanups do not matter (`Daemon.RunsAreIsolated`,
  `Daemon.SecondReferenceStays`).
- Two spellings of one database directory are one database under its first spelling.
  - Of two transition lists staged for one table below both, one is lost. Nothing is
    lost if and only if no two staged tables with a row agree in key, in directory up
    to case, and not in their files
    (`TransitionOrder.TransitionStaging.CompactTransitions`,
    `TransitionOrder.CaseVariantsLoseAList`).
  - The scan panics with "arena missing string". It does so if and only if some path,
    once the database's directory is put in front of it, is none of the workspace's
    own strings (`Arena.WorkspaceStrings.InternAndCache`, `Arena.CaseVariantPanics`);
    paths below the directory the database is known by are safe
    (`Arena.WorkspaceStrings.PrefixedPathsAreStrings`).
  - The sub-workspace of the database drops a transition script that is neither below
    that directory nor an object's own script. An object means there what it means in
    the whole workspace if and only if all its transition scripts are held and its
    recorded parent, if any, is an object of the database
    (`SubWorkspace.ForCatalogDatabase`). A tree that the scan accepts and that loses a
    transition this way: `Sales/dbo/tables/t.sql` with the transition
    `dbo/tables/_migrations/t/001_abcdef0_x.sql` below `sales` and once more below
    `Sales/sales` (`CaseVariants.ScanSurvives`, `CaseVariants.OtherListMayWin`,
    `CaseVariants.SubWorkspaceLosesIt`).
- Scoped inspection plans like full inspection if and only if every object taken to
  exist does (`Scope.ScopedPlanIsFullPlan`, `PlanDb.PlanPhase.LoadCatalog`).

## Model

| member | source | states |
|---|---|---|
| `HistoryWrite.TimingConn.Exec` | crates/core/src/driver/timing.rs:51-70 | a statement has the effect its outcome gives it; a timeout costs the client and later calls have no effect |
| `HistoryWrite.RollBack` | crates/core/src/apply/history_write.rs:76-86 | nothing is committed; a failed rollback is reported before the error itself and marks the connection |
| `HistoryWrite.RunInTx` | crates/core/src/apply/history_write.rs:45-66 | success means the body left the transaction open and body and rows are committed together; otherwise all or nothing, or the bare effects of a self-committing body |
| `HistoryWrite.ApplyInTx` | crates/core/src/apply/history_write.rs:37-74 | for every outcome of the five statements: what may be committed, which errors are recorded, `failed` equals the number of errors, no transaction is left over unless the rollback failed; and what reached the server is exactly what the executor's order of statements says |
| `HistoryWrite.CommitHistory` | crates/core/src/apply/history_write.rs:10-35 | adoption rows are committed as a whole or not at all; only if every object exists |
| `HistoryWrite.CommittedTogether` | crates/core/src/apply/history_write.rs:37-86 | a body that leaves the transaction open has its effects committed if and only if its rows are; any other body never gets a row |
| `Transitions.ApplyOneTransition` | crates/core/src/apply/transitions.rs:30-80 | without an error the script and its rows, the last one with the table's baseline, are committed as one unit; on an orderly server exactly if the file is unchanged, leaves the transaction open and finds its needs |
| `Transitions.ApplyTransitions` | crates/core/src/apply/transitions.rs:9-28 | what is committed is the units of the first steps in order, plus at most the bare effects of one self-committing script; all of them without failure; the transcript works the plan's jobs off in order; on an orderly server nothing fails if and only if every table's files are sound and each table finds its needs in its turn |
| `Transitions.CommittedUnedited` | crates/core/src/apply/transitions.rs:30-80 | only files that are still what the scan saw are committed, each as its own step |
| `Modules.ExecObject` | crates/core/src/apply/objects_exec.rs:15-51 | an object's unit is committed whole or not at all, and exactly if its needs are met on an orderly server |
| `Modules.TryModule` | crates/core/src/apply/modules.rs:20-43 | an ordinary failure is taken back out of the result; a failed rollback stops and stays recorded; `failed` equals the number of errors throughout |
| `Modules.OnePass` | crates/core/src/apply/modules.rs:19-45 | one pass splits the batch into applied and set aside, in order, with one error per module set aside; on an orderly server it commits the units of the applied ones, in order, and nothing else |
| `Modules.ApplyModules` | crates/core/src/apply/modules.rs:9-53 | ends; every module is applied once or left with one error; on an orderly server what is committed is one unit for each applied module, in order, the live objects become the least set closed under the batch, and a module is applied if and only if its needs are in it |
| `Modules.LeastWhateverTheOrder` | crates/core/src/apply/modules.rs:9-53 | the outcome does not depend on the order of the batch |
| `Modules.ChainGrows` | crates/core/src/apply/modules.rs:16-51 | every pass only adds what any closed set must contain; a pass without progress proves the rest inapplicable |
| `Objects.FlushTx` | crates/core/src/apply/objects.rs:93-110 | what is committed is the units of the first objects of the sorted batch, in order, plus at most one attempt more; without failure every object has its unit; on an orderly server nothing fails exactly if each object finds its needs among what was there and what came before it |
| `Objects.DependencyOrder` | crates/core/src/apply/kind.rs:13-31 | a sorted batch follows the documented order of kinds, and keys within a kind |
| `Objects.ApplyObjects` | crates/core/src/apply/objects.rs:13-65 | adoptions first, then the transactional batch in rank order, and modules only once all of it is there; without failure every object to apply has its unit, every adopted one exists and none failed closed; on an orderly server the phase finishes if and only if the adopted objects exist, the batch finds its needs in its order, and every module can be reached from there in some order |
| `Execute.ChangesAreSeenTo` | crates/core/src/apply/objects.rs:29-42 | no change is skipped in silence: its transitions run, or it is a table that has none left, or the run fails |
| `Objects.BatchKinds` | crates/core/src/apply/objects.rs:22-63 | which kinds go to the transactional batch and which to the modules |
| `Objects.BatchMembers` | crates/core/src/apply/objects.rs:22-63 | the batches and adoption rows hold exactly the objects with those actions |
| `Execute.ApplySchemas` | crates/core/src/apply/schemas.rs:8-42 | stops at the first schema that fails; without failure a statement was sent for each schema to create, in order, and for no other, and every name is a valid identifier; no script runs |
| `SqlIdent.CreateSchemaReadsBack` | crates/core/src/apply/schemas.rs:38-56 | whatever the name holds, quotes and brackets included, a server that reads the statement finds that very name in the probe and in the command, and nothing after it |
| `SqlIdent.ReadsBack` | crates/core/src/sql_ident.rs:57-71 | a text quoted by doubling its closing character reads back as itself, whatever follows |
| `SqlIdent.ComponentMeans` | crates/core/src/sql_ident.rs:16-38 | a name passes if and only if, joined to any directory, it names an entry of that very directory, and holds no NUL |
| `SqlIdent.ValidatePathComponent` | crates/core/src/sql_ident.rs:20-38 | the checks and the scan of the characters together decide just that |
| `SqlIdent.BuildCreateSchemaSql` | crates/core/src/sql_ident.rs:61-71 | a statement is built exactly for names of at most 128 characters that pass |
| `Execute.ExecutePlan` | crates/core/src/apply/mod.rs:49-79 | refused exactly when blocked; whatever happens, what is committed is a prefix of the transitions followed, only if all of them are, by object units, and so is what was sent; without failure everything, after the bootstrap and the schemas; after a failed rollback no body is sent and the ending says so; on an orderly server it finishes if and only if names, transitions and objects allow it |
| `Execute.Finish` | crates/core/src/apply/mod.rs:81-103 | recorded errors alone decide the ending; the catalog cache is dropped exactly if something was applied |
| `Execute.ExecuteMetadataPlan` | crates/core/src/apply/metadata.rs:26-61 | no body is ever sent; live objects and migration rows never change; the rows written are exactly those of the command, as a whole or not at all |
| `Execute.RewriteMembers` | crates/core/src/apply/metadata.rs:33-52 | baseline and repair-checksum rewrite exactly the objects with their actions, and only object rows |
| `Execute.RewritesMean` | crates/core/src/apply/metadata.rs:33-52 | the rows, action by action: adoption for both commands, the changed and blocked ones for repair only |
| `Protocol.RunsAreSafe` | crates/core/src/engine/apply_run.rs:19-61 | over every run of any number of migrators with any failures: no transition is committed twice or without its row, applied paths come first in every table, and from the plan to the release, transitions and objects alike, the migrator holds the lock and the history is the planned one plus its own rows; the transitions left to run are unapplied |
| `Protocol.RerunResumes` | crates/core/src/export/materialize/filter.rs:61-91 | in every reachable state filtering a table's list leaves exactly its part from the first unapplied path on |
| `Protocol.SelfCommittingScriptRunsTwice` | crates/core/src/apply/history_write.rs:37-74 | any pending script that commits the transaction is committed twice by two runs without a single server failure |
| `Protocol.LockGoesOn` | crates/core/src/engine/apply_run.rs:19-45 | a migrator that holds the lock can give up between any two scripts, and the next one gets the lock |
| `Protocol.NextKeeps` | crates/core/src/lock/mod.rs:53-73 | every event keeps the invariant: one critical migrator, its plan exact, its open transaction in step with its position |
| `Protocol.FilterMatches` | crates/core/src/export/materialize/filter.rs:61-91 | filtering under the lock leaves exactly the unapplied jobs, in list order |
| `Protocol.CommitKeepsConsistent` | crates/core/src/apply/history_write.rs:60-66 | committing the next job keeps scripts distinct, recorded and in order |
| `ProtocolLink.TransitionsAreHonest` | crates/core/src/apply/transitions.rs:50-78 | the jobs of the apply phase's units are what the protocol assumes of a job, exactly if the script does not commit the transaction |
| `ProtocolLink.PlansAreProper` | crates/core/src/apply/transitions.rs:9-48 | the jobs of a plan, built from the tables' own lists, are honest, of distinct paths and in the order of all lists in use, exactly if none of its scripts commits the transaction |
| `ProtocolLink.PlannerMeetsProtocol` | crates/core/src/plan/diff.rs:28-95 | the same for every plan the planner makes of a layout, whatever the database's facts are: the premise of the protocol theorem holds of the engine's own plans |
| `ProtocolLink.RunsFollowTheirPlans` | crates/core/src/export/materialize/filter.rs:61-91 | in every reachable state, editing the path lists of the plan's rows in place leaves exactly the jobs that the protocol's filter leaves: same scripts, same audit rows, the table's baseline still with its last one |
| `ProtocolLink.VersionsAgree` | crates/core/src/apply/table_records.rs:7-55 | versions of a repository that only add tables and append transitions may run against one database: none reorders what another has listed |
| `ProtocolLink.OneVersionAgrees` | crates/core/src/apply/table_records.rs:7-55 | one repository whose tables share no transition and list none twice agrees with itself |
| `ProtocolLink.ObjectRowsAreWhole` | crates/core/src/apply/table_records.rs:7-55 | a created table's rows list every earlier transition of each one they list, in this and in any agreeing version's list, so the object phase leaves no gap |
| `ProtocolLink.CreatedOwesNothing` | crates/core/src/apply/table_records.rs:7-55 | after a table is created the filter drops its whole list: its old transitions are never run against it |
| `Planner.Workspace.InvalidateCatalogFacts` | crates/core/src/domain/workspace/catalog.rs:12-20 | no catalog fact and no prior digest survives |
| `Planner.Workspace.ApplyCatalogIfNeeded` | crates/core/src/plan/scope.rs:27-33 | facts already applied stay; otherwise existence and parents are exactly those of the catalog |
| `Planner.Workspace.ApplyChecksumsIfNeeded` | crates/core/src/plan/scope.rs:36-48 | prior digests already applied stay; otherwise they are exactly those of the checksum map |
| `Planner.ResolveMeans` | crates/core/src/plan/scenario_resolve.rs:31-113 | the decision table: when each of the seven actions is planned, and only then |
| `Planner.DecideObjectAt` | crates/core/src/plan/diff_decide.rs:7-51 | the row adds one to exactly one of the four action counters, chosen by whether it is absent, untracked, unchanged or edited; it blocks the plan, and is reported with the reason, its key and its table's row, exactly if it is edited and nothing can be done about it: drifted or structural and no module, a table without transitions, a trigger whose table is not settled |
| `Planner.TriggerStopped` | crates/core/src/plan/scenario_resolve.rs:31-113 | a changed trigger is stopped exactly if the table it sits on is not managed, does not exist or has no baseline |
| `Planner.SchemasMean` | crates/core/src/plan/diff.rs:28-66 | a schema is created exactly if the database does not list its normalized name |
| `Planner.SideTablesMean` | crates/core/src/plan/diff_object.rs:14-54 | path lists stand at exactly the tables to reprocess, provenance at exactly the rows that are not skipped |
| `Planner.CountersMean` | crates/core/src/plan/diff_decide.rs:31-42 | each counter of the summary is the number of rows the facts put there |
| `Planner.BlockersName` | crates/core/src/plan/diff_decide.rs:31-51 | a blocker is listed exactly for the rows nothing can be done about |
| `Planner.MigrationPlan.FillRow` | crates/core/src/plan/diff_object.rs:14-54 | whether or not the write is skipped, the row and both side tables are what its action calls for |
| `Planner.ComputeDiffInto` | crates/core/src/plan/diff.rs:28-95 | whatever an earlier diff left in the plan, the outcome (rows, side tables, schemas, summary, blockers) is the fresh plan of the facts in force; after invalidation those are the new catalog's and checksums' |
| `Planner.CountsAddUp` | crates/core/src/plan/diff_decide.rs:31-42 | the four action counters add up; the blocked counter equals the number of blockers; it is zero exactly if no decision blocks |
| `Planner.PlanCoherent` | crates/core/src/plan/diff.rs:67-93 | blocked exactly if a blocker is listed; in an unblocked plan every object to reprocess is a table with transitions, so the fail-closed branch of apply is unreachable |
| `Filter.Retain` | crates/core/src/export/materialize/filter.rs:33-49 | keeps exactly the unapplied paths and collects exactly the tampered ones, both in order |
| `Filter.FilterApplied` | crates/core/src/export/materialize/filter.rs:11-91 | edits exactly the lists of changed tables; refused exactly if some applied file was edited, with the sorted list |
| `Filter.TamperedMeans` | crates/core/src/export/materialize/filter.rs:33-59 | a file counts as edited exactly if the newest row that lists it as applied has another checksum, blanks aside |
| `Filter.AccusedMembers` | crates/core/src/export/materialize/filter.rs:11-91 | every pending path of a changed table whose file was edited since it was applied is reported, and nothing else |
| `Filter.ResumesAfterPrefix` | crates/core/src/export/materialize/filter.rs:80-88 | when the applied paths are the first ones, filtering resumes at the next |
| `TamperCheck.NoRunTampers` | crates/core/src/export/materialize/filter.rs:33-59 | after any run, finished or not, an unedited script is tampered with according to the history only if it was before |
| `AuditLoad.ChecksumMapFromRows` | crates/core/src/audit/load/checksum.rs:7-31 | the loop computes the fold over the rows, stopping at the first undecodable checksum unless it repairs |
| `AuditLoad.LoadedFromHistory` | crates/core/src/audit/load/checksum.rs:7-61 | loading agrees with the newest row of every key, and is refused exactly if one cannot be decoded and nothing repairs it |
| `AuditLoad.LoadedPrior` | crates/core/src/audit/load/checksum.rs:40-49 | with or without history, a key has a usable prior and drift exactly as its newest row says |
| `Scope.BuildInspectScope` | crates/core/src/plan/scope_build.rs:11-79 | every object is hot or stable, and hot exactly if it is a module, its file changed, its digest does not match or the spot check picked it; a full scope looks everything up |
| `Scope.HotMeans` | crates/core/src/plan/scope_build.rs:25-60 | what is not looked up is what the planner would skip |
| `Scope.MergeStableCatalog` | crates/core/src/db/plan_common/helpers.rs:26-33 | inspected objects win over stable ones |
| `Scope.ScopedPlanIsFullPlan` | crates/core/src/plan/scope_build.rs:25-79 | the plan of the scoped catalog equals the plan of the full one if and only if every stable object is live |
| `PlanDb.PlanPhase.LoadCatalog` | crates/core/src/db/plan_common/body/standard/mod.rs:60-111 | the catalog a read-only command gets without a cached inspection: its plan, schemas aside, is the live one if and only if every object taken to exist does; for mutating commands the objects are the live ones |
| `PlanDb.PlanPhase.SyncTablesEnsured` | crates/core/src/audit/load/bootstrap.rs:23-31 | the bootstrap cache claims the tables exactly if they exist |
| `PlanDb.PlanPhase.HistoryIsEmpty` | crates/core/src/db/plan_common/checksums.rs:35-69 | without a cached probe the answer is the database's; read-only commands send no DDL |
| `PlanDb.PlanPhase.LoadChecksums` | crates/core/src/db/plan_common/checksums.rs:16-33 | without a cached probe the checksums are those of the live history, with or without rows |
| `PlanDb.PlanPhase.LoadFullCatalog` | crates/core/src/db/plan_common/body/standard/full.rs:15-54 | the fast probe is trusted only where it proves the scope empty: the objects are the live ones in scope |
| `PlanDb.PlanPhase.CachedInspectionMeans` | crates/core/src/db/catalog_inspect_cache.rs:52-72 | a cached inspection is used exactly by read-only commands, if it holds something and was made for the same database, layout and names |
| `PlanDb.PlanPhase.LoadIncrementalCatalog` | crates/core/src/db/plan_common/body/standard/incremental.rs:29-62 | the objects are the live ones in scope; DDL only with a deferred bootstrap |
| `PlanDb.PlanPhase.RunStandardBody` | crates/core/src/db/plan_common/body/standard/mod.rs:24-111 | for a mutating command checksums and objects are the live ones |
| `PlanDb.PlanPhase.PrepareExecute` | crates/core/src/db/plan_common/execute/setup.rs:28-105 | a mutating command forgets the history probe, always inspects, and never takes the git-delta body |
| `PlanDb.PlanPhase.RunPlanBody` | crates/core/src/db/plan_common/execute/dispatch.rs:32-64 | eager or deferred bootstrap makes no difference to the answer; a read-only command's path is chosen by its settings and the stored catalog alone |
| `PlanDb.PlanPhase.RunPlanDbPhase` | crates/core/src/db/plan_snapshot.rs:36-82 | for mutating commands the answer is the live one for every content of the five caches, and fails only if a request fails or a checksum cannot be decoded; read-only commands send no DDL, and for a layout with objects neither snapshot has a say: git's answer, or the live checksums with the stored catalog where it is allowed, else with a catalog that plans like the live one if and only if every object taken to exist does |
| `Convergence.ActionMeans` | crates/core/src/plan/scenario_resolve.rs:44-105 | against a database, an object is skipped if and only if it is settled, created if and only if it is absent |
| `Convergence.RunSettles` | crates/core/src/apply/transitions.rs:50-78 | a finished run settles every applied, adopted or migrated object and touches no other |
| `Convergence.Converges` | crates/core/src/apply/objects_exec.rs:28-51 | after a finished migrate of an unblocked plan the next plan skips every object, except exactly the changed tables whose transitions were all applied before, which it finds changed again |
| `Convergence.StuckExample` | crates/core/src/apply/objects.rs:29-42 | such a table: the run finishes, changes nothing and leaves it changed |
| `Convergence.RepairSettles` | crates/core/src/apply/metadata.rs:33-61 | after repair-checksum every existing object is skipped and every absent one created; the next plan loads without repair if and only if no absent object has an undecodable checksum |
| `Convergence.UnrepairableExample` | crates/core/src/audit/load/checksum.rs:21-37 | an absent object with an undecodable checksum: repair changes nothing and the next plan is refused |
| `ApplyRun.PlanPhase` | crates/core/src/engine/run/plan_phase.rs:18-74 | a mutating command's plan is the live plan whatever the caches hold |
| `ApplyRun.ApplyPlan` | crates/core/src/engine/apply_run.rs:47-94 | runs with the lock held; each of the four gates refuses exactly when it must, in order, and then leaves the database alone; a run that finishes converges; on an orderly server it finishes if and only if the filtered plan can be carried out |
| `ApplyRun.Migrate` | crates/core/src/engine/apply_run.rs:19-45 | without the lock nothing is planned or sent, and only code -1 is a timeout; the lock is given back unless the release fails; from lock to end nothing is sent before the apply phase, what is sent then is the execution of the filtered plan; the gates answer for the live plan; on an orderly server a run finishes if and only if its filtered plan can be carried out, and a migrate that finishes converges |
| `ApplyRun.AppLock.Acquire` | crates/core/src/lock/mod.rs:21-41 | the caller is told that it holds the lock exactly if it does, and otherwise which of the four refusals it met |
| `Refinement.ExecutionPlays` | crates/core/src/apply/mod.rs:49-79 | whatever its statements come to, an execution is a run of the protocol's events, in any state of the other migrators, and ends with the protocol's database and session being the connection's |
| `Refinement.MigratePlays` | crates/core/src/engine/apply_run.rs:19-94 | the same for a whole migrate under the lock: planning, filtering and executing are proper events of the protocol |
| `Refinement.MigrateSafely` | crates/core/src/engine/apply_run.rs:19-94 | wherever a migrate stops, no transition is committed twice or without its row and every table is applied in order |
| `ApplyRun.RepairChecksums` | crates/core/src/engine/apply_run.rs:66-80 | without the lock nothing is sent; no script runs and no object changes; on a healthy server it always finishes, blocked plan and undecodable checksums included, and every existing object then replans as unchanged |
| `Daemon.RunsAreIsolated` | crates/core/src/session/daemon/serve.rs:35-116 | over every run of any number of clients, from the connection the daemon opens before it listens: with the mutex free the connection is absent or has no open transaction, and is clean if and only if no request has run yet or the last cleanup met at most one lock reference; one client's requests run up to its cleanup before another's; nothing before authentication or after a refusal; a missing session is never reported |
| `Daemon.ServedOnlyIfAdmitted` | crates/core/src/session/daemon/serve_loop.rs:29-111 | read off the events alone: whoever has a request dispatched had asked for it, had sent the right token before if one is required, and had sent no wrong token, over-long line or other server's endpoint |
| `Daemon.RightTokenAdmits` | crates/core/src/session/daemon/serve_loop.rs:57-70 | a client with the right token is not turned away |
| `Daemon.LockedOnceIsClean` | crates/core/src/session/daemon/serve.rs:105-115 | clients that never hold a second reference always leave a clean connection |
| `Daemon.SecondReferenceStays` | crates/core/src/session/daemon_rpc.rs:42-45 | a client leaving two or more lock references leaves the lock held on the idle connection |
| `Daemon.Rmigd.AcquireSession` | crates/core/src/session/daemon/serve.rs:35-58 | takes the mutex and reconnects, or drops the mutex again: one event of the daemon |
| `Daemon.Rmigd.DispatchRequest` | crates/core/src/session/daemon/serve.rs:60-80 | one request on the warm connection; a timeout discards it and ends the client |
| `Daemon.Rmigd.Cleanup` | crates/core/src/session/daemon/serve.rs:105-115 | the connection is rolled back and released, or discarded when either fails, before the mutex is free |
| `Daemon.Rmigd.Admit` | crates/core/src/session/daemon/serve_loop.rs:34-95 | authenticated by a right token alone; a request goes on exactly if the client is authenticated and means this server; wrong tokens, refusals and unauthenticated requests end the client |
| `Daemon.Rmigd.Serve` | crates/core/src/session/daemon/serve_loop.rs:20-113 | with any other clients moving in between, a whole client's handling is a run of the daemon's events; unless it still waits for the mutex it ends gone, with the mutex not in its hands |
| `SubWorkspace.Workspace.InsertScript` | crates/core/src/domain/workspace/scripts.rs:7-26 | a new path is appended, a known one replaced in place; the script is found under its id, no other script moves, and paths stay indexed |
| `SubWorkspace.Workspace.AdoptDenseEntries` | crates/core/src/domain/store.rs:26-62 | sorting loses no entry and the key index finds exactly the rows |
| `SubWorkspace.Workspace.RelinkTransitionsFrom` | crates/core/src/domain/workspace/views/relink.rs:8-44 | each row gets the mapped list of its origin and no row another |
| `SubWorkspace.Workspace.RelinkParentsFrom` | crates/core/src/domain/workspace/views/relink.rs:46-78 | each row gets its origin's parent, found again by key |
| `SubWorkspace.ForCatalogDatabase` | crates/core/src/domain/workspace/views/catalog.rs:6-56 | despite renumbered rows, scripts and databases, the objects are exactly the database's and each means what it means in the parent if and only if its transition scripts are held and its recorded parent belongs to the database |
| `SubWorkspace.TidyRowIsKept` | crates/core/src/domain/workspace/views/catalog.rs:6-56 | an object whose transitions lie below the database's directory and whose parent, if any, is its own database's keeps its meaning |
| `SubWorkspace.DatabasesPartition` | crates/core/src/engine/run/mod.rs:64-70 | the sub-workspaces of a run hold together as many objects as the workspace if and only if every object's database is among the names iterated; a name that is no database of the workspace, such as a second spelling of a directory, holds none |
| `SubWorkspace.RepresentedOnce` | crates/core/src/engine/run/mod.rs:64-70 | every object stands in exactly one row of exactly one sub-workspace if its database is among the names, and in none otherwise |
| `SubWorkspace.RepresentsOne` | crates/core/src/domain/workspace/views/catalog.rs:33-46 | every row of every sub-workspace stands for exactly one object of the workspace |
| `SubWorkspace.SplitByDatabase` | crates/core/src/engine/run/mod.rs:64-70 | the loop over the names builds such sub-workspaces |
| `SubWorkspace.StrayTransitionIsDropped` | crates/core/src/domain/workspace/views/relink.rs:8-44 | a transition whose script is neither below the database's directory nor an object's own changes what the object means |
| `CaseVariants.SubWorkspaceLosesIt` | crates/core/src/domain/workspace/views/catalog.rs:25-46 | for any two spellings of a name: the sub-workspace that is built holds the table without the transition below the other spelling |
| `CaseVariants.ScanSurvives` | crates/core/src/domain/path_cache.rs:6-77 | the scan of that tree does not panic, because the prefixed path is a file of its own |
| `CaseVariants.OtherListMayWin` | crates/core/src/domain/workspace/compact.rs:13-54 | compaction may leave the table with the list staged below the other spelling |
| `CaseVariants.SalesHasTwoSpellings` | crates/core/src/scan/transition.rs:18-42 | an instance: the directories `Sales` and `sales` |
| `TransitionOrder.TransitionStaging.PushTransitionStaging` | crates/core/src/domain/workspace/compact.rs:57-83 | refused exactly for a second file with the ordinal; otherwise appended; ordinals stay unique |
| `TransitionOrder.TransitionStaging.CompactTransitions` | crates/core/src/domain/workspace/compact.rs:13-54 | in whatever order the staging is visited, every row gets the registered files of a table that becomes it; every staged table with a row has its files there if and only if no two staged tables agree in key and case-folded directory and differ in files |
| `DatabaseNames.LowerMeans` | crates/core/src/domain/databases.rs:25-37 | case is folded for the twenty-six ASCII letters and nothing else |
| `TransitionOrder.SameRow` | crates/core/src/domain/workspace/compact.rs:19-31 | two staged tables become one row exactly if they have one key and their directories one name up to case |
| `TransitionOrder.RowMeans` | crates/core/src/domain/workspace/compact.rs:19-31 | a staged table has a row exactly if some object has its key and, up to case, its directory |
| `TransitionOrder.DistinctDirectoriesKeepAll` | crates/core/src/domain/workspace/compact.rs:26-51 | directories distinct up to case never lose a list |
| `TransitionOrder.ClashLosesAList` | crates/core/src/domain/workspace/compact.rs:26-51 | with such a pair no result whatever holds all lists |
| `TransitionOrder.CompactedOnce` | crates/core/src/domain/workspace/compact.rs:13-54 | two visits that lose nothing agree on every row |
| `TransitionOrder.OrderIndependent` | crates/core/src/domain/path_cache.rs:9-35 | the apply order of a table does not depend on the order its files were found in |
| `TransitionOrder.OrderedByOrdinal` | crates/core/src/domain/path_cache.rs:26-31 | every file is applied once, and each before those with greater ordinals, compared where they first differ |
| `TransitionOrder.NumbersAreWritten` | crates/core/src/domain/path_cache.rs:26-31 | every number below a thousand is some three-digit ordinal's |
| `TransitionOrder.OrderedByNumber` | crates/core/src/domain/path_cache.rs:26-31 | three-digit ordinals, unique in each table, rise strictly as numbers |
| `Sorting.StringLeMeans` | crates/core/src/domain/path_cache.rs:26-26 | the order is a prefix before its continuation, and the smaller character where two strings first differ |
| `TransitionOrder.KeptMeans` | crates/core/src/domain/workspace/compact.rs:38-49 | compaction keeps exactly the files whose scripts are registered |
| `TransitionOrder.KeptAll` | crates/core/src/domain/workspace/compact.rs:38-49 | when all are registered the list stays as it was staged, in order |
| `TransitionOrder.CaseVariantsLoseAList` | crates/core/src/domain/workspace/compact.rs:26-51 | an instance: one table, a transition below each of two spellings of its directory |
| `Arena.StringArenaBuilder.Register` | crates/core/src/domain/arena/builder.rs:25-32 | the string is indexed, nothing else changes, and below 2^32 bytes every indexed string is where the index says |
| `Arena.SchemaNotedOnce` | crates/core/src/scan/parse.rs:20-31 | a schema is listed once for each database that has it, however many of its objects are scanned, and no other is added |
| `Arena.RoundTrip` | crates/core/src/domain/arena/slice.rs:18-46 | a registered string is read back from its offset and length, given fewer than 2^32 bytes |
| `Arena.WorkspaceStrings.ApplyObjectEntries` | crates/core/src/domain/arena/ws_apply/entries.rs:5-53 | on the fast and the slow path keys read back and every object keeps its database name, although names are interned anew |
| `Arena.WorkspaceStrings.ApplyScripts` | crates/core/src/domain/arena/ws_apply/scripts.rs:5-60 | on both paths script paths and absolute paths read back |
| `Arena.WorkspaceStrings.InstallLayoutArena` | crates/core/src/domain/arena/ws_intern.rs:20-31 | no key, path, ordinal, database or schema name changes, and nothing panics |
| `Arena.WorkspaceStrings.InternWorkspaceStrings` | crates/core/src/domain/arena/ws_intern.rs:9-17 | no string changes, nothing panics, and the arena then indexes exactly the workspace's non-empty strings |
| `Arena.WorkspaceStrings.RebuildPathCaches` | crates/core/src/domain/path_cache.rs:6-77 | every path is looked up; with all of them in the arena every cached offset reads back as its path |
| `Arena.WorkspaceStrings.InternAndCache` | crates/core/src/scan/mod.rs:47-48 | interning and then rebuilding the caches panics if and only if some object or transition path, once its database's directory is in front, is none of the workspace's own strings; otherwise every cached offset reads back as its path |
| `Arena.WorkspaceStrings.PrefixedPathsAreStrings` | crates/core/src/domain/layout_path.rs:9-20 | it cannot panic when every object's and transition's script lies below the directory its database is known by and no transition path holds a backslash |
| `Arena.WorkspaceStrings.OwnPathsAreShown` | crates/core/src/domain/path_cache.rs:6-77 | then every path shown is that of the object's own script, or the transition's |
| `Arena.ObjectPathMeans` | crates/core/src/domain/layout_path.rs:9-20 | the shown path lies below the database's directory and ends in the script's path without leading slashes |
| `Arena.VariantGetsSecondPrefix` | crates/core/src/domain/layout_path.rs:9-20 | a script below another spelling of the directory gets a second prefix |
| `Arena.CaseVariantPanics` | crates/core/src/scan/parse.rs:10-42 | scanning a tree with the directories `Sales` and `sales`, then interning and caching, does panic |
| `Merge.MergePlanInto` | crates/core/src/engine/run/merge.rs:31-62 | rows, schemas, blockers and materialized objects appended, side tables joined behind the offset, counters added with saturation |
| `Merge.MergeAll` | crates/core/src/engine/run/merge.rs:24-62 | over any number of plans: every plan's rows stand together with exactly their side-table entries, blockers, objects and the blocked flag are conserved, and all counters as long as the totals fit |
| `Merge.ObjectsStayWithRows` | crates/core/src/engine/run/merge.rs:41-45 | when every plan lists one object for each row, the merged plan does too: object and row keep the same position |
| `Merge.RowsOneMore` | crates/core/src/engine/run/merge.rs:46-51 | appending a plan moves no earlier row and attaches no entry to a row it does not belong to |
| `Encoders.NormalizedKeysJson` | crates/core/src/domain/workspace/views/keys.rs:14-31 | the loop writes the JSON list of the keys |
| `Encoders.KeysRoundTrip` | crates/core/src/domain/workspace/views/keys.rs:58-73 | that list decodes, under section 7 of RFC 8259, to exactly the keys, whatever characters they hold |
| `Encoders.LayoutDigestInput` | crates/core/src/scan/digest.rs:8-20 | the loop feeds the digest the framed paths in sorted order |
| `Encoders.DigestInputExact` | crates/core/src/scan/digest.rs:8-20 | two layouts give the same bytes if and only if they hold the same paths, in whatever order |

## Left out

- The TDS driver, TLS, authentication, sockets and file permissions: only their outcomes appear.
- SQL texts, but for the one that creates a schema: represented by what they do; a body that rolls back and goes on (`ROLLBACK; <DDL>`) commits its later statements one by one and counts as one that commits the transaction, but a body of which only a part stays committed is not modelled; drift detection compares captured and current definitions for every object, without the DDL-trigger shortcut that skips unsuspected ones.
- SHA-256, hex and base64, serde: digests and fingerprints are abstract and assumed injective on the keys in play.
- The git-delta body of the plan phase, `gate/delta.rs` and the spot-check ranking: their results are parameters, and mutating commands never enter the git-delta body.
- `HistoryWrite.RollBack`: errors are constructors; the source tells a failed rollback by the words in its message, so an error text that quotes those words is not modelled.
- `Transitions.ApplyOneTransition`: a script is looked up under its own path; the second candidate path without the database prefix is not modelled.
- `Execute.Finish`: of the cache invalidations only the statement sent to the server appears.
- `Protocol.RunsAreSafe`: the object phase is any sequence of statements whose scripts are no transitions and whose rows leave no gap in any list; `Refinement.ExecutionPlays` shows that the batches and the module retry are such. Lists that reorder or drop transitions an earlier version had applied are excluded.
- `Server`: a body that commits the transaction and opens one again passes the assertion and gets its row, and what it committed first is run again after a failure in between; such bodies are outside the model (`Server.TxUse`).
- `Protocol.NextKeeps`: the answer to a request and its effect are one event unless the client vanishes first; waiting for the lock is not modelled, so of liveness only `Protocol.LockGoesOn` is said.
- `SubWorkspace.DatabasesPartition`: which names a run iterates (the discovered directories, or the one configured database) is a parameter; the directory of every object is among the discovered ones, so the first spelling of its name is too.
- `SubWorkspace.ForCatalogDatabase`: git provenance, schemas and the interned offsets are outside the compared view.
- `Merge.MergePlanInto`: row numbers are unbounded; the source stores them in 32 bits. The command's name and time stamp are not modelled.
- `Arena.WorkspaceStrings.ApplyObjectEntries`: the limit of 65535 database names is not modelled.
- `Encoders.KeysRoundTrip`: the decoder accepts no white space between tokens and no surrogate escapes; the encoder writes neither.
- Refusal of ambiguous index names, catalog guards and the `Plan`, `Validate` and `Version` commands: they decide by one check each and keep no state.
- Configuration, command line, logging, reports, timings, scaffolding, benches: no hard property.
- The file-system walk and git subprocesses: the model starts from files with digests.

# Gin-Vben-Admin: verified models of the server's stateful cores

A Dafny model of the parts of the server whose correctness depends on order,
failure and interleaving, with proofs of what they promise. `dafny verify
dfyconfig.toml` checks the whole project.

- **First installation** (`InstallTransaction`, `InstallWorld`, `InstallPorts`,
  `InstallApply`, `InstallRuns`). `ApplyService` installs in four stages over a
  write-ahead journal, compensates failures in reverse order, recovers an
  interrupted journal, rolls back on request and reconciles after the commit.
  `InstallWorld` separates what survives a crash (journal, marker, identity and
  environment effects) from the service's memory; each port call meets an
  outcome chosen by an adversary: done, refused, failed although it took effect,
  or a crash. What a failed call leaves is stated in terms of these outcomes:
  its transaction is forgotten exactly when every compensation reported success.
  `InstallApply.Verdict` lists the checks in order, and without faults the first
  that fails decides the answer. `InstallRuns.Operate` runs any calls on any
  number of processes.
- **Background installation jobs** (`JobCoordinator`): one running job, a table
  of eight, a rollback whose second half runs on a stale snapshot.
- **Permission cache** (`PermissionCache`): a deny-only, generation-stamped
  cache under arbitrary interleavings with policy changes.
- **Menus** (`MenuTree`, `MenuFilter`, `MenuRoutes`, `MenuParents`): a memoised,
  cycle-guarded double search against its recursive definition, the projection of
  a flat list into an ordered forest, and the parent check of updates with
  exactly the cycles it misses.
- **File centre** (`FileStore`, `FileService`): staged uploads, deletion and
  three maintenance passes with crash points at every call, and with the passes
  running between the calls of an upload, under the status transitions the
  repository enforces.
- **Categories** (`Categories`, `CategoryCatalog`): the category forest under
  create, move and delete, descendant expansion and display paths.
- **Readers** (`RangeReaders`): a range reader over a size-checked reader over a
  provider that returns short reads as it likes.
- **Usage index** (`JoinedKeys`, `UsageIndex`): two maps that stay inverse to
  each other under joined keys, and exactly when such a key is ambiguous.
- **Job queue and worker** (`JobQueue`, `JobWorker`): retries, dead letters,
  idempotent enqueue, concurrent runs in their separate critical sections, and
  draining.
- **Rate limiter** (`RateLimiter`): fixed windows, with a bound over whole runs
  in which a call reads the clock before it takes the lock.

Code that updates state in place is modelled by classes whose methods follow
the same branches; each is proved against its new state and against the
invariants that hold over whole runs. A read, a probe or a lock acquisition
without a durable effect of its own is a call that may fail. Random IDs, clocks
and the answers of collaborators are parameters.

## Where the code decides differently from what it says, or where a law has a limit

- The comment above `BuildMenuRoutes` says that descendants of hidden nodes are
  not exposed, but the code promotes a child of a hidden parent to a root
  (`menu_routes.go:34-38` and `77-83`). The model follows the code;
  `MenuRoutes.HiddenBranchesGoneExactly` says when the comment holds,
  `MenuRoutes.PromotedChild` gives a list on which it does not, and
  `MenuFilter.HiddenBranchDropped` shows that it holds once the list has been
  filtered.
- The comment in `validateMenuParent` says that an update cannot introduce a cycle
  (`service.go:2752`), but the walk never looks at the last node of the climb. A
  root can be moved below its own descendant, and a new menu below one that names
  it already; `MenuParents.MissedCyclesExactly` proves that these are all, and
  `MenuParents.RootUnderItsChild` is one. The menus below are then dropped by the
  filter (`MenuFilter.BelowCycleDropped`) and the unfiltered list is rejected
  (`MenuRoutes.BuildMenuRoutes`).
- The commit point rests on marker creation being all-or-nothing. The file store
  renames the marker and then synchronises the directory, so an error can follow
  the publication. `InstallRuns.TornMarkerBreaksCommit` gives the exact condition
  under which such a failure ends unsafely, `InstallRuns.TornMarkerWitness` two
  ways it does (with the effects rolled back, and with nothing but the failure
  record written under the visible marker), and `InstallRuns.TornMarkerRolledBack`
  what a later explicit rollback makes of it.
- The write-ahead order rests on the environment installer answering about the
  reference it was given. The code tests for another reference, but then rolls
  back by that receipt, so the environment it did create is orphaned: nothing
  names it any more. `InstallRuns.ReceiptDecides` and
  `InstallRuns.ForeignReceiptOrphans` give the exact conditions,
  `InstallRuns.OrphanWitness` a concrete case, and `InstallApply.ApplyService.Apply`
  shows that without failures every such receipt ends so.
- A failed task can be claimed before the run that failed it has removed its
  in-flight mark; the run that claims it then finds the mark and returns, and the
  task stays running with nobody to settle it. `JobWorker.Worker.Begin` says
  exactly when, `JobWorker.StrandTask` shows that every run below the attempt
  limit can end so, and `JobWorker.StrandedTask` is a concrete case.
- The rate limiter reads the clock before it takes the lock. Twice the limit per
  window holds, and is the best bound, when no lock is late
  (`RateLimiter.BestInOrder`). With locks late by up to a quarter of a window the
  best bound is three times the limit less one (`RateLimiter.BestShortDelay`,
  reached by `RateLimiter.ThreeBucketsRun`), and with a whole window there is none
  (`RateLimiter.BoundedExactly`, `RateLimiter.Flood`).
  `RateLimiter.TwiceTheLimitExactly` says for every limit, window and delay
  whether twice the limit is kept.
- An identity rollback answers with success for an identity whose connection it
  does not remember. After a creation that failed although it took place and a
  recovery that failed, an explicit rollback therefore forgets an identity that
  exists: `InstallRuns.ForgottenIdentityOrphans` gives the exact condition and
  `InstallRuns.OrphanedIdentityWitness` a case.
- The repository's status transitions keep an upload safe from deletions and
  passes that run between its calls. Call against call, races remain:
  `FileService.DeletionRace`, `FileService.StaleReconciliation` and
  `FileService.OutdatedUpdate` give the exact conditions.
- A clean end of a range read means the whole range, except when the object ends
  exactly where the range starts and the provider announced the end together
  with the last skipped byte: `CopyN` drops that announcement and the size check
  reports a short object only once. `RangeReaders.OverlookedEnd` states the exact
  condition and `RangeReaders.OverlookedByte` an input that meets it.
- A keyed retry of an attachment whose usage was detached meanwhile succeeds with
  the old reference and attaches nothing; `UsageIndex.MemoryUsageService.Attach`
  says exactly when, `UsageIndex.MemoryUsageService.RetryAfterDetach` shows it.
  An attachment keyed `detach:K` shares its record with a detachment keyed `K`.
- Usages are owned by a scope key that joins tenant and organization with a
  colon, which the tenant rules accept inside both. `UsageIndex.ScopeTwinExactly`
  and `UsageIndex.ShortScopeTwin` say exactly which scopes share a key with
  another, `UsageIndex.CollidingExample` names two, and
  `UsageIndex.MemoryUsageService.ForeignDetach` shows that the one then detaches
  the other's usage. Likewise for the NUL that joins a usage's fields:
  `UsageIndex.UsageTwinExactly`, `UsageIndex.InnerNulKey`,
  `UsageIndex.MemoryUsageService.SharedUsageKey` and
  `UsageIndex.MemoryUsageService.InnerNulShared`.
- A task enqueued with its attempts already at the limit is still run once
  (`JobWorker.Worker.HandlerCallsAreBounded`).
- In the picker an invisible parent still lists its visible children, while a
  media listing under an invisible root is empty
  (`CategoryCatalog.AllowedForPicker`, `CategoryCatalog.AllowedForMedia`).

## Model

| member | source | states |
|---|---|---|
| InstallTransaction.Validate | server/internal/application/installer/transaction.go:71-125 | the scan of a journal record accepts exactly the valid records: fixed schema and owner, well-formed IDs and digests, allowed steps without duplicates, receipts that name this transaction, a marker of its UI and mode |
| InstallTransaction.BackupNamePasses | server/internal/application/installer/transaction.go:111-114 | the one backup name a receipt may carry always passes the separate check of backup names, which therefore decides nothing |
| InstallTransaction.ValidMeans | server/internal/application/installer/transaction.go:71-125 | the accepted records field by field: the lengths and digits of IDs, digests and hashes, the phases, modes and steps allowed, and receipts and marker that fit the transaction |
| InstallWorld.DisciplinedCallIsSafe | server/internal/application/installer/apply.go:306-525 | whatever a port call meets (success, refusal, an error after the effect, a crash), a markerless installation keeps every identity and environment effect named by its journal, and a visible marker keeps its commit record, its effects and itself |
| InstallWorld.DisciplinedRunIsSafe | server/internal/application/installer/apply.go:242-525 | the same for every pair of moments of every run, over any number of calls, crashes and processes: all states are safe and a commit is final |
| InstallWorld.SafeRetryableHasNoEffects | server/internal/application/installer/apply.go:777-801 | while no marker is visible, a retryable journal, or any journal naming nothing, means that no identity and no environment effect exists |
| InstallWorld.SafeEffectsBelongToJournal | server/internal/application/installer/apply.go:306-457 | every effect of an uncommitted installation is the one transaction of its journal |
| InstallWorld.RunsAppend | server/internal/application/installer/apply.go:306-525 | the recorded history of calls always replays to the present durable state |
| InstallPorts.CallEvolves | server/internal/application/installer/apply.go:210-526 | a disciplined call by one process creates no effect under an ID another process may still remember, and a new commit has a new ID and a later marker date |
| InstallPorts.EvolvesTransitive | server/internal/application/installer/apply.go:210-526 | that bound on what other processes may do composes over whole calls |
| InstallPorts.AllUndoneMeans | server/internal/application/installer/apply.go:369-383 | that everything a call had to undo was undone means that each compensation it made was answered with success, or, in the recovery of a prepared identity, with `not owned` |
| InstallPorts.World.Perform | server/internal/application/installer/apply.go:306-525 | every port call is logged, has the effect its outcome says, and is accepted only where the port's contract accepts it |
| InstallPorts.World.Write | server/internal/application/installer/apply.go:777-801 | a journal update issued whatever it says keeps the run safe if it is disciplined or takes no effect, and otherwise is its one unsafe call |
| InstallPorts.World.Acquire | server/internal/application/installer/apply.go:232-235 | the lease is held exactly when the acquisition got through; no port call is made without it |
| InstallPorts.World.Release | server/internal/application/installer/apply.go:236-241 | after the release it is held no longer, confirmed or not |
| InstallApply.PendingEvolves | server/internal/application/installer/apply.go:815-878 | a failed transaction remembered in memory stays harmless whatever other processes do meanwhile: it never names the committed transaction and keeps a receipt for each effect that may exist |
| InstallApply.ApplyService.PersistFailure | server/internal/application/installer/apply.go:777-801 | after a rollback that reported success the record becomes retryable and names nothing, otherwise it keeps its receipts as compensation-pending; only a valid record is written and nothing else durable changes; the write is safe unless an effect outlived a rollback that reported success |
| InstallApply.ApplyService.JournalRecord | server/internal/application/installer/apply.go:342-353 | a changed record goes into memory always, and into the journal exactly when the write is confirmed |
| InstallApply.ApplyService.Advance | server/internal/application/installer/apply.go:761-775 | exactly one more step is completed, in memory always and in the journal when it succeeds |
| InstallApply.ApplyService.RollbackReceipt | server/internal/application/installer/apply.go:902-906 | one rollback call for an identity receipt and none without one; failure is reported exactly when the call was not answered with success |
| InstallApply.ApplyService.RollbackEffects | server/internal/application/installer/apply.go:892-907 | environment before identity, both attempted, by exactly these calls; failure is reported exactly when one of them was not answered with success; success means that the references named are absent, and no other environment is touched |
| InstallApply.ApplyService.RollbackPreparedIdentity | server/internal/application/installer/apply.go:528-539 | one recovery call; an identity that is not owned counts as compensated, any other failure is reported, and success means absence |
| InstallApply.ApplyService.RollbackPreparedEnvironment | server/internal/application/installer/apply.go:541-555 | the environment is recovered by its intended reference before the identity is rolled back; success means both are absent |
| InstallApply.ApplyService.CompensateEnvironment | server/internal/application/installer/apply.go:724-733 | a journalled environment is undone by receipt, or by intent when no receipt was journalled, and success leaves none |
| InstallApply.ApplyService.CompensateIdentity | server/internal/application/installer/apply.go:734-741 | a journalled identity is undone, `not owned` included, and success leaves none |
| InstallApply.ApplyService.CompensateMarker | server/internal/application/installer/apply.go:719-723 | removing a marker that never became visible changes nothing durable |
| InstallApply.ApplyService.CompensateJournalled | server/internal/application/installer/apply.go:716-741 | the compensations run in the order marker, environment, identity, each whatever became of the one before; success leaves no effect |
| InstallApply.ApplyService.DropJournal | server/internal/application/installer/apply.go:261-267 | the journal goes only when its transaction has nothing left |
| InstallApply.ApplyService.JournalPending | server/internal/application/installer/apply.go:742-749 | a failed compensation is journalled as still pending, under the same receipts |
| InstallApply.ApplyService.RecoverEffects | server/internal/application/installer/apply.go:716-753 | the journal of a transaction with effects is removed if and only if every compensation succeeded and the removal was confirmed; otherwise the last call journals it as pending |
| InstallApply.ApplyService.RecoverInterrupted | server/internal/application/installer/apply.go:705-753 | recovery succeeds if and only if every compensation did and the removal of the journal was confirmed; then every old effect is gone and the calls made are exactly the reverse-order compensations followed by the removal; a failed compensation is journalled as pending over a record that still names what may exist |
| InstallApply.ApplyService.Abandon | server/internal/application/installer/apply.go:369-383 | a failed stage forgets its transaction exactly when every compensation reported success; the record then written is retryable and names nothing, otherwise compensation-pending with its receipts |
| InstallApply.ApplyService.SchemaStage | server/internal/application/installer/apply.go:329-338 | after the schema stage the journal holds exactly the in-memory record with one more step, and no effect exists; it fails for the schema exactly when the migration did, and then tries to journal a retryable record |
| InstallApply.ApplyService.PrepareIdentity | server/internal/application/installer/apply.go:342-353 | the identity reference is durable before any identity is created under it, or, exactly if that write failed, the transaction is given up with nothing to undo |
| InstallApply.ApplyService.CreateIdentity | server/internal/application/installer/apply.go:354-383 | fails if and only if the creation was not confirmed or answered with another reference; then the transaction is forgotten if and only if the recovery reported success or `not owned`, in which case no effect is left and a record naming nothing is written, and otherwise it stays remembered and a compensation-pending record naming the identity is written |
| InstallApply.ApplyService.RollbackIdentity | server/internal/application/installer/apply.go:384-396 | a later failure rolls the identity back by its receipt and forgets the transaction exactly when that succeeded |
| InstallApply.ApplyService.CompleteIdentity | server/internal/application/installer/apply.go:384-396 | the identity step is journalled as completed, or the identity is rolled back and the transaction given up as that rollback says |
| InstallApply.ApplyService.IdentityStage | server/internal/application/installer/apply.go:339-396 | between the stages the journal, the memory and the one identity agree |
| InstallApply.ApplyService.PrepareEnvironment | server/internal/application/installer/apply.go:399-412 | the publishing intent is durable before anything is published under it; exactly if that write failed, the identity is rolled back and the transaction given up |
| InstallApply.ApplyService.RollbackPublished | server/internal/application/installer/apply.go:423-436 | a publication is undone by its receipt if it gave one and by the journalled intent otherwise, before the identity; failure is reported exactly when one of the two calls was not answered with success |
| InstallApply.ApplyService.UndoPublish | server/internal/application/installer/apply.go:423-444 | after a failed publication, or a receipt about another reference: rollback by receipt if there is one and by intent otherwise; the transaction is forgotten if and only if both rollbacks reported success; sound for every receipt about this transaction, and at worst the environment is orphaned |
| InstallApply.ApplyService.PublishEnvironment | server/internal/application/installer/apply.go:413-444 | for any receipt at all: success if and only if the publication was confirmed and answered about the reference asked for, and then exactly one environment stands beside the identity; a failure is undone as its receipt demands and given up as those rollbacks say; without faults a receipt about another reference always orphans the environment |
| InstallApply.ApplyService.RollbackBoth | server/internal/application/installer/apply.go:450-457 | both effects are rolled back, whatever failed before; the transaction is forgotten if and only if everything reported success |
| InstallApply.ApplyService.EnvironmentStage | server/internal/application/installer/apply.go:397-457 | all six steps are journalled and both effects are in place before the marker stage; a failure ends as for `PublishEnvironment` |
| InstallApply.ApplyService.CompleteEnvironment | server/internal/application/installer/apply.go:445-457 | the environment step is journalled as completed, or both effects are rolled back |
| InstallApply.ApplyService.PrepareMarker | server/internal/application/installer/apply.go:473-493 | the complete marker is journalled before it is created; it fails for the marker exactly when that does not validate, and a failure rolls both effects back and gives the transaction up |
| InstallApply.ApplyService.JournalMarker | server/internal/application/installer/apply.go:481-485 | from the marker on the failure memory holds it too, whether or not the journal took it |
| InstallApply.ApplyService.CreateMarker | server/internal/application/installer/apply.go:494-504 | the commit point: a confirmed creation makes the marker visible over a journal that matches it and forgets the transaction; any other removes the marker first, then both effects, and leaves no marker |
| InstallApply.ApplyService.UndoMarker | server/internal/application/installer/apply.go:494-501 | the marker, the environment and the identity are undone in this order, each whatever became of the one before, and the transaction is forgotten if and only if all three reported success |
| InstallApply.ApplyService.MarkerStage | server/internal/application/installer/apply.go:459-504 | on success the visible marker, the journal and the commit record are the same transaction |
| InstallApply.ApplyService.FinishCommitted | server/internal/application/installer/apply.go:505-524 | after the commit only the journal may go away, and its removal is attempted exactly when both finalizers and the housekeeping got through |
| InstallApply.ApplyService.StillValid | server/internal/application/installer/apply.go:250-304 | a call that stops early leaves an earlier remembered failure valid |
| InstallApply.ApplyService.OpenJournal | server/internal/application/installer/apply.go:306-327 | a new transaction starts from a valid record under an ID never used before, with no effect in existence; without faults exactly when mode, target, UI and ID are valid |
| InstallApply.ApplyService.EffectStages | server/internal/application/installer/apply.go:339-457 | identity, then environment: a failure is given up as its own compensations say; without faults the first check that fails decides, and both effects stand exactly when none does |
| InstallApply.ApplyService.RunStages | server/internal/application/installer/apply.go:329-503 | the four stages in order, with any environment receipt: a failure shows no marker and is given up as said, success commits this record and reports every step; without faults the first check of the stages that fails decides which of the two it is |
| InstallApply.ApplyService.RunTransaction | server/internal/application/installer/apply.go:329-525 | from the opened journal to the answer: an installed answer is this transaction's own commit, a rejected one gives the transaction up as said; without faults the checks of the stages decide, and an installation leaves no journal |
| InstallApply.ApplyService.InstallFresh | server/internal/application/installer/apply.go:306-525 | the same from the creation of the journal on, for valid and invalid requests |
| InstallApply.ApplyService.ReconcileOwned | server/internal/application/installer/apply.go:589-640 | reconciliation changes nothing but the journal of a committed installation, attempts its removal exactly when all its five preparatory calls got through, and without faults removes it: the journal left at commit always matches the marker |
| InstallApply.ApplyService.Settle | server/internal/application/installer/apply.go:250-275 | which interrupted journals let a new attempt through: none, retryable, or one for the same database; everything else is left untouched |
| InstallApply.ApplyService.Preflight | server/internal/application/installer/apply.go:277-296 | the reported steps are plan, database, redis, in this order and exactly as far as the calls got through and the answers passed |
| InstallApply.ApplyService.RecoverFirst | server/internal/application/installer/apply.go:297-304 | an interrupted transaction of another UI is left alone; one of this UI is recovered completely before anything new starts |
| InstallApply.ApplyService.Prepare | server/internal/application/installer/apply.go:250-304 | without faults the first check that fails decides with which stage and after how many steps the attempt is turned down, and then nothing changed but that an empty journal was dropped; with faults no step is reported unless every call before it got through |
| InstallApply.ApplyService.RefuseInstalled | server/internal/application/installer/apply.go:242-249 | on an installation, or when the marker cannot be read, the answer names the lock; in the latter case nothing changes, in the former reconciliation removes the journal |
| InstallApply.ApplyService.ApplyFree | server/internal/application/installer/apply.go:250-525 | an attempt that found no marker, up to its answer |
| InstallApply.ApplyService.ApplyOwned | server/internal/application/installer/apply.go:242-525 | under the lease: a rejection leaves the marker as it was; safety and convergence as for `Apply` |
| InstallApply.ApplyService.ApplyLeased | server/internal/application/installer/apply.go:232-526 | a lease that cannot be released turns an installed answer into a rejection and leaves a rejection its stage |
| InstallApply.ApplyService.ApplyAlone | server/internal/application/installer/apply.go:232-526 | a lease that cannot be taken is a rejection that changes nothing; however the call goes, the lease is held no longer |
| InstallApply.ApplyService.Apply | server/internal/application/installer/apply.go:210-526 | any request, any answers and any failures keep every state safe if the environment receipt is about the reference asked for or absent, and otherwise leave at worst that environment orphaned under a journal naming nothing. A rejection after an effect was attempted forgets its transaction if and only if every compensation reported success; then no effect is left and the record written is retryable and names nothing, otherwise it is compensation-pending. An installed answer takes a recoverable journal and healthy answers. Undisturbed, the first check that fails decides stage and steps, in the order marker, journal, plan, database, redis, recovery, record, identity, environment, marker, and the call installs exactly when none fails |
| InstallApply.ApplyService.ReconcileLeased | server/internal/application/installer/apply.go:573-587 | reconciliation with its lease taken and given up again |
| InstallApply.ApplyService.ReconcileCompleted | server/internal/application/installer/apply.go:561-587 | never touches an uncommitted installation, for which it does not even take the lease; one undisturbed call leaves a committed one exactly as it was except that the journal is gone, so it is idempotent |
| InstallApply.ApplyService.RollbackPending | server/internal/application/installer/apply.go:845-859 | environment by receipt or by intent, identity, then the marker only if they succeeded; success if and only if every one of these calls was answered with success, and then nothing of the remembered transaction exists |
| InstallApply.ApplyService.RemoveInvisible | server/internal/application/installer/apply.go:886-890 | removing a marker that is not visible changes nothing durable, and a refused removal is a failure |
| InstallApply.ApplyService.RetireFailed | server/internal/application/installer/apply.go:860-875 | the journal becomes retryable exactly when it still is this transaction's and the update was confirmed |
| InstallApply.ApplyService.Undo | server/internal/application/installer/apply.go:845-875 | the compensations and the retired journal: success if and only if every compensation was answered with success, the journal still was this transaction's and its update was confirmed |
| InstallApply.ApplyService.RollbackOwned | server/internal/application/installer/apply.go:845-877 | the transaction is forgotten exactly when the rollback succeeded, and then nothing of it is left and its journal is retryable; without faults that happens whenever the journal still is its own |
| InstallApply.ApplyService.RollbackAlone | server/internal/application/installer/apply.go:836-877 | the same with its lease: a release that fails turns the success into a failure although the transaction is forgotten |
| InstallApply.ApplyService.Rollback | server/internal/application/installer/apply.go:819-878 | explicit rollback from a receipt about its own transaction, with an identity rollback whose success means absence: it forgets its transaction if and only if the lease was taken, every compensation was answered with success, the journal still was its own and the update that retires it was confirmed, and then nothing of it is left; it succeeds if and only if the lease was given up too; it never changes the marker |
| InstallRuns.Dispatch | server/internal/application/installer/apply.go:199-878 | one public call, under any failures and any environment receipt: unless it leaves an environment stray, which is its last port call and takes a receipt about another reference, the service stays valid and the world evolves as other processes expect |
| InstallRuns.AttemptInstall | server/internal/application/installer/apply.go:199-526 | a request to install under any failures: undisturbed, it installs on a recoverable installation exactly what healthy answers ask for, and reconciles an existing one |
| InstallRuns.Step | server/internal/application/installer/apply.go:199-878 | a call on one process keeps the remembered failures of all the others valid |
| InstallRuns.DisciplinedIsSafeThrough | server/internal/application/installer/apply.go:199-878 | safety and finality of every prefix up to which the calls were disciplined |
| InstallRuns.Turn | server/internal/application/installer/apply.go:199-878 | one command of a run, performed on its process unless it is an explicit rollback from a foreign receipt; a process that died is followed by one with an empty memory; every process stays as valid as it was, or it is said why the run stops |
| InstallRuns.Operate | server/internal/application/installer/apply.go:199-878 | any list of Apply, Rollback and Reconcile calls over any number of processes, with any environment receipts, failures and crashes anywhere and memory lost at each crash: each command does what is said of it, every intermediate state is safe and a commit, once visible, is never compensated. The run ends early only with the port call that leaves an environment stray, or before an explicit rollback on a process that remembers a receipt about another transaction, and never while every receipt is about the reference asked for |
| InstallRuns.WriteNeedsCover | server/internal/application/installer/apply.go:777-801 | while no marker is visible, writing a valid record is safe if and only if it names every effect |
| InstallRuns.RollbacksThenForget | server/internal/application/installer/apply.go:430-442 | forgetting after two successful rollbacks is safe if and only if the environment undone was this transaction's, or it had none, or nothing was written |
| InstallRuns.RollbacksThenKeep | server/internal/application/installer/apply.go:430-442 | a record that still names the intent and the identity is safe to write whatever became of the rollbacks |
| InstallRuns.ForeignReceiptOrphans | server/internal/application/installer/apply.go:413-444 | for every receipt and every outcome of the publication, the rollbacks and the write: the result is unsafe if and only if the receipt is about another reference, the publication took effect, both rollbacks reported success and the write took effect |
| InstallRuns.ReceiptDecides | server/internal/application/installer/apply.go:414-416 | every outcome ends safely if and only if the receipt is about the reference asked for, or there is none |
| InstallRuns.ForeignReceiptRemembered | server/internal/application/installer/apply.go:845-875 | if a rollback failed first, an explicit Rollback from the remembered receipt orphans the environment on exactly the same condition |
| InstallRuns.OrphanWitness | server/internal/application/installer/apply.go:413-444 | a concrete installation orphaned without a single failure by a receipt about "elsewhere" |
| InstallRuns.FailedInitializeIsSafe | server/internal/application/installer/apply.go:354-383 | a failed creation of the identity, its recovery and the record of the failure leave a safe state under every outcome; the identity is there exactly when it was created and not recovered |
| InstallRuns.ForgottenIdentityOrphans | server/internal/platform/installplatform/identity_installer.go:128-155 | without the assumption that a rollback reporting success leaves no identity, for every outcome of the creation, the recovery, both rollbacks and both records: unsafe if and only if the identity was created though the creation failed, was not recovered, its connection was not kept, and the record that forgets it was written |
| InstallRuns.ConnectionDecides | server/internal/platform/installplatform/identity_installer.go:134-143 | an explicit rollback after such a failure is safe under every outcome if and only if the identity is gone already or its connection was kept |
| InstallRuns.OrphanedIdentityWitness | server/internal/platform/installplatform/identity_installer.go:128-155 | a concrete identity orphaned by an explicit rollback that succeeds |
| InstallRuns.MarkerAfterFailedCreate | server/internal/platform/installplatform/marker.go:128-213 | a failed creation leaves the marker visible exactly when it was published and its removal took no effect |
| InstallRuns.UncommittedUndone | server/internal/application/installer/apply.go:494-501 | while no marker is visible, rolling back and persisting the failure is safe under every outcome |
| InstallRuns.CommittedUndone | server/internal/application/installer/apply.go:494-501 | under a visible marker it is safe exactly when nothing takes effect |
| InstallRuns.TornMarkerBreaksCommit | server/internal/application/installer/apply.go:494-501 | without the all-or-nothing assumption on marker creation, for every outcome of the creation, the removal, both rollbacks and the failure record: unsafe if and only if the marker was published, its removal took no effect, and an effect was rolled back or the failure record written; the record written then matches no marker, so reconciliation never clears it |
| InstallRuns.TornMarkerWitness | server/internal/platform/installplatform/marker.go:204-211 | two failing paths for every transaction about to commit: both effects rolled back under a visible marker, and nothing but the failure record written under it |
| InstallRuns.TornMarkerRolledBack | server/internal/application/installer/apply.go:845-875 | an explicit Rollback from the memory such a failure leaves undoes an installation already visible; it ends safely if and only if both effects were undone and the marker went, or nothing had been touched and nothing was |
| JobCoordinator.NextStepRaises | server/internal/application/installer/job.go:425-439 | along the order in which `apply` reports its steps, each report names a new step and a higher progress |
| JobCoordinator.ApplyJobService.Oldest | server/internal/application/installer/job.go:400-409 | the scan finds a least recently updated finished job other than the kept one, or none exactly when there is none |
| JobCoordinator.ApplyJobService.Prune | server/internal/application/installer/job.go:397-415 | at most eight jobs remain, exactly as many as were there if fewer; the kept one stays, the forgotten ones are the oldest, and the loop ends because only the kept job can be running |
| JobCoordinator.ApplyJobService.Start | server/internal/application/installer/job.go:125-173 | a job starts if and only if the service is open, no job runs and no rollback is in flight; it becomes the one active job |
| JobCoordinator.ApplyJobService.Admit | server/internal/application/installer/job.go:158-166 | the new job is active and remembered with everything that still fits |
| JobCoordinator.ApplyJobService.CheckRetry | server/internal/application/installer/job.go:210-219 | the check under its own lock passes exactly a failed job that may be retried, and changes nothing |
| JobCoordinator.ApplyJobService.InstallationActive | server/internal/application/installer/job.go:196-204 | true if and only if some remembered job is running |
| JobCoordinator.ApplyJobService.AppendOnce | server/internal/application/installer/job.go:432-439 | a step is listed at most once |
| JobCoordinator.ApplyJobService.UpdateProgress | server/internal/application/installer/job.go:383-395 | a report raises the running job's progress strictly and appends its step; reports for other jobs change nothing |
| JobCoordinator.BlamesTheNextStep | server/internal/application/installer/job.go:456-478 | an error without a stage of its own is blamed on the first step not yet reported, never on one that was |
| JobCoordinator.ApplyJobService.Conclude | server/internal/application/installer/job.go:261-322 | what success and failure make of a job: the failed stage is the error's own, or the coordination, request or lock stage of its kind, or the step after the last; a retry is offered exactly for busy, preflight and other errors of an open service |
| JobCoordinator.ApplyJobService.Finish | server/internal/application/installer/job.go:255-326 | the run's end frees the active slot and changes no other job; progress never goes down, and an unstaged failure names the first step not reported |
| JobCoordinator.ApplyJobService.BeginRollback | server/internal/application/installer/job.go:348-363 | a rollback begins if and only if it is confirmed, the job failed with something to roll back, and none is in flight |
| JobCoordinator.ApplyJobService.EndRollback | server/internal/application/installer/job.go:365-381 | the job snapshot written back after the unlocked rollback is still the stored job, so the write-back loses nothing and the table does not grow |
| JobCoordinator.Move | server/internal/application/installer/job.go:125-430 | one critical section: a start is admitted exactly on an open, idle coordinator without a rollback in flight, a report raises the active job by its next step, an end frees it, a rollback begins and ends on one snapshot |
| JobCoordinator.Interleave | server/internal/application/installer/job.go:125-430 | any interleaving of critical sections, each doing what is said of it: at most one job is running, it is the active one, at most eight are remembered, a closed idle service stays idle, and over the whole run no job's progress goes down |
| JobCoordinator.Retry | server/internal/application/installer/job.go:206-221 | a retry with anything between its check and its start: it starts a job if and only if the job was failed and retryable at the check and the guards of any other start admit it afterwards; otherwise nothing changes |
| PermissionCache.StepKeepsInv | server/internal/application/iam/cache.go:41-76 | each atomic step of lookups, evaluations, writes, mutations, invalidations, expiry and even injected allow entries keeps every cached deny honest for its generation |
| PermissionCache.RunKeepsInv | server/internal/application/iam/cache.go:41-76 | the same over every interleaving |
| PermissionCache.CachedDenyAgrees | server/internal/application/iam/service.go:1167-1177 | whenever the policy has not changed since the last invalidation, a served deny is the policy store's own answer |
| PermissionCache.ForeignEventsLeaveFlight | server/internal/application/iam/cache.go:41-76 | other threads never disturb an `Authorize` in progress |
| PermissionCache.QuietEventsKeepPolicy | server/internal/application/iam/service.go:2108-2120 | nothing but a policy mutation changes the policy |
| PermissionCache.RunsToPolicy | server/internal/application/iam/service.go:2108-2120 | the policy in force after any events is the last one saved |
| PermissionCache.CachedAuthorizer.Lookup | server/internal/application/iam/cache.go:42-52 | only a deny is ever served from the cache; a cached allow is ignored |
| PermissionCache.CachedAuthorizer.Decide | server/internal/application/iam/cache.go:54-66 | an allow and an evaluation error end the call without a cache entry |
| PermissionCache.CachedAuthorizer.Remember | server/internal/application/iam/cache.go:67-75 | a deny is written to the generation read before the evaluation, and nothing else; exactly a failed write fails the call |
| PermissionCache.CachedAuthorizer.Judge | server/internal/application/iam/cache.go:54-76 | from the evaluation on: failed if and only if it failed, or denied and its write failed; allowed if and only if the policy in force at the evaluation allows |
| PermissionCache.CachedAuthorizer.Authorize | server/internal/application/iam/cache.go:41-76 | failed if and only if the Get failed, or no deny was cached and the evaluation failed, or the policy in force at the evaluation denies and the Set failed; allowed if and only if Get and evaluation succeed, no deny was cached and that policy allows. An allow was true of some policy in force during this very call; a deny, of one in force since the last invalidation before it, and it is cached afterwards; with a quiet, invalidated policy the cached and the uncached answers are equal |
| PermissionCache.CachedAuthorizer.MutatePolicy | server/internal/application/iam/service.go:2108-2120 | a completed mutate-then-invalidate leaves no deny to serve that contradicts the policy then in force, whatever ran in between, other mutations included; the saved policy is recorded, and is the one in force if nobody else mutated |
| MenuTree.CycleNeverEnds | server/internal/application/iam/menu_routes.go:53-69 | on or below a parent cycle no climb ends |
| MenuFilter.VisibleUnfolds | server/internal/application/iam/service.go:2419-2439 | visibility is the fixpoint: showable, and visible parents up to a root or a dangling parent |
| MenuFilter.BelowCycleDropped | server/internal/application/iam/service.go:2419-2439 | nodes on or below a parent cycle are neither visible nor kept |
| MenuFilter.KeptUnfolds | server/internal/application/iam/service.go:2443-2468 | a node is kept if and only if it is visible and either allowed or a directory with a kept child |
| MenuFilter.KeptParentKept | server/internal/application/iam/service.go:2457-2464 | the directory parent of a kept node is kept |
| MenuFilter.HiddenBranchDropped | server/internal/application/iam/menu_routes.go:34-38 | nothing below a hidden, inactive or button node survives the filter |
| MenuFilter.Search.IsStructurallyVisible | server/internal/application/iam/service.go:2417-2439 | the memoised, cycle-guarded search answers exactly the recursive definition, from any memo state |
| MenuFilter.Search.IsPermitted | server/internal/application/iam/service.go:2441-2468 | so does the second search |
| MenuFilter.Search.AnyChildPermitted | server/internal/application/iam/service.go:2457-2464 | the child loop finds a kept child exactly when there is one |
| MenuFilter.OpenClimbs | server/internal/application/iam/service.go:2429-2436 | a node met again while open in the first search lies on a cycle |
| MenuFilter.OpenDescends | server/internal/application/iam/service.go:2453-2465 | a node met again while open in the second search lies on a cycle |
| MenuFilter.CollectCodes | server/internal/application/iam/service.go:2402-2407 | exactly the trimmed non-empty codes are allowed |
| MenuFilter.BuildIndex | server/internal/application/iam/service.go:2408-2415 | the index holds every menu and each child list exactly the children |
| MenuFilter.KeepPermitted | server/internal/application/iam/service.go:2470-2476 | exactly the kept menus, in list order |
| MenuFilter.VisibleMeans | server/internal/application/iam/service.go:2419-2439 | a menu is structurally visible if and only if it and all its stored ancestors are active, visible and no buttons, and its climb ends |
| MenuFilter.KeptMembers | server/internal/application/iam/service.go:2470-2476 | the result holds exactly the kept menus of the list, each once |
| MenuFilter.KeptMeans | server/internal/application/iam/service.go:2441-2476 | a page is in the result if and only if it is structurally visible and its trimmed permission is empty or a trimmed non-empty code; a directory, if and only if it is structurally visible and its trimmed permission is such a code or one of its children is in the result; nothing else is |
| MenuFilter.FilterMenusByAccessCodes | server/internal/application/iam/service.go:2401-2477 | on every list with unique IDs, cyclic ones included, the filter equals its simple recursive definition, and its result is the one described for `MenuFilter.KeptMeans`, in terms of the codes, the menu fields and the result alone: an ungranted directory stays exactly for a child that stays |
| MenuRoutes.OrderMenusOrdered | server/internal/application/iam/menu_routes.go:140-147 | siblings come out ordered by (Sort, ID) |
| MenuRoutes.OrderCount | server/internal/application/iam/menu_routes.go:140-147 | ordering neither loses nor duplicates a menu |
| MenuRoutes.LexMeans | server/internal/application/iam/menu_routes.go:145 | the order of IDs used by the sort is the lexical one: a proper prefix, or a smaller character at the first difference |
| MenuRoutes.ClimbDetectsCycle | server/internal/application/iam/menu_routes.go:55-69 | one climb reports a cycle only if there is one, and otherwise ends |
| MenuRoutes.IndexMenus | server/internal/application/iam/menu_routes.go:40-52 | the first loop fails exactly on a duplicate ID |
| MenuRoutes.AnyCycle | server/internal/application/iam/menu_routes.go:53-69 | the second loop fails exactly when the parent relation has a cycle |
| MenuRoutes.GroupMenus | server/internal/application/iam/menu_routes.go:71-84 | every displayed menu goes to its displayed parent's group, or to the roots |
| MenuRoutes.HeightBound | server/internal/application/iam/menu_routes.go:90-132 | without a cycle the recursive build is bounded in depth, so it terminates |
| MenuRoutes.NestedOccurrences | server/internal/application/iam/menu_routes.go:128-130 | a menu occurs in the forest once beneath each occurrence of its route parent and nowhere else |
| MenuRoutes.PathIsRelative | server/internal/application/iam/menu_routes.go:97-107 | below a parent whose path is a proper directory prefix a route shows the rest of its path, and its whole path everywhere else, or where nothing would be left |
| MenuRoutes.BuildMirrors | server/internal/application/iam/menu_routes.go:90-132 | every route carries the fields of its menu, with the path relative to its parent |
| MenuRoutes.DisplayedOnce | server/internal/application/iam/menu_routes.go:71-137 | every active, visible, non-button menu occurs exactly once |
| MenuRoutes.HiddenNever | server/internal/application/iam/menu_routes.go:73-76 | no other name occurs at all |
| MenuRoutes.ForestOrdered | server/internal/application/iam/menu_routes.go:85-88 | every sibling list of the forest is ordered |
| MenuRoutes.ForestPlaced | server/internal/application/iam/menu_routes.go:90-132 | every route stands under its menu's route parent with a path relative to that parent alone |
| MenuRoutes.ForestProjects | server/internal/application/iam/menu_routes.go:71-137 | the grouped, sorted and built forest is a projection of the list |
| MenuRoutes.BuildMenuRoutes | server/internal/application/iam/menu_routes.go:39-138 | fails if and only if an ID is duplicated or the parent relation has a cycle; otherwise the forest holds each displayed menu once, with its fields, below its displayed parent or at the root, under its relative path, siblings in order of sort and ID, and nothing else |
| MenuRoutes.HiddenBranchesGoneExactly | server/internal/application/iam/menu_routes.go:34-38 | no shown menu has a hidden ancestor if and only if every displayed menu's existing parent is displayed |
| MenuRoutes.PromotedChild | server/internal/application/iam/menu_routes.go:77-83 | for the list of a hidden directory and its visible child, which is accepted: every projection of it shows the child, as a root, below a hidden ancestor |
| MenuRoutes.KeptAcyclic | server/internal/application/iam/service.go:2345-2345 | what the filter keeps has unique IDs and no parent cycle |
| MenuRoutes.FilteredRoutes | server/internal/application/iam/service.go:2332-2346 | the composition never rejects, whatever cycles the stored menus contain, and projects exactly the kept menus |
| MenuParents.ValidateMenuParent | server/internal/application/iam/service.go:2733-2770 | over acyclic menus the walk ends and accepts a change exactly when the new parent is none, or another stored menu that is no button and whose climb does not meet the changed menu while that still has a parent |
| MenuParents.ClosesCycleExactly | server/internal/application/iam/service.go:2733-2770 | a stored change closes a parent cycle if and only if it puts the menu at or below itself |
| MenuParents.MissedCyclesExactly | server/internal/application/iam/service.go:2752-2768 | a change that passes the check closes a cycle if and only if it puts the menu below itself while it is stored as a root, or not stored yet |
| MenuParents.RootUnderItsChild | server/internal/application/iam/service.go:2752-2768 | for a stored root and its child: moving the root below the child passes the check, and the two are then each other's parent |
| FileStore.RowCallIsSafe | server/internal/application/file/service.go:310-314 | calls on rows and stages keep each ready row on its object as recorded |
| FileStore.ObjectCallIsSafe | server/internal/application/file/service.go:344-350 | publishing or removing one object affects only the row it belongs to |
| FileStore.DisciplinedCallIsSafe | server/internal/application/file/service.go:309-474 | whatever a call meets, a ready row has its object under its stored key with the recorded size and digest, objects leave only under a row being deleted, and deleted rows never change |
| FileStore.DisciplinedRunIsSafe | server/internal/application/file/service.go:309-1431 | the same at every moment of every run |
| FileStore.DeletedIsAbsorbing | server/internal/application/file/service.go:1329-1354 | once deleted, a row stays deleted for the rest of the run |
| FileStore.HousekeepingIsMeanwhile | server/internal/application/file/service.go:1292-1431 | no call of a deletion, cleanup or reconciliation changes more of another thread's row than its status, publishes or stages anything, removes an object except under a row being deleted, or deletes a row before its stage is gone |
| FileStore.MeanwhileTransitive | server/internal/application/file/service.go:1292-1431 | that bound composes over whole passes |
| FileService.World.Do | server/internal/application/file/service.go:309-1431 | every repository and provider call is logged with its outcome, answers as the store it meets demands, and keeps the store safe |
| FileService.World.Mark | server/internal/platform/fileplatform/gorm_repository.go:457-520 | a status changes only along the repository's transitions; a refused change leaves everything as it was |
| FileService.World.Update | server/internal/platform/fileplatform/gorm_repository.go:366-455 | a row is rewritten only from its own status or from pending to ready |
| FileService.Service.FailUpload | server/internal/application/file/service.go:454-461 | the failure path touches no object, and without faults ends with a failed row and no stage |
| FileService.Service.Reject | server/internal/application/file/service.go:454-461 | a rejection of an upload whose row exists ends with the attempt to mark the row failed, and keeps its reason |
| FileService.Service.Stage | server/internal/application/file/service.go:315-330 | goes on if and only if the content was accepted and its staging was confirmed |
| FileService.Service.StageAndKey | server/internal/application/file/service.go:315-343 | a keyed row is still pending, is stored under its final key, and records the size and digest of the uploaded bytes, whatever passes ran meanwhile |
| FileService.Service.RecordKey | server/internal/application/file/service.go:331-343 | the observed size, digest and key are recorded in the row if and only if the row is still pending and the update is confirmed |
| FileService.Service.Fill | server/internal/application/file/service.go:315-474 | an upload from its created row on: rejected with reason, or stored |
| FileService.Service.Publish | server/internal/application/file/service.go:344-355 | a stored answer means a ready row whose object is the uploaded content, whatever passes ran before the promotion and after it |
| FileService.Service.PromoteKeyed | server/internal/application/file/service.go:344-350 | a promotion that is not confirmed ends the upload as failed; otherwise the object is the staged content under the recorded key |
| FileService.Service.Finalize | server/internal/application/file/service.go:351-355 | stored if and only if the last call, the update to ready, succeeded |
| FileService.Service.MakeReady | server/internal/application/file/service.go:351-355 | the row becomes ready if and only if the update is confirmed and not refused, which takes a row that still is pending or already ready; then its object is still there |
| FileService.Service.Upload | server/internal/application/file/service.go:258-474 | with deletion requests and maintenance passes, of its own row too, between any two of its calls, and a failure or crash at any of them, every state stays safe; a stored answer means accepted and staged content and a ready row over exactly the uploaded bytes; a rejection is earned: the content was not accepted or one of the upload's own calls did not succeed; undisturbed it is stored if and only if the content is accepted |
| FileService.Service.RunPass | server/internal/application/file/service.go:1161-1431 | one deletion request or pass, under any failures, stays within what passes may do to an upload in flight, and undisturbed does its whole work |
| FileService.Service.DeleteFile | server/internal/application/file/service.go:1161-1188 | deletion is a request: accepted if and only if the lookup succeeded and the row is being deleted already, or is neither deleted nor in use and its update to deleting was confirmed; it changes the status of that row alone, and a refusal without faults changes nothing |
| FileService.Service.DeleteOne | server/internal/application/file/service.go:1338-1352 | a row is marked deleted only after its object and stage are gone; the answer says exactly which of the three calls failed |
| FileService.Service.ProcessDeleting | server/internal/application/file/service.go:1329-1354 | the count is that of the confirmed deletions; without faults the pass deletes every listed row, whatever a crash left of it before |
| FileService.Service.ExpireOne | server/internal/application/file/service.go:1378-1391 | a row is touched if and only if it was created at or before the cutoff, and fails only once its stage is gone |
| FileService.Service.Expire | server/internal/application/file/service.go:1384-1391 | the stage first, then the status; the answer says exactly which of the two calls failed |
| FileService.Service.CleanupPending | server/internal/application/file/service.go:1358-1393 | the count is that of the confirmed failures; without faults exactly the listed rows created at or before the cutoff fail and are counted, and no object is touched |
| FileService.Service.ReconcileOne | server/internal/application/file/service.go:1415-1429 | an update is attempted if and only if the probe succeeded and the object is there, and the row is recovered exactly when it was confirmed |
| FileService.Service.ReconcilePending | server/internal/application/file/service.go:1399-1431 | the count is that of the confirmed updates; without faults exactly the listed pending rows with an object become ready and are counted |
| FileService.DeletionRace | server/internal/application/file/service.go:1338-1352 | a deletion split call by call meets a promotion safely if and only if that does not fall between the removal of the object and the removal of the stage; there, the deleted row keeps an object |
| FileService.StaleReconciliation | server/internal/application/file/service.go:1415-1429 | a reconciliation that listed a row before the upload recorded its size is safe if and only if the size declared was the size uploaded |
| FileService.OutdatedUpdate | server/internal/platform/fileplatform/gorm_repository.go:366-448 | a row made ready on an outdated check stays safe if and only if its object is there as recorded, so never once it was deleted |
| FileService.Operate | server/internal/application/file/service.go:258-1431 | any list of uploads, with deletions and maintenance passes between their calls, each with any failures or a crash: each operation does what is said of it, safety at every instant, deletion absorbing |
| Categories.PathUnique | server/internal/application/file/service.go:955-964 | a node has only one path to a root |
| Categories.PathHasNoRepeats | server/internal/application/file/service.go:955-964 | a path to a root visits no node twice, which bounds every ancestor walk |
| Categories.AboveOnPath | server/internal/application/file/service.go:955-964 | the ancestors of a node are exactly the nodes of its one root path |
| Categories.InsertKeepsForest | server/internal/application/file/service.go:794-813 | a new category under an existing parent of its scope keeps the forest |
| Categories.RemoveKeepsForest | server/internal/application/file/service.go:1014-1033 | removing a category without children keeps the forest |
| Categories.EditKeepsForest | server/internal/application/file/service.go:941-943 | renaming or disabling moves nothing |
| Categories.MoveKeepsForest | server/internal/application/file/service.go:951-965 | the ancestor check is exact: a move leaves a forest if and only if the moved category is not the new parent or one of its ancestors |
| Categories.CategoryService.CreateCategory | server/internal/application/file/service.go:758-815 | accepted and refused exactly as scope, parent and name demand; the stored parent is in the child's scope although scopes are stored trimmed and compared raw; a refusal changes nothing |
| Categories.CategoryService.MeetsAncestor | server/internal/application/file/service.go:955-964 | the walk terminates and finds the category exactly when it is an ancestor |
| Categories.CategoryService.UpdateCategory | server/internal/application/file/service.go:932-970 | refused as invalid if and only if the moved category is an ancestor of its new parent; as denied if and only if a scope differs or it would be its own parent; a refusal changes nothing |
| Categories.CategoryService.DeleteCategory | server/internal/application/file/service.go:1004-1035 | deleted if and only if it exists in the caller's scope and neither a category nor a file refers to it; exactly that row goes |
| Categories.CategoryService.Serve | server/internal/application/file/service.go:758-1035 | any sequence of create, update and delete calls leaves a forest: every parent exists in its child's scope and every climb ends |
| CategoryCatalog.ClosedHoldsReachable | server/internal/application/file/catalog.go:560-570 | every closed set that holds the seed holds everything reachable, so the loop's result is the least fixpoint |
| CategoryCatalog.Expand | server/internal/application/file/catalog.go:560-570 | the `changed` loop terminates and yields exactly the categories reachable from the seed by listed parent links, for any list, cyclic or with duplicates |
| CategoryCatalog.AllowedForMedia | server/internal/application/file/catalog.go:551-571 | a media listing accepts the root and everything below it, and nothing when the root is not visible |
| CategoryCatalog.FromChildren | server/internal/application/file/catalog.go:814-818 | starting from the children is starting one link below the root |
| CategoryCatalog.AllowedForPicker | server/internal/application/file/catalog.go:812-834 | a picker lists the children, or everything properly below the parent, whether or not the parent is visible |
| CategoryCatalog.DescendantsOnForest | server/internal/application/file/catalog.go:851-879 | on a stored forest the descendants found in a scope's view are exactly the categories with the root as a proper ancestor |
| CategoryCatalog.ClimbNames | server/internal/application/file/catalog.go:1385-1404 | the climb terminates on every map and collects one name per node |
| CategoryCatalog.ReverseParts | server/internal/application/file/catalog.go:1405-1407 | the in-place reversal |
| CategoryCatalog.CategoryPath | server/internal/application/file/catalog.go:1385-1409 | the display path is the climb's names, root first |
| CategoryCatalog.WalkFollowsLinks | server/internal/application/file/catalog.go:1389-1404 | the climb follows parent links from the category up |
| CategoryCatalog.WalkVisitsOnce | server/internal/application/file/catalog.go:1390-1394 | even on a cycle no node is named twice |
| CategoryCatalog.WalkStopsLate | server/internal/application/file/catalog.go:1390-1404 | it stops only at a root, below a missing parent, or where the next node was already named |
| CategoryCatalog.WalkIsRootPath | server/internal/application/file/catalog.go:1385-1404 | on a forest the climb is the path to the root |
| CategoryCatalog.VisiblePathIsComplete | server/internal/application/file/catalog.go:836-849 | a category a scope can see is shown with its complete path, because its whole root path is visible too |
| RangeReaders.SizeCheckedReader.Read | server/internal/application/file/service.go:1133-1150 | delivers the next bytes of the object, never past the recorded size, and turns the first early end into an unexpected end with one damage report |
| RangeReaders.SizeCheckedReader.CopyN | server/internal/application/file/catalog.go:683-690 | copies exactly the bytes it counts; a signal is reported only if it stopped short |
| RangeReaders.RangeReader.SkipToStart | server/internal/application/file/catalog.go:683-690 | skipping delivers nothing and either reaches the start or reports the first signal |
| RangeReaders.RangeReader.Read | server/internal/application/file/catalog.go:683-699 | for any buffer sizes and any short reads the bytes handed out stay a prefix of the range, and the first signal means what it says |
| RangeReaders.NormalizeRange | server/internal/application/file/catalog.go:1288-1300 | a range is accepted if and only if it starts at or after zero, does not end before it starts and ends inside the object; the bounds are the start given or zero, and the end given plus one or the size |
| RangeReaders.Open | server/internal/application/file/catalog.go:662-674 | the whole object is read through the size check alone, anything else through a range reader that starts at its beginning |
| RangeReaders.ReadRange | server/internal/application/file/catalog.go:683-699 | reading a range to its first signal terminates with the delivered bytes and the meaning of that signal |
| RangeReaders.ReadWhole | server/internal/application/file/service.go:1133-1150 | reading a whole object to its first signal: a clean end means the recorded size, an unexpected one a damaged object |
| RangeReaders.ReadingDelivers | server/internal/application/file/catalog.go:1288-1300 | a clean end of a reading within normalised bounds means byte by byte the part of the object asked for, from the first byte given or the beginning to the last one given or the end, both included |
| RangeReaders.OpenAndRead | server/internal/application/file/catalog.go:651-699 | for every object, size, range and buffering, unless a read fails: a clean end means exactly the bytes from the start asked for to the end asked for, both included, except that nothing was delivered of an object ending exactly where a skipped range starts while ends ride with bytes; with ends announced alone, an unexpected end and one damage report come if and only if the object stops short of the range; with riding ends, exactly when the unexpected end comes |
| RangeReaders.OverlookedEnd | server/internal/application/file/catalog.go:683-690 | through a reliable provider whose ends ride with the last bytes, a clean end without the whole range comes if and only if the range starts where the object ends short of it, whatever the buffers, and then delivers nothing |
| RangeReaders.OverlookedByte | server/internal/application/file/catalog.go:683-690 | such an input: a one-byte object recorded as two bytes, read from its second byte on |
| UsageIndex.ScopeKey | server/internal/application/file/catalog.go:1207-1215 | no member's scope key is empty or the platform administrator's |
| UsageIndex.DescribedKey | server/internal/application/file/catalog.go:1114-1116 | storing trimmed fields does not change a usage's key |
| UsageIndex.SameKeySameUsage | server/internal/application/file/catalog.go:1489-1491 | two stored usages whose fields hold no NUL share a key only if they are the same usage of the same scope |
| UsageIndex.UsageTwinExactly | server/internal/application/file/catalog.go:1489-1491 | a usage whose fields are present and hold no white space has a different usage with the same key if and only if a NUL stands inside a field where a neighbouring boundary can be put instead |
| UsageIndex.InnerNulKey | server/internal/application/file/catalog.go:1489-1491 | two concrete usages with one key |
| UsageIndex.MembersCollide | server/internal/application/file/catalog.go:1207-1215 | two scopes the tenant rules admit share a key while different exactly when their joined IDs agree |
| UsageIndex.ScopeTwinExactly | server/internal/domain/tenant/context.go:42-156 | an admissible member scope has a different admissible scope with the same key if and only if its joined IDs split at another colon into two IDs short enough |
| UsageIndex.ShortScopeTwin | server/internal/application/file/catalog.go:1207-1215 | for IDs whose bytes together fit one ID: if and only if the organization holds a colon, or the tenant does after its first character |
| UsageIndex.CollidingExample | server/internal/application/file/catalog.go:1207-1215 | tenant a:b with organization c, and tenant a with organization b:c, are admissible, different and share a key |
| JoinedKeys.TwinShifts | server/internal/application/file/catalog.go:1489-1491 | two different lists of non-empty parts that join to one string differ by a shifted boundary |
| JoinedKeys.ShiftGivesTwin | server/internal/application/file/catalog.go:1489-1491 | every shiftable boundary gives such a second list |
| UsageIndex.AddKeepsInverse | server/internal/application/file/catalog.go:1104-1106 | adding a usage keeps `byKey` the exact inverse of `items` |
| UsageIndex.RemoveKeepsInverse | server/internal/application/file/catalog.go:1160-1163 | removing one in both directions leaves nothing dangling |
| UsageIndex.MemoryUsageService.AttachKeyed | server/internal/application/file/catalog.go:1104-1127 | a live usage is found again and nothing changes; a keyed retry answers from its record and revives nothing; a reused key with another payload conflicts |
| UsageIndex.MemoryUsageService.Attach | server/internal/application/file/catalog.go:1087-1127 | refused as invalid if and only if a trimmed field is empty; otherwise a live usage is found again, a keyed retry is answered from its record and changes nothing, and anything else stores exactly one new usage with trimmed fields in both directions under the caller's scope, and its record if it is keyed |
| UsageIndex.MemoryUsageService.DetachKeyed | server/internal/application/file/catalog.go:1134-1174 | accepted exactly for the stored scope or the platform administrator, or as a recorded or tombstone retry; removes both directions only and keeps the tombstone |
| UsageIndex.MemoryUsageService.RemovalRight | server/internal/application/file/catalog.go:1162-1165 | the comparison of stored and caller keys lets in exactly the platform administrator, the scope that attached the usage, and the scopes colliding with it |
| UsageIndex.MemoryUsageService.Detach | server/internal/application/file/catalog.go:1129-1174 | a usage disappears, in both directions and alone, only for the platform administrator, the scope that attached it, or a scope colliding with that one; without a key exactly then; a keyed retry is answered from the record kept for its scope and key, and a keyed success leaves such a record |
| UsageIndex.MemoryUsageService.DetachTwice | server/internal/application/file/catalog.go:1134-1174 | a keyed detachment repeated by the same scope is answered as before and changes nothing |
| UsageIndex.MemoryUsageService.ForeignDetach | server/internal/application/file/catalog.go:1129-1174 | whenever two different scopes collide, the one detaches what the other attached |
| UsageIndex.MemoryUsageService.SharedUsageKey | server/internal/application/file/catalog.go:1105-1107 | whenever two complete usages have one key, attaching the second is answered with the first, and the index holds the first alone under that key |
| UsageIndex.MemoryUsageService.InnerNulShared | server/internal/application/file/catalog.go:1105-1107 | a new service after two different usages with a NUL inside: only the first is there, found under the key of the second |
| UsageIndex.MemoryUsageService.AttachThenDetach | server/internal/application/file/catalog.go:1087-1174 | attaching a new usage and detaching it restores both directions |
| UsageIndex.MemoryUsageService.RetryAfterDetach | server/internal/application/file/catalog.go:1110-1116 | a keyed attachment repeated after its detachment succeeds with a reference that names nothing |
| UsageIndex.MemoryUsageService.Serve | server/internal/application/file/catalog.go:1087-1174 | each of any sequence of calls across scopes does what is said of it, and after all of them `byKey` is exactly the inverse of `items` under stored scope and usage key |
| JobQueue.BudgetUpdate | server/internal/application/jobs/queue.go:152-183 | the failures all live tasks can still take form a measure that changes only by what the touched task lost |
| JobQueue.MemoryQueue.Enqueue | server/internal/application/jobs/queue.go:90-120 | a key seen before returns the stored task and changes nothing; a new one stores exactly one pending task; conflicts only for a foreign ID |
| JobQueue.MemoryQueue.ClaimPending | server/internal/application/jobs/queue.go:122-137 | empty if and only if nothing is pending or retryable; otherwise exactly one such task becomes running |
| JobQueue.MemoryQueue.Fail | server/internal/application/jobs/queue.go:152-183 | one attempt more, dead at the limit and retryable below it, under the code of the cause; settled tasks are left alone |
| JobQueue.MemoryQueue.Transition | server/internal/application/jobs/queue.go:185-227 | settled tasks conflict; any other takes exactly the new status |
| JobWorker.OneTaskMoves | server/internal/application/jobs/worker.go:54-151 | a step on one task keeps every other task's bookkeeping |
| JobWorker.RunShrinksBudget | server/internal/application/jobs/worker.go:156-171 | every claimed run makes its task terminal or raises its attempts, so the draining measure falls |
| JobWorker.Worker.HandlerCallsAreBounded | server/internal/application/jobs/worker.go:115-151 | a task enqueued below its limit has its handler called at most as often as it had attempts left, any other at most once |
| JobWorker.Worker.LiveTasksStayBelowLimit | server/internal/application/jobs/queue.go:152-183 | a live task is below its limit if and only if it was enqueued below it |
| JobWorker.Worker.Cancel | server/internal/application/jobs/queue.go:207-227 | an outside cancellation at any moment keeps the workers' bookkeeping |
| JobWorker.Worker.Claim | server/internal/application/jobs/queue.go:122-137 | a claimed task is held by no other run, though an earlier run on its way out may still mark it in flight |
| JobWorker.Worker.Begin | server/internal/application/jobs/worker.go:54-82 | stops exactly for an ended context (cancelled), a missing handler (one attempt used) or an ID still in flight (nothing done: the claimed task is stranded), else marks the task in flight |
| JobWorker.Worker.Enter | server/internal/application/jobs/worker.go:81-98 | the handler is called exactly when the context is alive and the run's copy is not settled, within the concurrency limit |
| JobWorker.Worker.Settle | server/internal/application/jobs/worker.go:133-150 | the queue transition each handler outcome asks for, and none on a settled task |
| JobWorker.Worker.Return | server/internal/application/jobs/worker.go:133-151 | the queue transition alone: the run still holds its slot and its mark, so a failed task can be claimed under them |
| JobWorker.Worker.FreeSlot | server/internal/application/jobs/worker.go:93 | exactly one slot is free again, and nothing else changes |
| JobWorker.Worker.Unmark | server/internal/application/jobs/worker.go:83 | the in-flight mark goes, and nothing else changes |
| JobWorker.Worker.Exit | server/internal/application/jobs/worker.go:83-93 | both deferred steps: the slot and the mark are released whatever the outcome |
| JobWorker.Worker.Proceed | server/internal/application/jobs/worker.go:81-151 | from the in-flight mark on, whatever slots other runs hold: what becomes of the task, whether the handler was called, and that it waits exactly when every slot is taken |
| JobWorker.Worker.Execute | server/internal/application/jobs/worker.go:54-151 | what a whole run makes of a claimed task and whether it called the handler, among any other runs under way; it strands the task if and only if its context is alive, a handler is registered and the ID is still in flight |
| JobWorker.Worker.RunOnce | server/internal/application/jobs/worker.go:156-171 | from any state: nothing claimable, nothing changed and no error; or exactly one claimable task settled, one attempt poorer, stranded (if and only if its ID is still in flight) or waiting for a slot, and what is reported is the handler's outcome, the ended context or the missing handler |
| JobWorker.Worker.NothingLeft | server/internal/application/jobs/worker.go:156-171 | with no run under way and nothing to claim, every task is settled or stranded |
| JobWorker.Worker.Drain | server/internal/application/jobs/worker.go:173-193 | repeated `RunOnce` on a quiet worker ends with every task terminal or stranded already, strands none, runs at all exactly when something is claimable, and takes at most as many rounds as failures could be taken |
| JobWorker.ClaimUntil | server/internal/application/jobs/queue.go:122-137 | runs claim, as many as it takes, until one of them has a given claimable task, and nothing else happens |
| JobWorker.StrandTask | server/internal/application/jobs/worker.go:75-151 | every run of a task below the attempt limit can end so, whatever else is queued: its handler fails, some run claims the task under the mark still standing and returns, and the task stays running with no run to settle it |
| JobWorker.StrandedTask | server/internal/application/jobs/worker.go:75-151 | a concrete queue and worker left quiet with one task running for ever |
| JobWorker.Move | server/internal/application/jobs/worker.go:54-171 | one critical section: a claim takes some claimable task, a begun run is given up, stranded or waits, an entered one calls its handler or leaves, a returned one settles its task, and a step that is not possible yet does nothing |
| JobWorker.Interleave | server/internal/application/jobs/worker.go:54-171 | any interleaving of enqueues, outside cancellations and concurrent runs, each in its separate critical sections and each doing what is said of it: a running task is held by one run or stranded, the concurrency limit and the bound on handler calls hold, and a stranded task stays as it is unless cancelled from outside |
| RateLimiter.SpreadOut | server/internal/application/auth/rate_limit.go:61-71 | calls as many limits apart as buckets reach over a window do not share a window |
| RateLimiter.WindowBound | server/internal/application/auth/rate_limit.go:61-71 | when decisions are at most `skew` out of order, any closed interval of one window length holds at most the limit times the number of buckets that reach over it |
| RateLimiter.ThreeBucketsBound | server/internal/application/auth/rate_limit.go:61-71 | with decisions at most a quarter of a window out of order, at most three times the limit less one |
| RateLimiter.LimitOneBound | server/internal/application/auth/rate_limit.go:61-71 | with a limit of one and decisions less than half a window out of order, at most two |
| RateLimiter.ExpiryKeeps | server/internal/application/auth/rate_limit.go:56-60 | sweeping an expired bucket keeps its key's history paced |
| RateLimiter.DecidedKeeps | server/internal/application/auth/rate_limit.go:54-71 | a decision on an instant at most `skew` older than the latest keeps every key's history paced |
| RateLimiter.MemoryRateLimiter.Sweep | server/internal/application/auth/rate_limit.go:56-60 | exactly the expired buckets go |
| RateLimiter.MemoryRateLimiter.Count | server/internal/application/auth/rate_limit.go:61-71 | a call is counted against a live bucket with room or starts a new one |
| RateLimiter.MemoryRateLimiter.Decide | server/internal/application/auth/rate_limit.go:54-71 | under the lock, on an instant read before it: allowed exactly without a live bucket or with room in it, the called bucket counted or restarted, expired buckets gone and no others touched; the new table is the one the runs below are about |
| RateLimiter.MemoryRateLimiter.Allow | server/internal/application/auth/rate_limit.go:40-72 | a whole call: the answer, the called key's own bucket and its history, so that calls chain |
| RateLimiter.RefusalIsEarned | server/internal/application/auth/rate_limit.go:66-68 | a refused key already had its limit of calls allowed less than a window and the skew ago |
| RateLimiter.InOrderIsClose | server/internal/application/auth/rate_limit.go:53-54 | locks taken in the order of the clock reads leave no decision out of order |
| RateLimiter.PromptIsClose | server/internal/application/auth/rate_limit.go:53-54 | locks taken within a delay of the clock read keep decisions within that delay of order |
| RateLimiter.RunKeeps | server/internal/application/auth/rate_limit.go:40-72 | a whole run whose decisions are at most `skew` out of order keeps every history paced |
| RateLimiter.BoundOutOfOrder | server/internal/application/auth/rate_limit.go:40-72 | over any such run no key is allowed more than `buckets` times the limit in any one window length, where `buckets * (window - skew) >= 2 * window + skew` |
| RateLimiter.Step | server/internal/application/auth/rate_limit.go:40-72 | one clock read or one critical section of the limiter is one event of the run |
| RateLimiter.Serve | server/internal/application/auth/rate_limit.go:40-72 | the limiter, called concurrently in any order of clock reads and locks, comes to exactly the table and the histories the bounds are about |
| RateLimiter.BoundInOrder | server/internal/application/auth/rate_limit.go:40-72 | at most twice the limit when locks are taken in the order of the clock reads |
| RateLimiter.BoundPrompt | server/internal/application/auth/rate_limit.go:40-72 | the general bound over all runs in which every lock is taken within a delay of its clock read |
| RateLimiter.TwoBucketsRun | server/internal/application/auth/rate_limit.go:61-71 | a run without delay that reaches twice the limit |
| RateLimiter.ThreeBucketsRun | server/internal/application/auth/rate_limit.go:53-71 | a run of the non-decreasing clock, each lock at most one tick late, that reaches three times the limit less one in one window length |
| RateLimiter.LateLocksPrompt | server/internal/application/auth/rate_limit.go:53-54 | the clock of the run `LateLocks` never goes back and its locks are late by at most the delay given, half a window or more |
| RateLimiter.LateLocksRun | server/internal/application/auth/rate_limit.go:53-71 | under a limit of one that run lets three calls through in one window length |
| RateLimiter.Flood | server/internal/application/auth/rate_limit.go:53-71 | for any limit and any `n` there is a run of the non-decreasing clock, each lock at most one window late, that lets `n` calls for one key through on one instant |
| RateLimiter.TwiceTheLimitExactly | server/internal/application/auth/rate_limit.go:40-72 | over all runs of the non-decreasing clock whose locks are at most `delay` late: no key exceeds twice the limit in one window length if and only if the delay is zero, or the limit is one and twice the delay is less than the window |
| RateLimiter.BestInOrder | server/internal/application/auth/rate_limit.go:40-72 | without delay, a bound holds for all runs if and only if it is at least twice the limit |
| RateLimiter.BestShortDelay | server/internal/application/auth/rate_limit.go:40-72 | with a delay of one tick to a quarter of a window, a bound holds for all runs if and only if it is at least three times the limit less one |
| RateLimiter.BoundedExactly | server/internal/application/auth/rate_limit.go:40-72 | some bound holds for all runs if and only if the delay is less than a window |

## Left out

- InstallWorld.Perform, InstallPorts.World.Perform: journal updates and removals act only on the matching ID, a compensation that reports success leaves its effect absent, and effects appear only under the reference asked for; the adapters behind the ports are not modelled.
- InstallApply.ApplyService.Rollback: assumes that an identity rollback that reports success leaves the identity absent; the identity installer also answers so for an identity it does not remember, and `InstallRuns.ForgottenIdentityOrphans` says exactly when that matters.
- InstallApply.ApplyService.Apply: only the prepared path (a journal, a prepared identity installer with recovery, a prepared environment installer); installers without these capabilities are not modelled.
- InstallApply.ApplyService.FinishCommitted: finalizers and backup housekeeping are calls that may fail and have no durable effect of their own.
- InstallPorts.World.Acquire: the lease is one that is held or not; its expiry and the in-process mutex are not modelled.
- InstallPorts.World.Time: the clock advances at every reading and is never zero, and a drawn transaction ID is new.
- Database target digests, content digests and integrity hashes are opaque values; parsing of connection strings and of requests is a validity flag.
- JobCoordinator.ApplyJobService.Finish: numeric error codes, keys and diagnostics of a failed job are not part of this model; neither are the background context, timeouts and the wait in `Close`.
- PermissionCache.CachedAuthorizer.Authorize: entries may expire at any moment instead of after a TTL, and the expiry of the shared generation counter itself is not modelled.
- MenuFilter.FilterMenusByAccessCodes: lists with duplicate IDs, which the store's keys rule out, are not modelled.
- MenuRoutes.BuildMenuRoutes: menus arrive normalised (`NormalizeMenu` is not part of this model), the component check of `buildValidatedMenuRoutes` is left out, and the stable sort is a function.
- MenuParents.ValidateMenuParent: lookups that fail for other reasons than a missing menu are not modelled.
- InstallRuns.Operate: what further calls make of a stray environment is not followed; what the explicit rollback does before which a run may end is `InstallRuns.ForeignReceiptRemembered`.
- FileService.Service.Upload: the staging-store path only; streaming and byte-slice providers, partly written stages, and a local store's leftover stage file after a failed unlink are not modelled. Between the calls of an upload the passes run as wholes; call against call only the races named above are treated.
- FileService.World.Update, FileService.World.Mark: the repository's check of the present status and its write are one step, although `Update` writes without repeating the check; `FileService.OutdatedUpdate` says when that matters.
- FileService.Service.DeleteFile: the repository that deletes under its own transaction and the in-memory tombstones are left out; access checks are a lookup that may fail.
- Categories.CategoryService.CreateCategory: the in-memory tree; the repository-backed path walks the same chain but without a lock around the walk and the update.
- CategoryCatalog.AllowedForMedia: filtering, ordering and paging of the listed files are left out.
- RangeReaders.NormalizeRange: 64-bit overflow of the inclusive end, which ends in the same refusal, is not modelled.
- UsageIndex.MemoryUsageService.Attach: the resource check is an answer passed in; `ListByResource` is left out.
- JobWorker.Worker.Execute: one run per claim through `RunOnce`; direct concurrent calls on one task ID, the polling interval of `Run`, lease renewal of distributed queues and payload copies are left out.
- RateLimiter.MemoryRateLimiter.Allow: the run theorem takes one limit and window; saturation of time arithmetic is not modelled.
- Mutexes and semaphores: a critical section is one atomic step, and a blocked run simply has not taken its step yet.
- HTTP routing, configuration, GORM, Redis and storage adapters, and the user interfaces.

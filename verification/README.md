# A verified model of the agent's durable protocols

The agent keeps its memory, configuration and history in one directory, the home, and changes it
through protocols that must survive being killed at any moment: restoring the home from a backup,
taking a backup, collecting old backups, freezing the gateway for maintenance, delivering events
in order, firing scheduled jobs, and rewriting memory every night. This project models those
protocols, and four smaller algorithms beside them, and proves what they promise.

## How the model is built

* **Process death.** A process that holds a lock runs alone, so what it will write is a function of
  the disk it starts from: a sequence of durable effects. Killing it leaves the result of a prefix
  of that sequence (`Crash.dfy`). Theorems about restore, backup and the nightly rewrite quantify
  over every such prefix, and over any number of later processes that die in their turn.
* **Imperative where the source is.** Each service that changes things step by step is a class
  whose methods carry the source's loops and branches (a straight run of writes, without a branch, is
  performed from one list); every method is proved equal to the
  specification function that the theorems are about. The field `life` counts the durable effects a
  process still performs before it dies.
* **Races.** Where processes share a store under a revision check (lifecycle, cron, backup
  operations), a run is an arbitrary interleaving of reads and writes, each write using whatever the
  process read last, however old.
* **Libraries.** Hashing is a function parameter, injective where a theorem says so; sealing is an
  invertible box; an SQLite transaction is one step; a clock, a random id, a model's answer and a
  token count are parameters.

## Files

| file | what it holds |
|---|---|
| `Crash.dfy`, `Wrappers.dfy` | effects, prefixes, shared datatypes |
| `Restore.dfy`, `RestoreOutcome.dfy`, `RestoreReplay.dfy` | whole-home restore; how it ends; when a recovery moves the home away again |
| `Journal.dfy`, `TornJournal.dfy` | the write-ahead journal; what a death inside an append does to a restore |
| `ObjectStore.dfy`, `BackupOperations.dfy`, `BackupFinish.dfy` | objects and manifests, the operation table, finishing a frozen backup |
| `Prestage.dfy`, `Retention.dfy`, `Prune.dfy` | copying before and inside the freeze, retention and garbage collection, retentions that run beside other processes |
| `Maintenance.dfy` | lifecycle history, the write gate |
| `Delivery.dfy` | the event socket and the bus |
| `Cron.dfy`, `CronStore.dfy` | due points and dispatches, the two tables |
| `Dream.dfy` | the nightly rewrite: evidence ledger, file transaction, undo |
| `Generation.dfy`, `ProfileView.dfy` | plugin sets, quarantine, per-profile views, plugin settings |
| `Operations.dfy`, `Compression.dfy` | reducing attempts, choosing what to compress and trim |

## What turned out not to hold

Each of these is proved with the exact condition under which it happens; where it is not plain that the
condition can be met, a run or an input that meets it is proved as well.

* Rolling a restore back leaves the new home in place when there was no old one and the new one had
  been installed (`Restore.RollbackReturnsWhatItFound`, `Restore.NewHomeStaysWithoutAnOldOne`).
* A retried action commits only under its retry's name, so a later recovery can undo a rollback
  (`RestoreReplay.RecoveryCanUndoARollback`): it does if and only if the last open intent still fits
  the slots (`RestoreReplay.RecoveryMovesTheHomeExactlyWhen`).
* A death inside an append leaves a torn last line, or a whole one without its newline, which the
  next append spoils. The old home is still kept, but rollback works if and only if the last line has
  its newline (`TornJournal.TornCrashSafety`), and one recovery can strand the home in the rollback
  slot (`TornJournal.RecoveryStrandsTheHome`, `TornJournal.TornStopsEverything`).
* A backup made with a passphrase does not survive the death of its process: the next start fails it
  and drops its snapshot (`BackupFinish.InterruptedPassphraseFails`). A backup is lost like this, or
  parked, if and only if some start finds no secret or a wrong one (`BackupFinish.StartsStop`).
* A file whose kind changed between prestaging and the freeze is copied as its old kind: a new
  database is copied without its log (`Prestage.PrestagingRefinesFrozenCopying`,
  `Prestage.StaleKindLosesTheLog`, `Prestage.NewDatabaseIsCopiedRaw`).
* A manifest published outside the backup directory by an operation that then failed keeps its
  objects if and only if surviving records name them too
  (`Retention.FailedElsewhereKeepsOnlyWhatItShares`, `Retention.FailedElsewhereIsNotProtected`).
* Retention checks once that no backup is active, and takes no lock. A backup that another process
  starts meanwhile can lose exactly the objects that the listed manifests had not named
  (`Prune.StartedInBetweenLosesTheUnread`, `Prune.EveryCatalogCanLose`), and one registered meanwhile
  outside the backup directory is forgotten (`Prune.EndForgetsRegistrations`).
* More than 100000 due points leave a coalescing job without a next run
  (`CronScheduler.CoalescingCursorIsNextFuture`, `CronScheduler.TooManyDuePoints`).
* A nightly commit that is killed after its first canonical memory row leaves rows behind
  (`Dream.CrashKeepsCanonicalRows`); one that raises counts its evidence as processed although the
  run failed (`Dream.FailedRunsAndTheirEvidence`), and if it raised before its backup was complete
  it blocks every rollback (`Dream.RaiseDuringBackupBlocksRollback`, `Dream.RollbacksTakeRunsOff`);
  a rollback that is killed between two files that it changes is not finished by anyone
  (`Dream.KilledRollbackIsTorn`).
* While the agent is acting, an operation that failed retryably is runnable before its retry time
  (`OperationReduction.RetryTimeIsRespectedOutsideActing`).

## Model

| member | source | states |
|---|---|---|
| `Restore.RestoreCrashSafety` | backup/restore.py:327-417 | however often restore, recovery, rollback and the failure handler are killed, while the fence stands the tree that was home is in exactly the place the slots tell, and a rollback that runs to its end makes it home again and lifts the fence |
| `Restore.RestoreNeverOverwrites` | backup/restore.py:404-417 | on every disk, reached or not, with an old home or without: every rename that restore, recovery, rollback or the failure handler would perform finds its source and a free target at its moment |
| `Restore.ReachedInv` | backup/restore.py:85-210 | the invariant behind both: where the old home is, which slots may coexist, which intents may be in the journal |
| `Restore.CommandAllowed` | backup/restore.py:335-401 | whatever the disk, every effect of recovery, rollback and the failure handler is safe at the moment it is performed, including replays of old intents |
| `Restore.RollbackRuns` | backup/restore.py:386-401 | a rollback started anywhere inside the invariant never raises and restores the old home |
| `Restore.RecoverySettlesEveryIntent` | backup/restore.py:350-366 | a recovery that does not raise leaves every intent committed under its own name or its retry's |
| `RestoreReplay.RecoveryCanUndoARollback` | backup/restore.py:350-366 | from every fresh disk and archive: a restore that dies right after its first intent, a recovery that retries the rename and a rollback that dies just before it lifts the fence leave the old home in place, and one more recovery moves it away |
| `RestoreReplay.RecoveryMovesTheHomeExactlyWhen` | backup/restore.py:335-366 | in every reachable state with the fence up, the old home in place and the rollback slot free: recovery moves the home at some point if and only if some uncommitted intent has the home as its source, its fingerprint, and a free target, and ends without a home if and only if the last uncommitted intent does |
| `RestoreReplay.ShuttleEnds` | backup/restore.py:354-366 | while the old home has only gone between home and rollback, recovery never raises and leaves it where the last uncommitted intent would put it |
| `RestoreReplay.SettlingHolds` | backup/restore.py:354-366 | when every uncommitted intent that has the home as its source has its target taken, recovery leaves the home where it is |
| `Restore.RollbackReturnsWhatItFound` | backup/restore.py:386-401 | after a restore and any later processes, all of which may have died, rollback gives back what was there before if and only if a home was there or none is installed now |
| `Restore.NewHomeStaysWithoutAnOldOne` | backup/restore.py:386-401 | the other case happens: a restore onto no home that dies once the new home is in place keeps it through a rollback |
| `RestoreOutcome.CompletedRestore` | backup/restore.py:94-196 | for every fresh disk, with a home or without: a restore completes exactly if its workspace renames can be made, and then the migrated tree is home, no old home and nothing staged is left, the fence is down, the journal is committed, and the workspaces are as the archive asks |
| `RestoreOutcome.FenceDownMeansRestored` | backup/restore.py:150-196 | wherever a restore that started dies, if its fence is down again the migrated tree is home |
| `RestoreOutcome.AllOrNothing` | backup/restore.py:94-401 | after a restore and any later processes, each of which may have died anywhere, once the fence is down the home is the migrated tree if the journal says committed, and otherwise the journal says rolled back and the home is the tree that was there before |
| `RestoreOutcome.CompletedJournal` | backup/restore.py:134-191 | the journal of a completed restore has every phase once and in order, and every intent committed |
| `RestoreOutcome.RecoveryFinishesTheCommitted` | backup/restore.py:345-348 | a recovery that finds a committed restore lifts its fence and changes nothing else |
| `RestoreOutcome.RollbackLeaves` | backup/restore.py:386-401 | exactly what a rollback, or the failure handler, leaves of every tree: the old home back, what stood there kept as failed, what was staged swept, nothing else touched |
| `Restore.RestoreProcess.RenameAction` | backup/restore.py:404-417 | intent, refusal if the target exists, rename, commit: exactly the planned effects, cut off by death |
| `Restore.RestoreProcess.RestoreWorkspaces` | backup/restore.py:425-460 | the journalled part of the workspace loop, cut off by death |
| `Restore.RestoreProcess.RestoreHome` | backup/restore.py:94-196 | performs the planned effects in order, stops where a rename refuses, and is cut off by death; `RestoreOutcome.CompletedRestore` says what they amount to |
| `Restore.RestoreProcess.RollBackHome` | backup/restore.py:376-401 | rollback chooses its renames from the slots alone, as planned |
| `Restore.RestoreProcess.RecoverInterrupted` | backup/restore.py:335-366 | the recovery loop over intents in dictionary order, as planned |
| `Journal.AcceptedIffBuilt` | backup/control.py:142-168 | the reader accepts a list of records if and only if successive appends of their bodies build it |
| `Journal.HashPinsPrefix` | backup/control.py:142-168 | with an injective hash, if the last hash of one accepted journal appears in another, the first is the prefix of the second that ends there |
| `Journal.SameLastHashSameJournal` | backup/control.py:142-168 | two accepted journals with the same last hash are identical |
| `Journal.EveryCommitHasAnIntent` | backup/control.py:202-212 | over any operations every committed action has an earlier intent with its id, the chain stays accepted and history only grows |
| `Journal.CommitNeedsItsIntent` | backup/control.py:202-212 | a commit is recorded, as a commit, if and only if its intent was; a begin records an intent, a fact neither; each is one linked record with its payload |
| `Journal.AppendNeedsACleanEnd` | backup/control.py:195-196 | for every file that reads: an append leaves one that reads, with one record more, if and only if the last line had its newline or was blank |
| `Journal.RestoreJournal.ReadRecords` | backup/control.py:142-168 | succeeds exactly on undamaged, accepted files, and then returns their records |
| `Journal.RestoreJournal.Append` | backup/control.py:170-200 | refused unless the file reads; otherwise one linked record more, or, on a last line without its newline, that line spoiled; what it leaves reads exactly if the file ended cleanly |
| `Journal.RestoreJournal.CommitAction` | backup/control.py:205-212 | refuses unless the journal is accepted and holds an intent with the id |
| `TornJournal.TornCrashSafety` | backup/restore.py:386-401 | with deaths inside appends, before a newline and between effects, the old home is kept while the fence stands, and a rollback that lives returns it and lifts the fence if and only if the last line of the journal has its newline; otherwise it raises, leaves the fence up and the journal torn |
| `TornJournal.TornStopsEverything` | backup/control.py:142-168 | once a line is torn, no recovery, rollback or failure handler changes anything |
| `TornJournal.RecoveryStrandsTheHome` | backup/restore.py:354-363 | from every fresh disk and archive: a restore that dies before the newline of its first intent and one recovery leave the old home in the rollback slot behind a torn journal, where no later process brings it back or lifts the fence |
| `TornJournal.OpenJournalIsSpentAtOnce` | backup/control.py:179-196 | on a last line without its newline every process performs at most one append, which tears it, and one move or sweep; or only lifts the fence of a committed restore |
| `TornJournal.RollbackOnOpen` | backup/restore.py:386-401 | a rollback that finds such a line moves nothing, raises, and sweeps what is staged only if nothing was set aside |
| `TornJournal.TornFilesAreRefused` | backup/control.py:142-168 | the journal file of a restore reads if and only if no line is torn, and will still read after an append if and only if its last line has its newline |
| `TornJournal.AppendsReachTheFile` | backup/control.py:170-200 | appending an entry to a journal that reads does to the file what append does: its chained record as a new line, or a spoiled last line |
| `ObjectStore.PutThenOpen` | backup/object_store.py:150-246 | whatever was stored under the hash of some bytes opens to exactly those bytes, whichever put created the object, and no other object changes |
| `ObjectStore.PutKeepsGenuine` | backup/object_store.py:150-219 | whatever was read, no object is published that is not what its address and header say |
| `ObjectStore.AlteredObjectsDoNotOpen` | backup/object_store.py:326-327 | content changed after it was sealed does not open |
| `ObjectStore.AlteredManifestsAreRefused` | backup/snapshot.py:47-62 | with an injective hash, a manifest with other members under the same hash is refused |
| `ObjectStore.FinalizedIsReadable` | backup/snapshot.py:20-62 | a finalized manifest reads if and only if no path is taken twice and every member names its own content |
| `ObjectStore.MaterializedHolds` | backup/snapshot.py:65-89 | materialising gives at each member's path the bytes of its own object, of the recorded size, and nothing else |
| `ObjectStore.BackupObjectStore.Put` | backup/object_store.py:150-224 | the chunk loop publishes, reuses or refuses as the store, the declared size and the content decide |
| `ObjectStore.BackupObjectStore.RestoreObject` | backup/object_store.py:226-246 | gives the stored bytes or nothing |
| `ObjectStore.BackupObjectStore.ReadManifest` | backup/snapshot.py:47-62 | accepts exactly the manifests whose hash is right, whose paths are distinct and whose members name their own content |
| `ObjectStore.BackupObjectStore.MaterializeSnapshot` | backup/snapshot.py:65-89 | succeeds exactly if the manifest is readable and every member opens at its recorded size, and then writes exactly those files |
| `BackupOperations.OneActiveWorkflow` | backup/operations.py:43-75 | after any attempts to create and move, at most one row holds the active slot, every row is the end of its own gap-free chain of transitions, and the log only grows |
| `BackupOperations.MovesAreMadeOnce` | backup/operations.py:123-187 | a move writes phase, attempts and revision, frees the slot exactly if it ends the operation, leaves other rows alone, and cannot be repeated from the same reading |
| `BackupOperations.OneAtATime` | backup/operations.py:79-103 | while an operation is under way no other is created; once it has ended, one is |
| `BackupOperations.OperationStore.CreateOperation` | backup/operations.py:79-103 | refused for a used id, a terminal or revised operation, or while another row is active |
| `BackupOperations.OperationStore.Active` | backup/operations.py:113-121 | finds the row that holds the slot if there is one |
| `BackupOperations.OperationStore.Transition` | backup/operations.py:123-187 | a compare-and-set on revision and phase that frees or takes the slot and logs the move |
| `BackupFinish.ResumeFidelity` | backup/service.py:433-504 | from a frozen snapshot, over any starts and deaths, with any secrets or none: the operation ends failed, or parked, if and only if some start before its end failed it, or parked it; every manifest published is the same one and materialises exactly the frozen map of paths to bytes, however the operation ended; a completed operation is in the index and has left no staging, and only a published backup is ever in the index |
| `BackupFinish.OneStartStops` | backup/service.py:480-496 | one start leaves a good operation failed if and only if it had, or it had not ended and the start lives and finds no secret, or finds one of the right name and another key when verifying; and parked if and only if it was, or the secret has another name, or another key before verifying |
| `BackupFinish.StartsStop` | backup/service.py:480-496 | the same over any number of starts: failed or parked exactly if one of them did it |
| `BackupFinish.InterruptedPassphraseFails` | backup/service.py:542-550 | the first start after the death of a passphrase backup that lives fails it, and sweeps its snapshot |
| `BackupFinish.ResumeCompletes` | backup/service.py:480-504 | wherever earlier processes died, one that has the secret and lives long enough completes the operation, and so records it and clears its staging, if and only if no earlier start failed or parked it |
| `BackupFinish.AttemptsCountStarts` | backup/service.py:626-634 | the attempt count rises by one exactly with each start that goes about storing objects |
| `BackupFinish.BrokenOperationsFail` | backup/service.py:635-688 | whatever the disk, an operation whose frozen files are gone, fail their checks, or do not verify ends failed, and so does one that was never frozen |
| `BackupFinish.StartIsGood` | backup/service.py:433-504 | from every good disk, whatever secret a process finds, each of its effects is safe |
| `BackupFinish.OwnFinishIsGood` | backup/service.py:611-678 | with the operation's secret the effects of finishing are safe, never fail or park it, and end with it completed |
| `BackupFinish.MembersStore` | backup/service.py:643-662 | storing frozen members succeeds, leaves them all in the store, and stamps the same records whichever of them were there before |
| `BackupFinish.StampedMaterializes` | backup/snapshot.py:65-89 | the published members materialise to the frozen map |
| `BackupFinish.VerifiedMeansIntact` | backup/service.py:735-753 | verification succeeds if and only if the manifest reads, the key is that of the store, and every member's object opens to content of the member's own hash and size |
| `BackupFinish.BackupWorkflow.StoreOne` | backup/service.py:643-660 | one round: the checks on the frozen member, the put and its record, or nothing |
| `BackupFinish.BackupWorkflow.StoreObjects` | backup/service.py:643-662 | stores and records the members in order up to the first that fails its checks, cut off by death |
| `BackupFinish.BackupWorkflow.VerifyManifest` | backup/service.py:735-753 | the member loop succeeds exactly if the manifest is readable, the key is that of the store, and every member opens with the header it lists |
| `BackupFinish.BackupWorkflow.VerifyAndComplete` | backup/service.py:690-733 | verify, record in the index, drop the staging directory, complete; or fail; cut off by death |
| `BackupFinish.BackupWorkflow.FinishOperation` | backup/service.py:611-688 | the whole finish from each phase: parked on a secret of another name, on a phase that cannot be finished, or on a key the object store refuses; failed when its frozen members or verification fail; cut off by death |
| `BackupFinish.BackupWorkflow.ReconcileStartup` | backup/service.py:433-504 | a start: sweep what an ended operation left, fail one that was not frozen or whose secret is gone, finish the others; cut off by death |
| `Prestage.PrestagingRefinesFrozenCopying` | backup/service.py:995-1091 | if equal fingerprints mean equal contents, frozen staging with any prestaged copies gives the members and bytes of frozen staging without them if and only if every matching entry still has the kind it was prestaged as, and a reused database copy equals the raw copy that would be taken instead |
| `Prestage.PrestagingIsGood` | backup/service.py:947-993 | what prestaging caches was copied whole: present under its hash, of the recorded size, and equal to the frozen file whenever the fingerprint is |
| `Prestage.OneEntry` | backup/service.py:1017-1068 | the same for one member: cached and fresh staging agree exactly when the entry is harmless |
| `Prestage.StagingHoldsTheHome` | backup/service.py:995-1091 | staging that copies everything succeeds if and only if no path is taken twice and every entry can be had; it then lists every entry in order with size and hash of what should be kept of it, and holds exactly those bytes |
| `Prestage.StableFilesAreCached` | backup/service.py:947-993 | prestaging caches a file if and only if its copy was whole, with exactly what the copy saw |
| `Prestage.PrestagingRefusesDuplicates` | backup/service.py:947-993 | prestaging gives up if and only if a path comes up again that it has cached already |
| `Prestage.StaleKindLosesTheLog` | backup/service.py:1030-1034 | every file that was no database when prestaged, and is one with something in its log inside the freeze, is staged raw, and so differently from a staging that copies everything |
| `Prestage.NewDatabaseIsCopiedRaw` | backup/service.py:1030-1034 | for every injective hash there is such a file: a database that is still empty when it is prestaged |
| `Prestage.StagingDirectory.PrestageSources` | backup/service.py:947-993 | the loop caches exactly the copies whose fingerprints agree before and after and whose size fits |
| `Prestage.StagingDirectory.AddMember` | backup/service.py:1017-1068 | one member is reused, copied or snapshot as cache, fingerprint and kind decide, and stored once under its hash; on failure nothing is stored |
| `Prestage.StagingDirectory.StageConsistentSources` | backup/service.py:995-1091 | the loop over all entries; a duplicate, missing or unreadable member empties the staging directory |
| `Retention.CollectionSafety` | backup/service.py:873-936 | in every reachable state of starts, puts, publications, deaths and retentions that no other process runs beside, seen at any of their effects, every object a listed readable manifest names is present and so is every object the active operation has put |
| `Retention.RetentionProtects` | backup/service.py:920-936 | retention killed anywhere removes no object that a remaining listed manifest names |
| `Retention.SurvivorsAreTheLongestAffordableSuffix` | backup/service.py:884-893 | among the unexpired records a suffix fits the cap if and only if it is no longer than the survivors |
| `Retention.DroppingMoreCostsLess` | backup/service.py:938-945 | the deduplicated size never grows when more of the oldest records go |
| `Retention.WhatCounts` | backup/service.py:938-945 | a manifest in the backup directory adds its size to the total, one elsewhere nothing, and every object its own |
| `Retention.CutoffDecides` | backup/service.py:879-882 | the records older than the cutoff, and no others, are expired |
| `Retention.ManifestKeepsItsObjectsExactlyWhen` | backup/service.py:920-936 | a manifest that is still there after a retention keeps all its objects if and only if each is named by a surviving record; a listed one always does |
| `Retention.UnlistedKeepsWhatItShares` | backup/service.py:920-936 | a manifest in no list keeps exactly the objects that surviving records name too |
| `Retention.FailedElsewhereKeepsOnlyWhatItShares` | backup/service.py:837-842 | in every state from which an operation that has published elsewhere fails unindexed, the next retention leaves its manifest whole if and only if surviving records name all its objects |
| `Retention.FailedElsewhereIsNotProtected` | backup/service.py:837-842 | a run in which such a manifest loses its object |
| `Prune.NothingLostWithoutOverlap` | backup/service.py:873-936 | any number of retentions, in steps, interleaved with each other and with everything else: no listed manifest loses an object as long as no operation is active while a retention is under way |
| `Prune.StartedInBetweenLosesTheUnread` | backup/service.py:920-936 | an operation that starts after a retention has read its list can end with a listed manifest that lacks its object if and only if the list did not name that object |
| `Prune.EveryCatalogCanLose` | run_ui/cli.py:2395-2408 | from every catalog whose listed manifests read, a retention and an operation together lose any object that no listed manifest named |
| `Prune.SweepKeepsWhatItRead` | backup/service.py:920-936 | during a retention's deletions, whatever operations come and go, what it has read as named stays wherever it is named |
| `Prune.EndForgetsRegistrations` | backup/service.py:897 | the index a retention writes forgets a manifest registered meanwhile, unless it lies in the backup directory |
| `Retention.BackupService.CollectUnreferencedObjects` | backup/service.py:920-936 | refuses before any deletion if a manifest is unreadable; otherwise leaves exactly the referenced objects, through states that only lose unreferenced ones |
| `Retention.BackupService.BackupStorageSize` | backup/service.py:938-945 | the sum over the files of both directories, in whatever order they are met |
| `Retention.BackupService.UnlinkExpired` | backup/service.py:879-882 | exactly the records past the cutoff go |
| `Retention.BackupService.ApplyRetention` | backup/service.py:873-897 | does nothing while an operation is active; otherwise removes the expired records and the fewest more that bring the store under its cap, or all; the objects left are exactly the union of the survivors' references; an unreadable survivor stops it before any object goes |
| `Lifecycle.HistoryIsLegalPath` | backup/lifecycle_store.py:53-74 | however processes interleave reads, checks and saves, the log is numbered 1..n, each row leaves the state the row before it entered along an allowed edge, and the snapshot is the last row |
| `Lifecycle.EpochsCountFreezes` | backup/maintenance.py:237-244 | epochs never go back, and stay the same exactly while no QUIESCING is entered |
| `Lifecycle.RunningAgainMeansResumed` | backup/maintenance.py:85-119 | in every history the gateway runs again only by resuming from a drained freeze, a restore or a breakdown, and a restore begins only in a drained freeze |
| `Lifecycle.LifecycleStore.Save` | backup/lifecycle_store.py:63-74 | snapshot and row together under the revision check, or neither |
| `WriteGate.FreezeExclusion` | backup/maintenance.py:85-235 | over all interleavings every lease live in QUIESCED, RESTORING or RESUMING is maintenance of the current epoch and none live in RUNNING is maintenance |
| `WriteGate.FrozenMutationsAreMaintenance` | backup/maintenance.py:207-219 | while frozen, every admitted mutation comes from a live maintenance lease of the current epoch |
| `WriteGate.StaleLeaseAuthorisesNothing` | backup/maintenance.py:207-219 | a maintenance lease of an earlier epoch authorises nothing outside RUNNING, whatever happened since |
| `WriteGate.LeaseIsFixed` | backup/maintenance.py:135-168 | a lease keeps the epoch it was admitted with until it is left |
| `WriteGate.NoNewWorkflowOutsideRunning` | backup/maintenance.py:143-152 | over any events during which the gateway never runs, every lease live in the end was live at the start or was admitted on the way as maintenance of its epoch, as control, or as the continuation of a lease live at that moment, while frozen only as maintenance |
| `WriteGate.DrainedStaysDrained` | backup/maintenance.py:134-168 | once no lease is live, none becomes live without maintenance or control until the gateway runs again |
| `WriteGate.AnOpenGateAdmits` | backup/maintenance.py:134-219 | an unfenced gate admits every ordinary lease and mutation while running, maintenance of the present epoch and its mutations from the freeze until it runs again, and continuations and mutations of live work while draining or broken |
| `WriteGate.AFencedGateAdmitsNothing` | backup/maintenance.py:134-219 | after a storage fault no lease of work is admitted and nothing is mutated, whatever happens |
| `WriteGate.AFreezeCanComplete` | backup/maintenance.py:85-168 | from a running gate without work a freeze drains, lets maintenance in and out, and runs again one epoch on |
| `WriteGate.AgentHomeWriteGate.EnterWork` | backup/maintenance.py:134-168 | admits exactly the leases the state allows |
| `WriteGate.AgentHomeWriteGate.CheckMutationAdmission` | backup/maintenance.py:207-219 | admits exactly the mutations the state and the current lease allow |
| `WriteGate.AgentHomeWriteGate.DatabaseTransaction` | backup/maintenance.py:221-235 | leaves no lease behind and runs exactly if mutation is admitted or it only reads |
| `WriteGate.AgentHomeWriteGate.Transition` | backup/maintenance.py:85-119 | moves along the table when drained and, into QUIESCING, to a later epoch; a revision conflict changes nothing and a storage fault fences the process |
| `Delivery.OrderedExactlyOnce` | gateway/api.py:1487-1529 | with a gap-free append-only store and a bus that drops, repeats and reorders, what was sent on each followed stream is always exactly the events after+1 to the cursor, in order |
| `Delivery.ArrivalsCatchUp` | gateway/api.py:1511-1529 | each event that arrives is at or behind the cursor in the end: one arrival repairs every earlier loss |
| `Delivery.CursorsAdvance` | gateway/api.py:1507-1529 | a cursor never goes back |
| `Delivery.BasesAreKept` | gateway/api.py:1487-1492 | the point a stream was followed from never changes |
| `Delivery.ReplayInOrder` | gateway/api.py:1493-1498 | replay keeps the order and brings the cursor to the end of the store |
| `Delivery.EventSocket.Replay` | gateway/api.py:1493-1498 | sends exactly the stored events after the cursor, in order, and moves the cursor to the last of them |
| `Delivery.EventSocket.ForwardEvent` | gateway/api.py:1504-1529 | a live event at or behind the cursor is skipped; one ahead of it is preceded by exactly the stored events between |
| `Delivery.EventSocket.Serve` | gateway/api.py:1487-1529 | replays every followed stream and then forwards every arrival, so that the promise of ordered delivery holds of what it sent |
| `EventBus.BusAndSocketInOrder` | gateway/events.py:77-95 | behind a bounded queue that drops what does not fit, however offers and takes interleave, the socket still sends on every stream exactly the stored events up to its cursor, once each and in order, and no event it received is ahead of its cursor |
| `EventBus.DrainedIsPlausible` | gateway/events.py:77-95 | what a subscriber takes from its queue is what the socket relies on: durable events of a store that only grows |
| `EventBus.OfferedIsReceived` | gateway/events.py:87-95 | a wanted message that finds room is received, after exactly what was queued before it |
| `EventBus.GatewayEventBus.Subscribe` | gateway/events.py:30-47 | a new id, an empty queue, one more for the client |
| `EventBus.GatewayEventBus.Unsubscribe` | gateway/events.py:49-59 | the subscription goes, and the client when it was its last |
| `EventBus.GatewayEventBus.DeliverFromOutbox` | gateway/events.py:77-95 | a new id is offered once to every matching queue with room, a remembered one to none; the remembered ids stay bounded, and every queue keeps holding only durable events that its subscriber wants |
| `EventBus.GatewayEventBus.Take` | gateway/api.py:1593-1607 | the oldest message of the queue, durable and wanted, or none |
| `CronSchedule.NextFutureIsFirst` | cron/schedule.py:60-74 | for an interval, the first point of the grid that is after both the scheduled time and now |
| `CronScheduler.CoalescingCursorIsNextFuture` | cron/scheduler.py:110-151 | under overlap, skip and fire_once the next run is the closed form if and only if there are at most 100000 due points, and none otherwise |
| `CronScheduler.OutcomesFollowPolicy` | cron/scheduler.py:101-163 | for every schedule, policy and number of pending dispatches: nothing unless due; otherwise, over exactly the due points, overlap and skip make one skipped row, fire_once one pending row, each standing for all points at the last of them, and catch_up one pending row for each of the first points up to ten pending |
| `CronScheduler.CatchUpCursorIsOldestLeft` | cron/scheduler.py:152-161 | the cursor after catch_up is the oldest due point without a dispatch, or, when none is left, the first point after now if at most 100000 were due |
| `CronScheduler.OnceIsMaterializedOnce` | cron/scheduler.py:112-161 | a job that runs once gets one dispatch at its time and no next run; only catch_up with ten pending leaves it due |
| `CronScheduler.TooManyDuePoints` | cron/scheduler.py:112-121 | a job due every minute that is looked at 100000 minutes late has no next run |
| `CronScheduler.CronConservation` | cron/scheduler.py:101-163 | over any ticks, stale writes and overlaps the coalesced counts of the dispatches sum to the grid points passed, their times are increasing, on the grid's side of the cursor and distinct, and the job's skip counters are the sums over its skipped rows |
| `CronScheduler.CatchUpMissesNothing` | cron/scheduler.py:152-161 | under catch_up the n-th dispatch is for the n-th grid point, stands for it alone and is pending |
| `CronScheduler.CollectOccurrences` | cron/scheduler.py:112-121 | the bounded loop gives exactly the due points and the cursor after them |
| `CronScheduler.MaterializeDue` | cron/scheduler.py:101-163 | the due points and what the policy makes of them, step by step; `CronScheduler.OutcomesFollowPolicy` and `CronScheduler.CatchUpCursorIsOldestLeft` say what that is |
| `CronStore.TablesAgree` | cron/store.py:292-463 | in every reachable state of any interleaving each job has at most one dispatch in flight, names it exactly when it is bound, and its counters count the bound dispatches that finished and those of them that did not succeed |
| `CronStore.CountersFollowResults` | cron/store.py:364-393 | over any interleaving the run counter counts the runs settled for a job, the failure counter those that did not succeed, and the consecutive counter those since the last success |
| `CronStore.SettlingEndsTheRun` | cron/store.py:364-393 | settling a bound dispatch gives it the status of the result, frees its job, completes a job that runs once exactly on success, and changes nothing else |
| `CronStore.OneDispatchLives` | cron/store.py:326-433 | a pending row that is claimed, bound and settled ends with its token, its run and its result, its job counted and free, and nothing else changed |
| `CronStore.MaterializedRowsCanBeClaimed` | cron/store.py:292-346 | a new row of an idle job can be claimed if and only if it is pending |
| `CronStore.StoppedJobsStartNothing` | cron/store.py:262-346 | a paused, completed or removed job starts nothing; a scheduled one starts a pending row exactly if it has none in flight |
| `CronStore.JobsAreCreatedOnce` | cron/store.py:262-276 | a new job is scheduled with nothing run, and creating it again changes nothing |
| `CronStore.FinishedIsFinal` | cron/store.py:364-393 | a finished dispatch never changes and a bound run id never changes |
| `CronStore.ClaimAgrees` | cron/store.py:326-346 | claiming keeps the agreement |
| `CronStore.BindAgrees` | cron/store.py:395-433 | binding keeps the agreement, against a job and a row read at any earlier time |
| `CronStore.TerminalAgrees` | cron/store.py:364-393 | finishing keeps the agreement |
| `CronStore.MaterializeAgrees` | cron/store.py:292-324 | materialising keeps the agreement |
| `CronStore.Store.ClaimNext` | cron/store.py:326-346 | claims a pending dispatch only of a job with none in flight |
| `CronStore.Store.BindRunning` | cron/store.py:395-433 | row and job together under both revisions, or neither |
| `CronStore.Store.MarkTerminal` | cron/store.py:364-393 | row and job together under both revisions, or neither |
| `CronStore.Store.MarkRecoveryRequired` | cron/store.py:447-463 | moves a bound running dispatch only |
| `CronStore.Store.DueMaterialize` | cron/store.py:292-324 | new rows and the job together under the job's revision, or neither |
| `CronStore.Store.SaveJob` | cron/store.py:262-276 | replaces a job under its revision |
| `Dream.DreamTransaction` | dream/service.py:585-636 | kill the commit anywhere and recovery any number of times: once recovery finishes, the state, memory and profile files are all new if the marker had gone and otherwise all old, while canonical memory keeps what was written |
| `Dream.CommitIsAtomic` | dream/service.py:605-632 | at every moment of the commit recovery would restore all of the old, and from the removal of the marker on all of the new |
| `Dream.CommitWritesTheProposal` | dream/service.py:585-632 | a whole commit leaves each profile with the text rendered for it, the index with its own, the state with the run and its evidence, every other file untouched, and in memory exactly the rows of the candidates besides those it had |
| `Dream.QuietRangesChangeOnlyTheStatus` | dream/service.py:300-408 | a range with nothing new, or whose model failed, changes the status and nothing else |
| `Dream.RaisedLeavesMemory` | dream/service.py:633-636 | wherever an exception strikes in a commit, memory ends up as it was |
| `Dream.RollbackIsAllowed` | dream/service.py:192-213 | a rollback restores the files from the latest run's backup and takes exactly that run's rows out of memory |
| `Dream.LedgerAlwaysAccounts` | dream/service.py:265-415 | over commits, empty days, failures, exceptions anywhere in a commit, rollbacks and deaths in any of them, the processed evidence is the disjoint union of what the listed runs found fresh, and a listed run has the backup of the moment at which only the runs before it were listed, except exactly the runs that raised before their backup was finished, which have none |
| `Dream.FreshIsExactlyTheUnprocessed` | dream/service.py:733-746 | a piece of evidence is fresh if and only if it is in the archive and not processed |
| `Dream.RollbacksReturnToBeforeTheCommit` | dream/service.py:192-213 | whatever happened since a commit, when its run is the k-th latest and the latest k have finished backups, k rollbacks put every file it touched back as it was just before |
| `Dream.RollbacksTakeRunsOff` | dream/service.py:192-213 | k rollbacks take k runs off the list if and only if the latest k all have finished backups |
| `Dream.RollbacksUndo` | dream/service.py:192-213 | k rollbacks put every file that the k-th latest backup lists to what it says, when the latest k have finished backups |
| `Dream.RecoveriesStaySettled` | dream/service.py:702-717 | recovery killed any number of times changes nothing about what it will restore |
| `Dream.CrashKeepsCanonicalRows` | dream/service.py:607-625 | a killed commit leaves canonical memory as it was if and only if it died before its first row |
| `Dream.FailedRunsAndTheirEvidence` | dream/service.py:354-408 | a failed run leaves its evidence unprocessed if and only if it failed before its commit, wherever in the commit the exception struck |
| `Dream.RaiseDuringBackupBlocksRollback` | dream/service.py:402-408 | after an exception in the commit the run is listed as successful, and can be rolled back if and only if its backup was complete |
| `Dream.KilledRollbackIsTorn` | dream/service.py:203-205 | a killed rollback leaves the files all old or all as saved if and only if they already held what the lines before its death say, or what the lines after it say; recovery does nothing about it |
| `Dream.RestoredAt` | dream/service.py:671-700 | restoring a backup sets every listed path to its saved content and no other |
| `Dream.GroupFreshEvidence` | dream/service.py:733-746 | groups by day exactly the evidence that is not yet processed |
| `Dream.ConsumeFresh` | dream/service.py:356-358 | afterwards exactly the processed and the fresh evidence of each day is processed |
| `Dream.DreamService.CreateBackup` | dream/service.py:654-669 | the directory, then the manifest with every path and what it held |
| `Dream.DreamService.RestoreBackup` | dream/service.py:671-700 | writes or removes each listed path in order, cut off by death |
| `Dream.DreamService.Commit` | dream/service.py:585-632 | backup, marker, rows, profiles, memories, state, marker gone; cut off by death; `Dream.CommitWritesTheProposal` says what that leaves |
| `Dream.DreamService.CommitThatRaises` | dream/service.py:633-636 | an exception after k effects: compensate, restore, unmark, and the state that the caller then writes |
| `Dream.DreamService.ProcessRange` | dream/service.py:265-415 | what reaches the disk for an empty day, a model failure, a commit and a commit that raises, cut off by death |
| `Dream.DreamService.RollBack` | dream/service.py:192-213 | only the latest run, from its backup |
| `Dream.DreamService.Serve` | dream/service.py:702-717 | recovery first, then one operation, under one lifetime |
| `Generation.RemainingIsAccepted` | Agent/resources.py:1038-1054 | what quarantine leaves passes every check that discover made on the whole |
| `Generation.RemainderIsGreatest` | Agent/resources.py:1041-1054 | it is the greatest set that keeps its requirements and is without the failed plugin |
| `Generation.AcceptedPluginsStandApart` | Agent/resources.py:757-822 | any two plugins of an accepted generation differ in name, share no file, and contribute nothing of one kind and name to the same profile |
| `Generation.AcceptedPluginsFit` | Agent/resources.py:771-841 | each has the interface version, what it requires wherever it is exposed, nothing it conflicts with, and files only in allowed places |
| `Generation.MountedWhere` | Agent/resources.py:1476-1494 | a harness profile sees the harness runtime at the top, and an interactive, cron or dream profile its own resources |
| `Generation.MountedFromPlugin` | Agent/resources.py:1480-1483 | what a plugin ships is mounted where it would be without the plugin's own directory |
| `Generation.ExpandOnce` | Agent/resources.py:1045-1051 | one round only adds plugins that every closed set contains, and a round that adds none has reached a closed set |
| `Generation.DisableQuarantinedMember` | Agent/resources.py:1038-1054 | the loop ends with the least closed set containing the failed plugin |
| `Generation.Discover` | Agent/resources.py:757-822 | succeeds exactly on the accepted sets |
| `Generation.Fits` | Agent/resources.py:771-795 | succeeds exactly if one descriptor has the interface version, its requirements present and exposed where it is, no conflict present, and all members in allowed places |
| `Generation.Claim` | Agent/resources.py:796-821 | identities are added exactly if none is taken twice |
| `ProfileView.ViewLosesNoMember` | Agent/resources.py:1403-1427 | for an accepted generation every authorised member is at its mounted place with its recorded hash, and no two members share a place in any profile |
| `ProfileView.ViewPlacesAreExposedMembers` | Agent/resources.py:1412-1427 | a place of a view is filled if and only if a plugin exposed to that profile has a member mounted there |
| `ProfileView.ViewPlacesAmongMounts` | Agent/resources.py:1475-1494 | mounting is injective on the members of each profile |
| `ProfileView.ProfileViews.MaterializeProfileView` | Agent/resources.py:1403-1472 | from an absent, blocked, partial or complete directory, with or without another process publishing first: returns exactly if the view can be complete, and then it is |
| `ProfileView.ProfileViews.CopyMembers` | Agent/resources.py:1447-1457 | copies all members or stops at one that is missing or changed |
| `PluginSettings.PluginSettingsFile.SetEnabled` | Agent/resources.py:672-713 | refuses or switches one plugin and counts the change, and keeps every installed enabled plugin's requirements enabled |
| `OperationReduction.ReductionIgnoresOrder` | Agent/state.py:445-461 | any order of the same attempts gives the same result |
| `OperationReduction.ReductionIsDefined` | Agent/state.py:445-516 | over valid attempts the reduction succeeds exactly on numbered histories of this operation with at most one active attempt whose retry, if one is due, is timestamped; and then the aggregate passes its validator |
| `OperationReduction.ReductionFollowsTheLatest` | Agent/state.py:476-516 | in terms of the attempt with the highest number alone: completed exactly if it completed or was confirmed to have succeeded, with its result and source or a human's word; failed for good exactly if it failed terminally, was confirmed to have failed or may not be retried, with the reason of each; otherwise its own state |
| `OperationReduction.OneAttemptAtATime` | Agent/state.py:465-475 | a reduced history has no two attempts that are prepared, running, or of unknown and unresolved effect |
| `OperationReduction.RetryableAggregates` | Agent/state.py:488-505 | a retryable result means fewer than max_attempts attempts, the last failed retryably, and gives its completion plus its delay as the retry time; no other result has one |
| `OperationReduction.DelaysGrow` | Agent/state.py:497-497 | delays are between zero and the maximum and never shrink |
| `OperationReduction.DelaysDouble` | Agent/state.py:497-497 | the first delay is the base, each next one twice the last, up to the maximum |
| `OperationReduction.RetriesAreBounded` | Agent/state.py:488-493 | a history grown only on retryable results never exceeds max_attempts |
| `OperationReduction.RetryTimeIsRespectedOutsideActing` | Agent/state.py:953-996 | outside ACTING a retryable operation is runnable exactly from its retry time on and under an automatic policy; while ACTING exactly if its attempt has not begun or has ended |
| `OperationReduction.RunsUnlessHindered` | Agent/state.py:953-996 | nothing runs while something hinders it; apart from acting and from operations to be retried, whatever nothing hinders runs |
| `Compression.BlocksCoverInput` | context_process/compression.py:577-584 | joined, the blocks are the input, and only the first message of a block may be the user's |
| `Compression.BlocksAreUnique` | context_process/compression.py:577-584 | there is no other way to cut a conversation into such blocks |
| `Compression.BlocksSplit` | context_process/compression.py:577-584 | a cut before a user message cuts between blocks |
| `Compression.BoundaryKeepsWholeTurns` | memory/turn_boundary.py:6-17 | the boundary is where the last one or two turns begin, or 0 when there are fewer, and never inside a turn |
| `Compression.SelectionKeepsWholeTurns` | context_process/compression.py:595-648 | automatic selection cuts the conversation between turns, keeps the last one or two, and anchors the summary at the first of two |
| `Compression.SelectionLosesNothing` | context_process/compression.py:595-648 | what is compressed and what is kept are together all summaries and then the whole conversation; the kind of boundary says whether selection was manual, and within a turn |
| `Compression.SummariesJoin` | context_process/compression.py:604-606 | summaries and conversation are picked record by record, in order |
| `Compression.SelectionNeedsTheCurrentTurn` | context_process/compression.py:604-628 | with a current message, selection succeeds exactly if the user's latest message among all records is that one, and calls it missing exactly if no record is conversational |
| `Compression.Context.ConversationBlocks` | context_process/compression.py:577-584 | builds exactly the one way to cut the conversation into blocks |
| `Compression.Context.DropBlocks` | context_process/compression.py:464-466 | drops the fewest oldest blocks that meet the threshold, or all |
| `Compression.Context.TrimMessagesIfNeeded` | context_process/compression.py:442-468 | leaves a short or unconcerned request alone; otherwise keeps system messages and protected turns and drops the fewest oldest blocks |

## Left out

- Restore: after the process has died, workspace trees are not rolled back; in-process reversal of workspaces (backup/restore.py:463-471), harness candidates, path mappings, the rescue backup's own work and exceptions after the fence is gone are not modelled. `Restore.RestoreProcess.RestoreHome` starts with its own slots free and an empty journal, because their names carry a new random id.
- Restore freezes the lifecycle itself; here that part is the separate write gate.
- Backup: cryptography, compression, key stores, ZIP archives, SQLite integrity checks and disk-space admission (backup/archive.py, backup/security.py, backup/service.py:760-778), and exceptions outside the modelled checks.
- Backup: snapshotting itself is one step; `BackupFinish.ResumeFidelity` starts from SNAPSHOT_READY. A start that leaves completion to a later tick of the scheduler (backup/service.py:496-497) is one that dies before its first effect.
- BackupFinish.BackupWorkflow.FinishOperation: leaves out a transition that conflicts because another process moved the operation meanwhile; the table that refuses it is `BackupOperations.OperationStore.Transition`. Objects on disk are whole, as publication is atomic.
- BackupFinish.BackupWorkflow.VerifyAndComplete: leaves out the SQLite integrity checks (backup/service.py:760-778), which are library calls, and the call of retention, which returns at once because the operation is still active (backup/service.py:875-876).
- Prestage: the home does not change inside the freeze; a file that is missing inside it ends the backup; the map of schema versions by base name is modelled as a mark on each member.
- Retention.BackupService.ApplyRetention: runs alone; what happens beside other processes is in `Prune.dfy`, where each retention lists the manifests in one step. An index entry is modelled as a place, with the creation time of the manifest there.
- WriteGate.FreezeExclusion: covers one process; leases of other processes are not seen; drains, participants and the external lock of the coordinator are not modelled.
- Delivery: authentication, acknowledgements, socket failures, parsing of cursors and the store's own code (gateway/event_store.py) are not modelled; the store is gap-free and append-only.
- Cron: five-field expressions and time zones (croniter, ZoneInfo); the number of pending dispatches is arbitrary at each tick; claim leases, submission and heartbeats are not modelled; uniqueness of ids is by construction.
- Dream: model calls, validation and merging of candidates, rendering of profiles, run records and execution journals are parameters or left out; legacy backup manifests.
- Dream.LedgerAlwaysAccounts: assumes that run ids are not used twice.
- Generation: approvals, fallbacks, smoke tests and rollback_member, which composes a generation without the checks of discover; conflicts between a file and a directory of the same name.
- ProfileView.ProfileViews.MaterializeProfileView: states the exact set of files only for views it builds itself, because the code does not look for extra files in a complete existing view.
- Operations: fields that reduction copies without looking at them, and naive timestamps; delays are reals.
- Compression: running the compression agent and the token estimate, which is an arbitrary function; records are told apart by their place in the list rather than by object identity.
- HTTP routes, extension loading, workspace migration, the user interface and observers would add only easy members.
